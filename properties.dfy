/** Properties of the LS-8 reference semantics: the exact effect and frame of
    every handler, what the stack and call instructions really do in this
    CPU, the dispatcher's decisions, and facts about whole runs. */
module Ls8Properties {
  import opened Python
  import opened Ls8Semantics

  // ---------------------------------------------------------------- memory

  /** `ram_write(a, v)` followed by `ram_read`: the written cell reads back v,
      every other cell reads as before, and nothing but RAM changes. */
  lemma WriteThenRead(s: State, a: int, v: int)
    requires WellFormed(s) && InBounds(a, RamSize)
    ensures WriteRam(s, a, v).raised == None
    ensures ReadRam(WriteRam(s, a, v).state, a) == Ok(v)
    ensures forall b :: InBounds(b, RamSize) && Resolve(b, RamSize) != Resolve(a, RamSize) ==>
              ReadRam(WriteRam(s, a, v).state, b) == ReadRam(s, b)
    ensures WriteRam(s, a, v).state.(ram := s.ram) == s
  {
  }

  /** An address outside -256..255 raises IndexError and writes nothing. */
  lemma WriteOutOfRange(s: State, a: int, v: int)
    requires WellFormed(s) && !InBounds(a, RamSize)
    ensures WriteRam(s, a, v) == Outcome(s, Some(IndexError))
    ensures ReadRam(s, a) == Raise(IndexError)
  {
  }

  /** A negative address is the same cell as the address 256 above it. */
  lemma NegativeAddressAliases(s: State, a: int, v: int)
    requires WellFormed(s) && -(RamSize as int) <= a < 0
    ensures ReadRam(WriteRam(s, a, v).state, a + RamSize) == Ok(v)
  {
  }

  // ------------------------------------------------------- LDI, PRN, HLT

  /** LDI sets register ram[pc+1] to ram[pc+2] and advances pc by 3; nothing
      else changes. If an index is rejected, IndexError and no change. */
  lemma LdiEffect(s: State)
    requires WellFormed(s)
    ensures var ok := InBounds(s.pc + 1, RamSize) && InBounds(s.pc + 2, RamSize)
                      && InBounds(RamAt(s, s.pc + 1), RegCount);
            if !ok then Ldi(s) == Fail(s)
            else
              var t := Ldi(s).state;
              var r := Resolve(RamAt(s, s.pc + 1), RegCount);
              Ldi(s).raised == None && t.reg[r] == RamAt(s, s.pc + 2)
              && (forall k :: 0 <= k < RegCount && k != r ==> t.reg[k] == s.reg[k])
              && t.ram == s.ram && t.pc == s.pc + 3 && t.running == s.running && t.out == s.out
  {
  }

  /** PRN appends register ram[pc+1] to the output and advances pc by 2;
      RAM and registers are unchanged. */
  lemma PrnEffect(s: State)
    requires WellFormed(s)
    ensures var ok := InBounds(s.pc + 1, RamSize) && InBounds(RamAt(s, s.pc + 1), RegCount);
            if !ok then Prn(s) == Fail(s)
            else
              var t := Prn(s).state;
              Prn(s).raised == None && t.out == s.out + [RegAt(s, RamAt(s, s.pc + 1))]
              && t.ram == s.ram && t.reg == s.reg && t.pc == s.pc + 2 && t.running == s.running
  {
  }

  /** HLT clears `running` and advances pc by 1, and never raises. */
  lemma HltEffect(s: State)
    requires WellFormed(s)
    ensures Hlt(s).raised == None
    ensures !Hlt(s).state.running && Hlt(s).state.pc == s.pc + 1
    ensures Hlt(s).state.(running := s.running, pc := s.pc) == s
  {
  }

  // ------------------------------------------------------------- the ALU

  /** Any ALU tag other than "ADD" and "MUL" raises, before any register is read. */
  lemma AluRejectsOtherTags(s: State, op: string, a: int, b: int)
    requires WellFormed(s)
    ensures Alu(s, op, a, b).raised == Some(PlainException("Unsupported ALU operation"))
            <==> op != "ADD" && op != "MUL"
    ensures Alu(s, op, a, b).raised.Some? ==> Alu(s, op, a, b).state == s
  {
  }

  /** ADD (a = ram[pc+1], b = ram[pc+2]) sets register a to reg[a] + reg[b],
      with no wrap-around, advances pc by 3 and changes nothing else. */
  lemma AddEffect(s: State)
    requires WellFormed(s)
    ensures var ok := InBounds(s.pc + 1, RamSize) && InBounds(s.pc + 2, RamSize)
                      && InBounds(RamAt(s, s.pc + 1), RegCount) && InBounds(RamAt(s, s.pc + 2), RegCount);
            if !ok then Add(s) == Fail(s)
            else
              var t := Add(s).state;
              var a := RamAt(s, s.pc + 1);
              var b := RamAt(s, s.pc + 2);
              Add(s).raised == None && t.reg[Resolve(a, RegCount)] == RegAt(s, a) + RegAt(s, b)
              && (forall k :: 0 <= k < RegCount && k != Resolve(a, RegCount) ==> t.reg[k] == s.reg[k])
              && t.ram == s.ram && t.pc == s.pc + 3 && t.running == s.running && t.out == s.out
  {
  }

  /** MUL: the same as ADD with the product. */
  lemma MulEffect(s: State)
    requires WellFormed(s)
    ensures var ok := InBounds(s.pc + 1, RamSize) && InBounds(s.pc + 2, RamSize)
                      && InBounds(RamAt(s, s.pc + 1), RegCount) && InBounds(RamAt(s, s.pc + 2), RegCount);
            if !ok then Mul(s) == Fail(s)
            else
              var t := Mul(s).state;
              var a := RamAt(s, s.pc + 1);
              var b := RamAt(s, s.pc + 2);
              Mul(s).raised == None && t.reg[Resolve(a, RegCount)] == RegAt(s, a) * RegAt(s, b)
              && (forall k :: 0 <= k < RegCount && k != Resolve(a, RegCount) ==> t.reg[k] == s.reg[k])
              && t.ram == s.ram && t.pc == s.pc + 3 && t.running == s.running && t.out == s.out
  {
  }

  /** With both operands naming the same register, ADD doubles it and MUL squares it. */
  lemma SameRegisterOperands(s: State, x: int)
    requires WellFormed(s)
    requires InBounds(s.pc + 2, RamSize) && InBounds(s.pc + 1, RamSize)
    requires RamAt(s, s.pc + 1) == RamAt(s, s.pc + 2) && InBounds(RamAt(s, s.pc + 1), RegCount)
    requires RegAt(s, RamAt(s, s.pc + 1)) == x
    ensures RegAt(Add(s).state, RamAt(s, s.pc + 1)) == 2 * x
    ensures RegAt(Mul(s).state, RamAt(s, s.pc + 1)) == x * x
  {
  }

  /** Nothing masks to 8 bits: 200 + 100 leaves 300 in the register. */
  lemma AddDoesNotWrap(s: State)
    requires WellFormed(s) && 0 <= s.pc < 254
    requires s.ram[s.pc + 1] == 0 && s.ram[s.pc + 2] == 1 && s.reg[0] == 200 && s.reg[1] == 100
    ensures Add(s).raised == None && Add(s).state.reg[0] == 300
  {
  }

  // ---------------------------------------------------------- PUSH and POP

  /** PUSH stores register ram[pc+1] at the cell register 7 designates, then
      decrements register 7 and advances pc by 2; nothing else changes. */
  lemma PushEffect(s: State)
    requires WellFormed(s)
    ensures var ok := InBounds(s.pc + 1, RamSize) && InBounds(RamAt(s, s.pc + 1), RegCount)
                      && InBounds(s.reg[Sp], RamSize);
            if !ok then Push(s) == Fail(s)
            else
              var t := Push(s).state;
              var slot := Resolve(s.reg[Sp], RamSize);
              Push(s).raised == None && t.ram[slot] == RegAt(s, RamAt(s, s.pc + 1))
              && (forall i :: 0 <= i < RamSize && i != slot ==> t.ram[i] == s.ram[i])
              && t.reg == s.reg[Sp := s.reg[Sp] - 1]
              && t.pc == s.pc + 2 && t.running == s.running && t.out == s.out
  {
  }

  /** POP loads the cell register 7 designates into register ram[pc+1], then
      increments register 7 and advances pc by 2; RAM is unchanged. */
  lemma PopEffect(s: State)
    requires WellFormed(s)
    ensures var ok := InBounds(s.reg[Sp], RamSize) && InBounds(s.pc + 1, RamSize)
                      && InBounds(RamAt(s, s.pc + 1), RegCount);
            if !ok then Pop(s) == Fail(s)
            else
              var t := Pop(s).state;
              var r := Resolve(RamAt(s, s.pc + 1), RegCount);
              var popped := RamAt(s, s.reg[Sp]);
              Pop(s).raised == None
              && (r != Sp ==> t.reg[r] == popped && t.reg[Sp] == s.reg[Sp] + 1)
              && (forall k :: 0 <= k < RegCount && k != r && k != Sp ==> t.reg[k] == s.reg[k])
              && t.ram == s.ram && t.pc == s.pc + 2 && t.running == s.running && t.out == s.out
  {
  }

  /** POP into register 7 (operand 7 or -1) overwrites it and then increments
      it, leaving the popped value plus one. */
  lemma PopIntoStackPointer(s: State)
    requires WellFormed(s)
    requires InBounds(s.reg[Sp], RamSize) && InBounds(s.pc + 1, RamSize)
    requires InBounds(RamAt(s, s.pc + 1), RegCount) && Resolve(RamAt(s, s.pc + 1), RegCount) == Sp
    ensures Pop(s).raised == None && Pop(s).state.reg[Sp] == RamAt(s, s.reg[Sp]) + 1
  {
  }

  /** PUSH then POP into a register other than 7 (the PUSH not landing on the
      POP's operand) restores register 7, but the popped value is the cell
      BELOW the pushed one (untouched by the PUSH), not the pushed value. */
  lemma PushThenPop(s: State)
    requires WellFormed(s)
    requires InBounds(s.pc + 1, RamSize) && InBounds(RamAt(s, s.pc + 1), RegCount)
    requires InBounds(s.reg[Sp], RamSize) && InBounds(s.reg[Sp] - 1, RamSize)
    requires InBounds(s.pc + 3, RamSize) && InBounds(RamAt(s, s.pc + 3), RegCount)
    requires Resolve(RamAt(s, s.pc + 3), RegCount) != Sp
    requires Resolve(s.reg[Sp], RamSize) != Resolve(s.pc + 3, RamSize)
    ensures Push(s).raised == None && Pop(Push(s).state).raised == None
    ensures var t := Pop(Push(s).state).state;
            t.reg[Sp] == s.reg[Sp] && t.pc == s.pc + 4
            && RegAt(t, RamAt(s, s.pc + 3)) == RamAt(s, s.reg[Sp] - 1)
            && RamAt(t, s.reg[Sp]) == RegAt(s, RamAt(s, s.pc + 1))
  {
  }

  /** From a fresh stack pointer (register 7 = 0) the first PUSH writes
      address 0 and the second wraps to address 255 (Python's ram[-1]). */
  lemma TwoPushesFromZero(s: State)
    requires WellFormed(s) && s.reg[Sp] == 0 && 0 <= s.pc && s.pc + 3 < RamSize
    requires s.ram[s.pc + 1] == 0 && s.ram[s.pc + 3] == 1
    ensures Push(s).raised == None && Push(Push(s).state).raised == None
    ensures var t := Push(Push(s).state).state;
            t.ram[0] == s.reg[0] && t.ram[RamSize - 1] == s.reg[1] && t.reg[Sp] == -2
  {
  }

  // ---------------------------------------------------------- CALL and RET

  /** CALL decrements register 6, stores pc+2 at the cell it then designates,
      and jumps to the value of register ram[pc+1], read AFTER that store;
      pc gets no extra advance, and no register other than 6 changes. */
  lemma CallEffect(s: State)
    requires WellFormed(s)
    ensures Call(s).state.reg == s.reg[CallReg := s.reg[CallReg] - 1]
    ensures var slot := s.reg[CallReg] - 1;
            if !InBounds(slot, RamSize) then Call(s).raised == Some(IndexError) && Call(s).state.ram == s.ram
                 && Call(s).state.pc == s.pc
            else
              var t := Call(s).state;
              t.ram == s.ram[Resolve(slot, RamSize) := s.pc + 2]
              && (if !InBounds(s.pc + 1, RamSize) || !InBounds(RamAt(t, s.pc + 1), RegCount)
                  then Call(s).raised == Some(IndexError) && t.pc == s.pc
                  else Call(s).raised == None && t.pc == RegAt(t, RamAt(t, s.pc + 1)))
  {
  }

  /** When register 6 points just above CALL's own operand, the store
      overwrites the operand, so the jump goes through register pc+2. */
  lemma CallReadsOperandAfterStore(s: State)
    requires WellFormed(s)
    requires InBounds(s.reg[CallReg] - 1, RamSize) && InBounds(s.pc + 1, RamSize)
    requires Resolve(s.reg[CallReg] - 1, RamSize) == Resolve(s.pc + 1, RamSize)
    ensures Call(s).raised == None <==> InBounds(s.pc + 2, RegCount)
    ensures Call(s).raised == None ==>
              Call(s).state.pc == (if Resolve(s.pc + 2, RegCount) == CallReg
                                   then s.reg[CallReg] - 1 else RegAt(s, s.pc + 2))
  {
  }

  /** From a fresh CPU (register 6 = 0), CALL's first store goes to address 255. */
  lemma CallFromFreshStoresAtTop(s: State)
    requires WellFormed(s) && s.reg[CallReg] == 0
    ensures Call(s).state.ram[RamSize - 1] == s.pc + 2 && Call(s).state.reg[CallReg] == -1
  {
  }

  /** RET sets pc to the value of register 7 itself, reading no RAM and
      ignoring register 6, then increments register 7. */
  lemma RetEffect(s: State)
    requires WellFormed(s)
    ensures Ret(s).raised == None
    ensures Ret(s).state.pc == s.reg[Sp] && Ret(s).state.reg[Sp] == s.reg[Sp] + 1
    ensures forall k :: 0 <= k < RegCount && k != Sp ==> Ret(s).state.reg[k] == s.reg[k]
    ensures Ret(s).state.ram == s.ram && Ret(s).state.running == s.running && Ret(s).state.out == s.out
  {
  }

  /** Where RET lands depends on register 7 alone: any other RAM contents and
      any value of register 6 give the same pc. */
  lemma RetIgnoresRamAndRegisterSix(s: State, ram: seq<int>, r6: int)
    requires WellFormed(s) && |ram| == RamSize
    ensures Ret(s.(ram := ram, reg := s.reg[CallReg := r6])).state.pc == s.reg[Sp]
  {
  }

  /** CALL followed by RET does not come back after the CALL: RET lands on
      the value of register 7, which CALL does not touch. */
  lemma CallThenRet(s: State)
    requires WellFormed(s) && Call(s).raised == None
    ensures var t := Ret(Call(s).state).state;
            t.pc == s.reg[Sp] && t.reg[Sp] == s.reg[Sp] + 1 && t.reg[CallReg] == s.reg[CallReg] - 1
  {
  }

  // ------------------------------------------------------------- dispatch

  /** An iteration stops with BadOpcode(b) exactly when pc is a valid index
      and the byte there, b, is none of the nine opcodes; nothing changes. */
  lemma StepBadOpcode(s: State)
    requires WellFormed(s)
    ensures Step(s).status.BadOpcode? <==> InBounds(s.pc, RamSize) && !IsOpcode(RamAt(s, s.pc))
    ensures Step(s).status.BadOpcode? ==>
              Step(s) == Transition(s, BadOpcode(RamAt(s, s.pc)))
  {
  }

  /** On a running CPU, an iteration halts exactly when the byte at pc is HLT. */
  lemma StepHalts(s: State)
    requires WellFormed(s) && s.running
    ensures Step(s).status == Halted <==> InBounds(s.pc, RamSize) && RamAt(s, s.pc) == OpHlt
  {
  }

  // ---------------------------------------------------------------- runs

  /** Once a loop has ended for a reason other than fuel, more fuel does not
      change the result. */
  lemma {:induction false} LoopMoreFuel(body: State --> Transition, s: State, fuel: nat, more: nat)
    requires IsBody(body) && WellFormed(s) && fuel <= more
    requires Loop(body, s, fuel).status != OutOfFuel
    ensures Loop(body, s, more) == Loop(body, s, fuel)
    decreases fuel
  {
    if s.running && fuel > 0 {
      var t := body(s);
      if t.status.Continue? {
        LoopMoreFuel(body, t.state, fuel - 1, more - 1);
      }
    }
  }

  /** A loop of a + b iterations is a loop of a iterations continued for b more. */
  lemma {:induction false} LoopSplit(body: State --> Transition, s: State, a: nat, b: nat)
    requires IsBody(body) && WellFormed(s)
    ensures Loop(body, s, a + b) ==
            if Loop(body, s, a).status == OutOfFuel then Loop(body, Loop(body, s, a).state, b)
            else Loop(body, s, a)
    decreases a
  {
    if s.running && a > 0 {
      var t := body(s);
      assert Loop(body, s, a) == if t.status.Continue? then Loop(body, t.state, a - 1) else t;
      assert Loop(body, s, a + b) == if t.status.Continue? then Loop(body, t.state, (a - 1) + b) else t;
      if t.status.Continue? {
        LoopSplit(body, t.state, a - 1, b);
      }
    }
  }

  /** Once a run has ended for a reason other than fuel, more fuel does not
      change the result. */
  lemma RunMoreFuel(s: State, fuel: nat, more: nat)
    requires WellFormed(s) && fuel <= more && Run(s, fuel).status != OutOfFuel
    ensures Run(s, more) == Run(s, fuel)
  {
    StepIsBody();
    LoopMoreFuel(Step, s, fuel, more);
  }

  /** Running for a + b iterations is running for a, then for b more. */
  lemma RunSplit(s: State, a: nat, b: nat)
    requires WellFormed(s)
    ensures Run(s, a + b) == if Run(s, a).status == OutOfFuel then Run(Run(s, a).state, b) else Run(s, a)
  {
    StepIsBody();
    LoopSplit(Step, s, a, b);
  }

  /** A run only ever appends to the output. */
  lemma {:induction false} RunOnlyAppends(s: State, fuel: nat)
    requires WellFormed(s)
    ensures s.out <= Run(s, fuel).state.out
    decreases fuel
  {
    StepIsBody();
    if s.running && fuel > 0 {
      var t := Step(s);
      if t.status.Continue? {
        RunOnlyAppends(t.state, fuel - 1);
      }
    }
  }

  /** A run that starts on a running CPU reports Halted exactly when it has
      cleared `running`: only HLT stops the loop through its guard. */
  lemma {:induction false} RunHaltedIffStopped(s: State, fuel: nat)
    requires WellFormed(s) && s.running
    ensures Run(s, fuel).status == Halted <==> !Run(s, fuel).state.running
    decreases fuel
  {
    StepIsBody();
    if fuel > 0 {
      var t := Step(s);
      if t.status.Continue? {
        RunHaltedIffStopped(t.state, fuel - 1);
      }
    }
  }

  /** A running CPU whose pc holds HLT halts at once, with pc advanced by 1. */
  lemma HaltStopsRun(s: State, fuel: nat)
    requires WellFormed(s) && s.running && fuel >= 1
    requires InBounds(s.pc, RamSize) && RamAt(s, s.pc) == OpHlt
    ensures Run(s, fuel) == Transition(s.(running := false, pc := s.pc + 1), Halted)
  {
  }

  /** A running CPU whose pc holds an unknown byte stops at once, reporting it. */
  lemma BadOpcodeStopsRun(s: State, fuel: nat)
    requires WellFormed(s) && s.running && fuel >= 1
    requires InBounds(s.pc, RamSize) && !IsOpcode(RamAt(s, s.pc))
    ensures Run(s, fuel) == Transition(s, BadOpcode(RamAt(s, s.pc)))
  {
  }

  /** LDI R0,8; PRN R0; HLT prints exactly 8 and halts with pc = 6. */
  lemma {:induction false} LoadPrintHalt(fuel: nat)
    requires fuel >= 3
    ensures var t := Run(Boot([OpLdi, 0, 8, OpPrn, 0, OpHlt]), fuel);
            t.status == Halted && t.state.out == [8] && t.state.pc == 6 && t.state.reg[0] == 8
  {
    var s0 := Boot([OpLdi, 0, 8, OpPrn, 0, OpHlt]);
    assert s0.ram[..6] == [OpLdi, 0, 8, OpPrn, 0, OpHlt];
    assert s0.ram[0] == OpLdi && s0.ram[1] == 0 && s0.ram[2] == 8;
    assert s0.ram[3] == OpPrn && s0.ram[4] == 0 && s0.ram[5] == OpHlt;
    var s1 := Step(s0).state;
    assert s1.reg[0] == 8 && s1.pc == 3 && s1.running && s1.ram == s0.ram;
    var s2 := Step(s1).state;
    assert s2.out == [8] && s2.pc == 5 && s2.running && s2.ram == s0.ram && s2.reg[0] == 8;
    assert Run(s0, 3) == Transition(s2.(running := false, pc := 6), Halted);
    RunMoreFuel(s0, 3, fuel);
  }
}
