/** Reference semantics of the LS-8 CPU as values: what each handler of
    ls8/cpu.py does to the machine state, one fetch-decode-execute iteration,
    and a fuel-bounded run of the loop. The class in cpu.dfy is proved to
    behave exactly like these functions. */
module Ls8Semantics {
  import opened Python

  const RamSize: nat := 256
  const RegCount: nat := 8
  /** `self.sp`: the INDEX of the stack-pointer register, not an address. */
  const Sp: nat := 7
  /** The register that CALL pre-decrements and stores through. */
  const CallReg: nat := 6

  const OpLdi: int := 130   // 0b10000010
  const OpPrn: int := 71    // 0b01000111
  const OpHlt: int := 1     // 0b00000001
  const OpPush: int := 69   // 0b01000101
  const OpPop: int := 70    // 0b01000110
  const OpMul: int := 162   // 0b10100010
  const OpAdd: int := 160   // 0b10100000
  const OpCall: int := 80   // 0b01010000
  const OpRet: int := 17    // 0b00010001

  predicate IsOpcode(b: int) {
    b in {OpLdi, OpPrn, OpHlt, OpPush, OpPop, OpMul, OpAdd, OpCall, OpRet}
  }

  /** The CPU's fields. RAM cells and registers hold unbounded Python ints;
      `out` is what PRN has printed so far, one value per line. */
  datatype State = State(ram: seq<int>, reg: seq<int>, pc: int, running: bool, out: seq<int>)

  predicate WellFormed(s: State) {
    |s.ram| == RamSize && |s.reg| == RegCount
  }

  /** The state a handler leaves behind, and the exception it raised, if any.
      A handler that raises may already have changed the state (CALL does). */
  datatype Outcome = Outcome(state: State, raised: Option<Exception>)

  /** How one iteration of the loop, or a whole run, ended. */
  datatype Status =
    | Continue               // the loop goes on
    | Halted                 // `running` is false, so the loop has stopped
    | BadOpcode(opcode: int) // "Bad input" and exit status 1
    | Crashed(exc: Exception) // an uncaught exception ended the program
    | OutOfFuel              // the model's step bound was reached

  datatype Transition = Transition(state: State, status: Status)

  /** A freshly constructed CPU. */
  function Initial(): (s: State)
    ensures WellFormed(s)
    ensures forall i :: 0 <= i < RamSize ==> s.ram[i] == 0
    ensures forall i :: 0 <= i < RegCount ==> s.reg[i] == 0
    ensures s.pc == 0 && s.running && s.out == []
  {
    State(seq(RamSize, _ => 0), seq(RegCount, _ => 0), 0, true, [])
  }

  /** A fresh CPU whose RAM starts with the program image, as the loader
      leaves it: image bytes at addresses 0, 1, ..., the rest still zero. */
  function Boot(image: seq<int>): (s: State)
    requires |image| <= RamSize
    ensures WellFormed(s)
    ensures s.ram[..|image|] == image
    ensures forall i :: |image| <= i < RamSize ==> s.ram[i] == 0
    ensures s.reg == Initial().reg && s.pc == 0 && s.running && s.out == []
  {
    Initial().(ram := image + Initial().ram[|image|..])
  }

  function RamAt(s: State, address: int): int
    requires WellFormed(s) && InBounds(address, RamSize)
  {
    s.ram[Resolve(address, RamSize)]
  }

  function RegAt(s: State, index: int): int
    requires WellFormed(s) && InBounds(index, RegCount)
  {
    s.reg[Resolve(index, RegCount)]
  }

  function SetRam(s: State, address: int, value: int): (t: State)
    requires WellFormed(s) && InBounds(address, RamSize)
    ensures WellFormed(t)
  {
    s.(ram := s.ram[Resolve(address, RamSize) := value])
  }

  function SetReg(s: State, index: int, value: int): (t: State)
    requires WellFormed(s) && InBounds(index, RegCount)
    ensures WellFormed(t)
  {
    s.(reg := s.reg[Resolve(index, RegCount) := value])
  }

  function Done(s: State): Outcome {
    Outcome(s, None)
  }

  function Fail(s: State): Outcome {
    Outcome(s, Some(IndexError))
  }

  /** `ram_read`. */
  function ReadRam(s: State, address: int): (r: Result<int>)
    requires WellFormed(s)
    ensures r.Ok? <==> InBounds(address, RamSize)
    ensures r.Ok? ==> r.value == s.ram[Resolve(address, RamSize)]
    ensures r.Raise? ==> r.exc == IndexError
  {
    if InBounds(address, RamSize) then Ok(RamAt(s, address)) else Raise(IndexError)
  }

  /** `ram_write`. */
  function WriteRam(s: State, address: int, value: int): (o: Outcome)
    requires WellFormed(s)
    ensures WellFormed(o.state)
    ensures o.raised == None <==> InBounds(address, RamSize)
    ensures InBounds(address, RamSize) ==> ReadRam(o.state, address) == Ok(value)
    ensures !InBounds(address, RamSize) ==> o.state == s
  {
    if InBounds(address, RamSize) then Done(SetRam(s, address, value)) else Fail(s)
  }

  /** `alu`: the tag is compared first; only then are the registers read. */
  function Alu(s: State, op: string, regA: int, regB: int): (o: Outcome)
    requires WellFormed(s)
    ensures WellFormed(o.state) && o.state.out == s.out && o.state.running == s.running
    ensures o.state.ram == s.ram && o.state.pc == s.pc
    ensures o.raised.Some? ==> o.state == s
  {
    if op == "ADD" || op == "MUL" then
      if !InBounds(regA, RegCount) || !InBounds(regB, RegCount) then Fail(s)
      else
        var a := RegAt(s, regA);
        var b := RegAt(s, regB);
        Done(SetReg(s, regA, if op == "ADD" then a + b else a * b))
    else
      Outcome(s, Some(PlainException("Unsupported ALU operation")))
  }

  /** `LDI`: register[ram[pc+1]] := ram[pc+2]. */
  function Ldi(s: State): (o: Outcome)
    requires WellFormed(s)
    ensures WellFormed(o.state) && o.state.out == s.out && o.state.running == s.running
  {
    if !InBounds(s.pc + 1, RamSize) || !InBounds(s.pc + 2, RamSize) then Fail(s)
    else
      var address := RamAt(s, s.pc + 1);
      var value := RamAt(s, s.pc + 2);
      if !InBounds(address, RegCount) then Fail(s)
      else Done(SetReg(s, address, value).(pc := s.pc + 3))
  }

  /** `PRN`: prints register[ram[pc+1]]. */
  function Prn(s: State): (o: Outcome)
    requires WellFormed(s)
    ensures WellFormed(o.state) && s.out <= o.state.out && o.state.running == s.running
  {
    if !InBounds(s.pc + 1, RamSize) then Fail(s)
    else
      var register := RamAt(s, s.pc + 1);
      if !InBounds(register, RegCount) then Fail(s)
      else Done(s.(out := s.out + [RegAt(s, register)], pc := s.pc + 2))
  }

  /** `PUSH`: stores at the cell register 7 designates, then decrements register 7. */
  function Push(s: State): (o: Outcome)
    requires WellFormed(s)
    ensures WellFormed(o.state) && o.state.out == s.out && o.state.running == s.running
  {
    if !InBounds(s.pc + 1, RamSize) then Fail(s)
    else
      var register := RamAt(s, s.pc + 1);
      if !InBounds(register, RegCount) then Fail(s)
      else
        var value := RegAt(s, register);
        var address := s.reg[Sp];
        if !InBounds(address, RamSize) then Fail(s)
        else
          var s1 := SetRam(s, address, value);
          Done(s1.(reg := s1.reg[Sp := s1.reg[Sp] - 1], pc := s1.pc + 2))
  }

  /** `POP`: loads the cell register 7 designates, then increments register 7
      (after the load has been stored, so a POP into register 7 sees its own value). */
  function Pop(s: State): (o: Outcome)
    requires WellFormed(s)
    ensures WellFormed(o.state) && o.state.out == s.out && o.state.running == s.running
  {
    if !InBounds(s.reg[Sp], RamSize) then Fail(s)
    else
      var value := RamAt(s, s.reg[Sp]);
      if !InBounds(s.pc + 1, RamSize) then Fail(s)
      else
        var register := RamAt(s, s.pc + 1);
        if !InBounds(register, RegCount) then Fail(s)
        else
          var s1 := SetReg(s, register, value);
          Done(s1.(reg := s1.reg[Sp := s1.reg[Sp] + 1], pc := s1.pc + 2))
  }

  /** `CALL`: decrements register 6, stores pc+2 at the cell it designates, and
      only then reads the operand and jumps to that register's value. An
      IndexError part-way leaves the effects made before it. */
  function Call(s: State): (o: Outcome)
    requires WellFormed(s)
    ensures WellFormed(o.state) && o.state.out == s.out && o.state.running == s.running
  {
    var returnAddress := s.pc + 2;
    var s1 := s.(reg := s.reg[CallReg := s.reg[CallReg] - 1]);
    var slot := s1.reg[CallReg];
    if !InBounds(slot, RamSize) then Fail(s1)
    else
      var s2 := SetRam(s1, slot, returnAddress);
      if !InBounds(s2.pc + 1, RamSize) then Fail(s2)
      else
        var target := RamAt(s2, s2.pc + 1);
        if !InBounds(target, RegCount) then Fail(s2)
        else Done(s2.(pc := RegAt(s2, target)))
  }

  /** `RET`: jumps to the value of register 7 itself, then increments it. */
  function Ret(s: State): (o: Outcome)
    requires WellFormed(s)
    ensures WellFormed(o.state) && o.state.out == s.out && o.state.running == s.running
  {
    Done(s.(pc := s.reg[Sp], reg := s.reg[Sp := s.reg[Sp] + 1]))
  }

  /** `ADD` and `MUL`: read both operands, apply the ALU, then advance pc by 3. */
  function Arith(s: State, op: string): (o: Outcome)
    requires WellFormed(s)
    ensures WellFormed(o.state) && o.state.out == s.out && o.state.running == s.running
    ensures o.state.ram == s.ram
    ensures o.raised.Some? ==> o.state == s
    ensures o.raised == None ==> o.state.pc == s.pc + 3
  {
    if !InBounds(s.pc + 1, RamSize) || !InBounds(s.pc + 2, RamSize) then Fail(s)
    else
      var o := Alu(s, op, RamAt(s, s.pc + 1), RamAt(s, s.pc + 2));
      if o.raised.Some? then o else Done(o.state.(pc := o.state.pc + 3))
  }

  function Add(s: State): (o: Outcome)
    requires WellFormed(s)
    ensures WellFormed(o.state) && o.state.out == s.out && o.state.running == s.running
  {
    Arith(s, "ADD")
  }

  function Mul(s: State): (o: Outcome)
    requires WellFormed(s)
    ensures WellFormed(o.state) && o.state.out == s.out && o.state.running == s.running
  {
    Arith(s, "MUL")
  }

  /** `HLT`. */
  function Hlt(s: State): (o: Outcome)
    requires WellFormed(s)
    ensures WellFormed(o.state) && o.state.out == s.out && !o.state.running
  {
    Done(s.(running := false, pc := s.pc + 1))
  }

  /** What the loop makes of a handler's outcome: an exception ends the
      program; otherwise the loop guard `running` decides. */
  function Finish(o: Outcome): Transition {
    match o.raised
    case Some(e) => Transition(o.state, Crashed(e))
    case None => Transition(o.state, if o.state.running then Continue else Halted)
  }

  /** One iteration of the body of `run`: fetch `ram[pc]`, dispatch on exact
      equality, or stop on an unknown byte. */
  function Step(s: State): (t: Transition)
    requires WellFormed(s)
    ensures WellFormed(t.state) && s.out <= t.state.out
    ensures s.running ==> (t.status.Halted? <==> !t.state.running)
    ensures !t.status.OutOfFuel?
  {
    if !InBounds(s.pc, RamSize) then Transition(s, Crashed(IndexError))
    else
      var instruction := RamAt(s, s.pc);
      if instruction == OpLdi then Finish(Ldi(s))
      else if instruction == OpPrn then Finish(Prn(s))
      else if instruction == OpHlt then Finish(Hlt(s))
      else if instruction == OpPush then Finish(Push(s))
      else if instruction == OpPop then Finish(Pop(s))
      else if instruction == OpMul then Finish(Mul(s))
      else if instruction == OpAdd then Finish(Add(s))
      else if instruction == OpCall then Finish(Call(s))
      else if instruction == OpRet then Finish(Ret(s))
      else Transition(s, BadOpcode(instruction))
  }

  /** What the body of `while self.running` may be: defined on every well-formed
      state, leaving a well-formed state, and never claiming to be out of fuel. */
  ghost predicate IsBody(body: State --> Transition) {
    forall s :: WellFormed(s) ==>
      body.requires(s) && WellFormed(body(s).state) && !body(s).status.OutOfFuel?
  }

  /** `while self.running: body`, for at most `fuel` iterations; the loop
      also stops as soon as the body reports anything but Continue. */
  function Loop(body: State --> Transition, s: State, fuel: nat): (t: Transition)
    requires IsBody(body) && WellFormed(s)
    ensures WellFormed(t.state)
    ensures !t.status.Continue?
    decreases fuel
  {
    if !s.running then Transition(s, Halted)
    else if fuel == 0 then Transition(s, OutOfFuel)
    else
      var t := body(s);
      if t.status.Continue? then Loop(body, t.state, fuel - 1) else t
  }

  lemma StepIsBody()
    ensures IsBody(Step)
  {
  }

  /** `run`, bounded to `fuel` iterations of its loop. */
  function Run(s: State, fuel: nat): (t: Transition)
    requires WellFormed(s)
    ensures WellFormed(t.state)
    ensures !t.status.Continue?
  {
    StepIsBody();
    Loop(Step, s, fuel)
  }
}
