/** The LS-8 CPU of ls8/cpu.py as a class whose methods update its fields in
    place, statement by statement as the source does. Every method is proved
    to leave exactly the state, and to raise exactly the exception, that the
    reference semantics in Ls8Semantics prescribes. */
module Ls8Cpu {
  import opened Python
  import Sem = Ls8Semantics

  class CPU {
    const ram: array<int>
    const reg: array<int>
    var pc: int
    /** Index of the stack-pointer register; never reassigned. */
    const sp: nat
    var running: bool
    /** What PRN has printed, one value per line. */
    var output: seq<int>

    ghost predicate Valid()
      reads this
    {
      ram.Length == Sem.RamSize && reg.Length == Sem.RegCount && ram != reg && sp == Sem.Sp
    }

    /** The fields as a value of the reference semantics. */
    ghost function Snapshot(): Sem.State
      reads this, ram, reg
    {
      Sem.State(ram[..], reg[..], pc, running, output)
    }

    /** `__init__`. */
    constructor ()
      ensures Valid() && fresh(ram) && fresh(reg)
      ensures Snapshot() == Sem.Initial()
      ensures sp == 7 && reg[sp] == 0
    {
      ram := new int[Sem.RamSize](_ => 0);
      reg := new int[Sem.RegCount](_ => 0);
      pc := 0;
      sp := Sem.Sp;
      running := true;
      output := [];
    }

    /** `ram_read`: the cell Python's `self.ram[address]` designates. */
    method RamRead(address: int) returns (r: Result<int>)
      requires Valid()
      ensures r.Ok? <==> InBounds(address, Sem.RamSize)
      ensures r.Ok? ==> r.value == ram[Resolve(address, Sem.RamSize)]
      ensures r.Raise? ==> r.exc == IndexError
      ensures r == Sem.ReadRam(Snapshot(), address)
    {
      if !InBounds(address, Sem.RamSize) {
        return Raise(IndexError);
      }
      r := Ok(ram[Resolve(address, Sem.RamSize)]);
    }

    /** `ram_write`. */
    method RamWrite(address: int, value: int) returns (raised: Option<Exception>)
      requires Valid()
      modifies ram
      ensures Valid()
      ensures Sem.Outcome(Snapshot(), raised) == Sem.WriteRam(old(Snapshot()), address, value)
    {
      if !InBounds(address, Sem.RamSize) {
        return Some(IndexError);
      }
      ram[Resolve(address, Sem.RamSize)] := value;
      return None;
    }

    /** The storing half of `load`: byte k of the image goes to address k. */
    method LoadImage(image: seq<int>)
      requires Valid() && |image| <= ram.Length
      modifies ram
      ensures Valid()
      ensures forall i :: 0 <= i < |image| ==> ram[i] == image[i]
      ensures forall i :: |image| <= i < ram.Length ==> ram[i] == old(ram[i])
    {
      var address := 0;
      while address < |image|
        invariant 0 <= address <= |image|
        invariant forall i :: 0 <= i < address ==> ram[i] == image[i]
        invariant forall i :: address <= i < ram.Length ==> ram[i] == old(ram[i])
      {
        ram[address] := image[address];
        address := address + 1;
      }
    }

    /** `alu`. */
    method Alu(op: string, regA: int, regB: int) returns (raised: Option<Exception>)
      requires Valid()
      modifies reg
      ensures Valid()
      ensures Sem.Outcome(Snapshot(), raised) == Sem.Alu(old(Snapshot()), op, regA, regB)
    {
      if op == "ADD" {
        if !InBounds(regA, Sem.RegCount) || !InBounds(regB, Sem.RegCount) {
          return Some(IndexError);
        }
        reg[Resolve(regA, Sem.RegCount)] := reg[Resolve(regA, Sem.RegCount)] + reg[Resolve(regB, Sem.RegCount)];
      } else if op == "MUL" {
        if !InBounds(regA, Sem.RegCount) || !InBounds(regB, Sem.RegCount) {
          return Some(IndexError);
        }
        reg[Resolve(regA, Sem.RegCount)] := reg[Resolve(regA, Sem.RegCount)] * reg[Resolve(regB, Sem.RegCount)];
      } else {
        return Some(PlainException("Unsupported ALU operation"));
      }
      return None;
    }

    /** `LDI`. */
    method Ldi() returns (raised: Option<Exception>)
      requires Valid()
      modifies this, reg
      ensures Valid()
      ensures Sem.Outcome(Snapshot(), raised) == Sem.Ldi(old(Snapshot()))
    {
      var address := RamRead(pc + 1);
      if address.Raise? { return Some(address.exc); }
      var value := RamRead(pc + 2);
      if value.Raise? { return Some(value.exc); }
      if !InBounds(address.value, Sem.RegCount) { return Some(IndexError); }
      reg[Resolve(address.value, Sem.RegCount)] := value.value;
      pc := pc + 3;
      return None;
    }

    /** `PRN`: the print becomes an append to `output`. */
    method Prn() returns (raised: Option<Exception>)
      requires Valid()
      modifies this
      ensures Valid()
      ensures Sem.Outcome(Snapshot(), raised) == Sem.Prn(old(Snapshot()))
    {
      var register := RamRead(pc + 1);
      if register.Raise? { return Some(register.exc); }
      if !InBounds(register.value, Sem.RegCount) { return Some(IndexError); }
      var value := reg[Resolve(register.value, Sem.RegCount)];
      output := output + [value];
      pc := pc + 2;
      return None;
    }

    /** `PUSH`. */
    method Push() returns (raised: Option<Exception>)
      requires Valid()
      modifies this, ram, reg
      ensures Valid()
      ensures Sem.Outcome(Snapshot(), raised) == Sem.Push(old(Snapshot()))
    {
      var register := RamRead(pc + 1);
      if register.Raise? { return Some(register.exc); }
      if !InBounds(register.value, Sem.RegCount) { return Some(IndexError); }
      var value := reg[Resolve(register.value, Sem.RegCount)];
      var address := reg[sp];
      raised := RamWrite(address, value);
      if raised.Some? { return; }
      reg[sp] := reg[sp] - 1;
      pc := pc + 2;
    }

    /** `POP`. */
    method Pop() returns (raised: Option<Exception>)
      requires Valid()
      modifies this, reg
      ensures Valid()
      ensures Sem.Outcome(Snapshot(), raised) == Sem.Pop(old(Snapshot()))
    {
      var value := RamRead(reg[sp]);
      if value.Raise? { return Some(value.exc); }
      var register := RamRead(pc + 1);
      if register.Raise? { return Some(register.exc); }
      if !InBounds(register.value, Sem.RegCount) { return Some(IndexError); }
      reg[Resolve(register.value, Sem.RegCount)] := value.value;
      reg[sp] := reg[sp] + 1;
      pc := pc + 2;
      return None;
    }

    /** `CALL`: register 6 and RAM are changed before the operand is read. */
    method Call() returns (raised: Option<Exception>)
      requires Valid()
      modifies this, ram, reg
      ensures Valid()
      ensures Sem.Outcome(Snapshot(), raised) == Sem.Call(old(Snapshot()))
    {
      var returnAddress := pc + 2;
      reg[Sem.CallReg] := reg[Sem.CallReg] - 1;
      if !InBounds(reg[Sem.CallReg], Sem.RamSize) { return Some(IndexError); }
      ram[Resolve(reg[Sem.CallReg], Sem.RamSize)] := returnAddress;
      var target := RamRead(pc + 1);
      if target.Raise? { return Some(target.exc); }
      if !InBounds(target.value, Sem.RegCount) { return Some(IndexError); }
      pc := reg[Resolve(target.value, Sem.RegCount)];
      return None;
    }

    /** `RET`. */
    method Ret() returns (raised: Option<Exception>)
      requires Valid()
      modifies this, reg
      ensures Valid()
      ensures Sem.Outcome(Snapshot(), raised) == Sem.Ret(old(Snapshot()))
    {
      pc := reg[sp];
      reg[sp] := reg[sp] + 1;
      return None;
    }

    /** `ADD`. */
    method Add() returns (raised: Option<Exception>)
      requires Valid()
      modifies this, reg
      ensures Valid()
      ensures Sem.Outcome(Snapshot(), raised) == Sem.Add(old(Snapshot()))
    {
      var opA := RamRead(pc + 1);
      if opA.Raise? { return Some(opA.exc); }
      var opB := RamRead(pc + 2);
      if opB.Raise? { return Some(opB.exc); }
      raised := Alu("ADD", opA.value, opB.value);
      if raised.Some? { return; }
      pc := pc + 3;
    }

    /** `MUL`. */
    method Mul() returns (raised: Option<Exception>)
      requires Valid()
      modifies this, reg
      ensures Valid()
      ensures Sem.Outcome(Snapshot(), raised) == Sem.Mul(old(Snapshot()))
    {
      var opA := RamRead(pc + 1);
      if opA.Raise? { return Some(opA.exc); }
      var opB := RamRead(pc + 2);
      if opB.Raise? { return Some(opB.exc); }
      raised := Alu("MUL", opA.value, opB.value);
      if raised.Some? { return; }
      pc := pc + 3;
    }

    /** `HLT`. */
    method Hlt() returns (raised: Option<Exception>)
      requires Valid()
      modifies this
      ensures Valid()
      ensures Sem.Outcome(Snapshot(), raised) == Sem.Hlt(old(Snapshot()))
    {
      running := false;
      pc := pc + 1;
      return None;
    }

    /** One iteration of the body of `run`'s loop. */
    method Step() returns (status: Sem.Status)
      requires Valid()
      modifies this, ram, reg
      ensures Valid()
      ensures Sem.Transition(Snapshot(), status) == Sem.Step(old(Snapshot()))
    {
      if !InBounds(pc, Sem.RamSize) {
        return Sem.Crashed(IndexError);
      }
      var instruction := ram[Resolve(pc, Sem.RamSize)];
      var raised: Option<Exception>;
      if instruction == Sem.OpLdi {
        raised := Ldi();
      } else if instruction == Sem.OpPrn {
        raised := Prn();
      } else if instruction == Sem.OpHlt {
        raised := Hlt();
      } else if instruction == Sem.OpPush {
        raised := Push();
      } else if instruction == Sem.OpPop {
        raised := Pop();
      } else if instruction == Sem.OpMul {
        raised := Mul();
      } else if instruction == Sem.OpAdd {
        raised := Add();
      } else if instruction == Sem.OpCall {
        raised := Call();
      } else if instruction == Sem.OpRet {
        raised := Ret();
      } else {
        return Sem.BadOpcode(instruction);
      }
      status := match raised
        case Some(e) => Sem.Crashed(e)
        case None => if running then Sem.Continue else Sem.Halted;
    }

    /** `run`, for at most `fuel` iterations of `while self.running`. */
    method Run(fuel: nat) returns (status: Sem.Status)
      requires Valid()
      modifies this, ram, reg
      ensures Valid()
      ensures Sem.Transition(Snapshot(), status) == Sem.Run(old(Snapshot()), fuel)
    {
      var budget := fuel;
      while running
        invariant Valid()
        invariant Sem.Run(old(Snapshot()), fuel) == Sem.Run(Snapshot(), budget)
        decreases budget
      {
        if budget == 0 {
          return Sem.OutOfFuel;
        }
        status := Step();
        if !status.Continue? {
          return;
        }
        budget := budget - 1;
      }
      status := Sem.Halted;
    }
  }

  /** Construct a CPU, place the program image at addresses 0, 1, ... as the
      loader does, and run it for at most `fuel` iterations. Returns how the
      run ended and everything PRN printed. */
  method Execute(image: seq<int>, fuel: nat) returns (status: Sem.Status, printed: seq<int>)
    requires |image| <= Sem.RamSize
    ensures status == Sem.Run(Sem.Boot(image), fuel).status
    ensures printed == Sem.Run(Sem.Boot(image), fuel).state.out
  {
    var cpu := new CPU();
    cpu.LoadImage(image);
    assert cpu.ram[..] == Sem.Boot(image).ram;
    status := cpu.Run(fuel);
    printed := cpu.output;
  }
}
