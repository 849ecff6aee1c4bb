# LS-8 CPU, modelled and verified in Dafny

This project models the LS-8 virtual CPU of `ls8/cpu.py`: a 256-cell RAM, an
8-slot register file, a program counter and a `running` flag. On top of them
sit the ALU (`alu`), the nine opcode handlers (`LDI`, `PRN`, `PUSH`, `POP`,
`CALL`, `RET`, `ADD`, `MUL`, `HLT`) and the fetch-decode-execute loop (`run`).

Files:

- `python.dfy` (module `Python`): the bits of Python the CPU relies on. A list
  of length n accepts an index i exactly when -n <= i < n, and a negative
  index counts from the end. It also defines the exceptions the CPU can raise:
  `IndexError`, and the plain `Exception` the ALU raises.
- `semantics.dfy` (module `Ls8Semantics`): the reference semantics as values.
  Each handler is a function from a `State` to an `Outcome`. An `Outcome` holds
  the state the handler leaves and the exception it raised, if any. `Step` is
  one iteration of `run`'s loop, and `Run` is that loop bounded by fuel.
- `cpu.dfy` (module `Ls8Cpu`): the CPU as a class. `ram` and `reg` are arrays,
  and `pc`, `running` and the printed `output` are fields. The methods mutate
  them statement by statement, in the source's order. Every handler method,
  `RamRead`, `RamWrite`, `Step` and `Run` is proved to leave exactly the
  state, and raise exactly the exception, that the matching `Ls8Semantics`
  function prescribes; `LoadImage` states its stores cell by cell. `Execute` builds a CPU, places a
  program image in RAM and runs it.
- `properties.dfy` (module `Ls8Properties`): what the handlers, the dispatcher
  and whole runs do, proved about the reference semantics.

The model follows the code as written. Values are unbounded Python ints:
nothing is masked to 8 bits, so ADD of 200 and 100 gives 300. The stack
pointer `sp` is the register index 7, and register 7 starts at 0. The first
PUSH therefore writes address 0, and the next one writes `ram[-1]`, which is
address 255. PUSH writes first and then decrements; POP reads at the new
register 7 and then increments. So PUSH then POP restores register 7, but it
yields the cell below the pushed one, not the pushed value. CALL keeps its
return address behind register 6. RET ignores that address and jumps to the
value held in register 7. A textbook LS-8 masks to bytes, starts the stack
pointer high, and makes PUSH/POP and CALL/RET inverse pairs. This code does
none of that, and the model does not either.

Every index the source does not check becomes an `IndexError` path: RAM
addresses, register operands, `pc` itself and the stack register's value. An
exception ends the run with status `Crashed`. CALL changes register 6, and
possibly RAM, before it can fail. The model keeps those partial effects.

## Model

| member | source | states |
|---|---|---|
| `Ls8Cpu.CPU.constructor` | ls8/cpu.py:8-14 | a new CPU has 256 zero RAM cells, 8 zero registers (register 7 = 0), pc 0, running, no output, and `sp` = 7 |
| `Ls8Semantics.Initial` | ls8/cpu.py:8-14 | the initial state: every RAM cell and register is 0, pc is 0, running is true, output is empty |
| `Ls8Semantics.Boot` | ls8/cpu.py:8-14 | a fresh CPU with the program image at addresses 0.. and zeros after it; registers, pc, running and output as in a fresh CPU |
| `Ls8Cpu.CPU.RamRead` | ls8/cpu.py:16-17 | succeeds exactly when -256 <= address < 256 and returns the cell Python resolves the address to; otherwise IndexError |
| `Ls8Cpu.CPU.RamWrite` | ls8/cpu.py:19-20 | stores the value in the resolved cell and changes nothing else; an index outside -256..255 raises IndexError and writes nothing |
| `Ls8Semantics.ReadRam` | ls8/cpu.py:16-17 | succeeds exactly when -256 <= address < 256 and returns the cell Python resolves the address to; otherwise IndexError (WriteThenRead and WriteOutOfRange relate it to writes) |
| `Ls8Semantics.WriteRam` | ls8/cpu.py:19-20 | succeeds exactly when -256 <= address < 256, after which reading that address gives the written value; an IndexError leaves the state unchanged |
| `Ls8Properties.WriteThenRead` | ls8/cpu.py:16-20 | after `ram_write(a, v)`, `ram_read(a)` gives v; every other cell reads as before; registers, pc, running and output are unchanged |
| `Ls8Properties.WriteOutOfRange` | ls8/cpu.py:16-20 | an address outside -256..255 makes both read and write raise IndexError, and the write leaves the state as it was |
| `Ls8Properties.NegativeAddressAliases` | ls8/cpu.py:16-20 | writing at a negative address a is read back at a + 256: both name the same cell |
| `Ls8Cpu.CPU.LoadImage` | ls8/cpu.py:40-41 | byte k of the image is stored at address k; the cells after the image keep their old contents |
| `Ls8Cpu.CPU.Alu` | ls8/cpu.py:48-56 | updates only the destination register in place, exactly as `Ls8Semantics.Alu` prescribes, including the exception for an unknown tag |
| `Ls8Semantics.Alu` | ls8/cpu.py:48-56 | keeps the state well formed; RAM, pc, output and running are untouched, and a raise leaves the whole state unchanged |
| `Ls8Properties.AluRejectsOtherTags` | ls8/cpu.py:48-56 | the ALU raises "Unsupported ALU operation" if and only if the tag is neither "ADD" nor "MUL", and then changes nothing |
| `Ls8Cpu.CPU.Ldi` | ls8/cpu.py:78-82 | leaves exactly the state, and raises exactly the exception, that `Ls8Semantics.Ldi` gives for the old state |
| `Ls8Semantics.Ldi` | ls8/cpu.py:78-82 | keeps the state well formed; output and running are untouched |
| `Ls8Properties.LdiEffect` | ls8/cpu.py:78-82 | when every index is accepted, register ram[pc+1] becomes ram[pc+2], pc advances by 3, and no other register, cell or flag changes; otherwise IndexError with no change |
| `Ls8Cpu.CPU.Prn` | ls8/cpu.py:85-89 | leaves exactly the state, and raises exactly the exception, that `Ls8Semantics.Prn` gives |
| `Ls8Semantics.Prn` | ls8/cpu.py:85-89 | keeps the state well formed; only appends to the output; running is untouched |
| `Ls8Properties.PrnEffect` | ls8/cpu.py:85-89 | when the indices are accepted, appends register ram[pc+1] to the output and advances pc by 2; RAM and registers are unchanged; otherwise IndexError with no change |
| `Ls8Cpu.CPU.Push` | ls8/cpu.py:91-97 | leaves exactly the state, and raises exactly the exception, that `Ls8Semantics.Push` gives |
| `Ls8Semantics.Push` | ls8/cpu.py:91-97 | keeps the state well formed; output and running are untouched |
| `Ls8Properties.PushEffect` | ls8/cpu.py:91-97 | when the indices are accepted, stores register ram[pc+1] in the cell register 7 designates; changes no other cell; decrements register 7 and no other register; advances pc by 2; otherwise IndexError with no change |
| `Ls8Properties.TwoPushesFromZero` | ls8/cpu.py:91-97 | starting from register 7 = 0, the first PUSH writes address 0 and the second writes address 255; register 7 ends at -2 |
| `Ls8Cpu.CPU.Pop` | ls8/cpu.py:99-104 | leaves exactly the state, and raises exactly the exception, that `Ls8Semantics.Pop` gives |
| `Ls8Semantics.Pop` | ls8/cpu.py:99-104 | keeps the state well formed; output and running are untouched |
| `Ls8Properties.PopEffect` | ls8/cpu.py:99-104 | when the indices are accepted, loads the cell register 7 designates into register ram[pc+1] and increments register 7; no other register changes, RAM is unchanged, and pc advances by 2; otherwise IndexError with no change |
| `Ls8Properties.PopIntoStackPointer` | ls8/cpu.py:99-104 | a POP whose operand names register 7 (7 or -1) leaves register 7 at the popped value plus one |
| `Ls8Properties.PushThenPop` | ls8/cpu.py:91-104 | PUSH then POP into a register other than 7, with the PUSH not landing on the POP's operand cell, restores register 7 and advances pc by 4. The popped value is the cell below the pushed one, not the pushed value, and the pushed value stays in RAM |
| `Ls8Cpu.CPU.Call` | ls8/cpu.py:106-110 | leaves exactly the state, partial effects on IndexError included, and raises exactly the exception, that `Ls8Semantics.Call` gives |
| `Ls8Semantics.Call` | ls8/cpu.py:106-110 | keeps the state well formed; output and running are untouched |
| `Ls8Properties.CallEffect` | ls8/cpu.py:106-110 | register 6 is decremented and no other register changes. pc+2 is stored in the cell register 6 now designates, else IndexError. pc becomes the value of register ram[pc+1], read after that store, with no extra advance; a rejected operand index raises IndexError and leaves pc. When the decremented register 6 is itself out of range, IndexError is raised with RAM and pc unchanged |
| `Ls8Properties.CallReadsOperandAfterStore` | ls8/cpu.py:107-110 | when register 6 - 1 designates CALL's own operand cell, the store overwrites it, so the jump goes through register index pc+2. It succeeds exactly when pc+2 is a valid register index |
| `Ls8Properties.CallFromFreshStoresAtTop` | ls8/cpu.py:106-110 | with register 6 = 0, CALL stores pc+2 at address 255 and leaves register 6 at -1 |
| `Ls8Cpu.CPU.Ret` | ls8/cpu.py:112-114 | leaves exactly the state that `Ls8Semantics.Ret` gives, and raises nothing |
| `Ls8Semantics.Ret` | ls8/cpu.py:112-114 | keeps the state well formed; output and running are untouched |
| `Ls8Properties.RetEffect` | ls8/cpu.py:112-114 | RET never raises; pc becomes register 7's value and register 7 is incremented; nothing else changes |
| `Ls8Properties.RetIgnoresRamAndRegisterSix` | ls8/cpu.py:112-114 | where RET lands depends on neither RAM nor register 6 |
| `Ls8Properties.CallThenRet` | ls8/cpu.py:106-114 | after a successful CALL, RET lands on the old value of register 7, not on CALL's return address; register 6 stays decremented |
| `Ls8Cpu.CPU.Add` | ls8/cpu.py:116-120 | leaves exactly the state, and raises exactly the exception, that `Ls8Semantics.Add` gives |
| `Ls8Semantics.Arith` | ls8/cpu.py:116-126 | the shared body of ADD and MUL: RAM, output and running are untouched; a raise leaves the state unchanged, otherwise pc advances by 3 (AddEffect and MulEffect give the register written) |
| `Ls8Semantics.Add` | ls8/cpu.py:116-120 | keeps the state well formed; output and running are untouched |
| `Ls8Properties.AddEffect` | ls8/cpu.py:116-120 | when the indices are accepted, register a = ram[pc+1] becomes reg[a] + reg[b], with b = ram[pc+2]. Nothing else changes, and pc advances by 3; otherwise IndexError with no change |
| `Ls8Cpu.CPU.Mul` | ls8/cpu.py:122-126 | leaves exactly the state, and raises exactly the exception, that `Ls8Semantics.Mul` gives |
| `Ls8Semantics.Mul` | ls8/cpu.py:122-126 | keeps the state well formed; output and running are untouched |
| `Ls8Properties.MulEffect` | ls8/cpu.py:122-126 | as AddEffect, with reg[a] * reg[b] |
| `Ls8Properties.SameRegisterOperands` | ls8/cpu.py:48-56 | when both operands name the same register, ADD doubles it and MUL squares it |
| `Ls8Properties.AddDoesNotWrap` | ls8/cpu.py:52 | 200 + 100 leaves 300 in the register: nothing wraps modulo 256 |
| `Ls8Cpu.CPU.Hlt` | ls8/cpu.py:128-130 | leaves exactly the state that `Ls8Semantics.Hlt` gives |
| `Ls8Semantics.Hlt` | ls8/cpu.py:128-130 | running becomes false; output is untouched |
| `Ls8Properties.HltEffect` | ls8/cpu.py:128-130 | HLT never raises; it clears running and advances pc by 1, and changes nothing else |
| `Ls8Cpu.CPU.Step` | ls8/cpu.py:136-157 | one loop iteration leaves exactly the state and status that `Ls8Semantics.Step` gives |
| `Ls8Semantics.Step` | ls8/cpu.py:136-157 | keeps the state well formed and only appends to the output. On a running CPU it reports Halted exactly when running has become false. It never reports running out of fuel |
| `Ls8Properties.StepBadOpcode` | ls8/cpu.py:136-157 | an iteration stops with BadOpcode(b) if and only if pc is a valid index and b = ram[pc] is none of 130, 71, 1, 69, 70, 162, 160, 80, 17; the state is then unchanged |
| `Ls8Properties.StepHalts` | ls8/cpu.py:137-154 | on a running CPU, an iteration halts if and only if the byte at pc is HLT (1) |
| `Ls8Cpu.CPU.Run` | ls8/cpu.py:132-157 | running the loop for at most `fuel` iterations leaves exactly the state and status that `Ls8Semantics.Run` gives |
| `Ls8Semantics.Loop` | ls8/cpu.py:135 | `while self.running` over any loop body: the final state is well formed, and the loop never ends in Continue |
| `Ls8Semantics.Run` | ls8/cpu.py:132-157 | `run` is that loop with `Step` as its body: the final state is well formed, and a run never ends in Continue |
| `Ls8Properties.LoopMoreFuel` | ls8/cpu.py:135 | for any loop body, once the loop has ended for a reason other than fuel, more fuel gives the same result |
| `Ls8Properties.LoopSplit` | ls8/cpu.py:135 | for any loop body, a loop of a + b iterations is a loop of a iterations continued for b more |
| `Ls8Properties.RunMoreFuel` | ls8/cpu.py:132-157 | once a run has ended for a reason other than fuel, more fuel gives the same result |
| `Ls8Properties.RunSplit` | ls8/cpu.py:132-157 | a run of a + b iterations is a run of a iterations continued for b more |
| `Ls8Properties.RunOnlyAppends` | ls8/cpu.py:85-89 | a run only ever appends to the output: the output before is a prefix of the output after |
| `Ls8Properties.RunHaltedIffStopped` | ls8/cpu.py:128-135 | a run that starts on a running CPU reports Halted if and only if `running` has become false |
| `Ls8Properties.HaltStopsRun` | ls8/cpu.py:128-142 | a running CPU whose pc holds HLT stops at once, Halted, with pc + 1 and nothing else changed |
| `Ls8Properties.BadOpcodeStopsRun` | ls8/cpu.py:135-157 | a running CPU whose pc holds an unknown byte stops at once with BadOpcode(that byte) and an unchanged state |
| `Ls8Properties.LoadPrintHalt` | ls8/cpu.py:132-157 | the program 130,0,8,71,0,1 prints exactly [8] and halts with pc = 6 and register 0 = 8 |
| `Ls8Cpu.Execute` | ls8/cpu.py:132-157 | placing an image in a fresh CPU and running it gives exactly the status and output of `Ls8Semantics.Run` from `Ls8Semantics.Boot(image)` |

## Left out

- `CPU.load` (ls8/cpu.py:22-45) reads the command line and a file, parses lines with `int(s, 2)` and exits on errors. That I/O and parsing is not modelled. Only its stores into RAM are, as `LoadImage`, which takes the already parsed image. `Execute` and `Ls8Semantics.Boot` require the image to fit in 256 cells. The loader's IndexError on a longer file is not modelled.
- `CPU.trace` (ls8/cpu.py:58-76) only prints diagnostics, so it is not modelled.
- PRN's `print` (ls8/cpu.py:88) becomes an append to the `output` sequence. The "Bad input" message and `sys.exit(1)` (ls8/cpu.py:156-157) become the `BadOpcode(b)` status.
- An uncaught exception (an IndexError, or the ALU's Exception) becomes the `Crashed` status. The traceback and exit status are not modelled.
- `run` may loop forever, for example on a CALL to itself. `Run` takes a fuel bound and reports `OutOfFuel` when it is used up. Termination is not claimed.
- Ls8Semantics.Alu: its own ensures states only that the state stays well formed and which parts stay untouched; it is the reference definition, and its full effect is stated by the `Ls8Properties` lemma beside it in the table.
- Ls8Semantics.Ldi: its own ensures states only that the state stays well formed and which parts stay untouched; it is the reference definition, and its full effect is stated by the `Ls8Properties` lemma beside it in the table.
- Ls8Semantics.Prn: its own ensures states only that the state stays well formed and which parts stay untouched; it is the reference definition, and its full effect is stated by the `Ls8Properties` lemma beside it in the table.
- Ls8Semantics.Push: its own ensures states only that the state stays well formed and which parts stay untouched; it is the reference definition, and its full effect is stated by the `Ls8Properties` lemma beside it in the table.
- Ls8Semantics.Pop: its own ensures states only that the state stays well formed and which parts stay untouched; it is the reference definition, and its full effect is stated by the `Ls8Properties` lemma beside it in the table.
- Ls8Semantics.Call: its own ensures states only that the state stays well formed and which parts stay untouched; it is the reference definition, and its full effect is stated by the `Ls8Properties` lemma beside it in the table.
- Ls8Semantics.Ret: its own ensures states only that the state stays well formed and which parts stay untouched; it is the reference definition, and its full effect is stated by the `Ls8Properties` lemma beside it in the table.
- Ls8Semantics.Arith: its own ensures states the frame, the error case and the pc advance but not the register written; AddEffect and MulEffect state that.
- Ls8Semantics.Add: its own ensures states only that the state stays well formed and which parts stay untouched; it is the reference definition, and its full effect is stated by the `Ls8Properties` lemma beside it in the table.
- Ls8Semantics.Mul: its own ensures states only that the state stays well formed and which parts stay untouched; it is the reference definition, and its full effect is stated by the `Ls8Properties` lemma beside it in the table.
- Ls8Semantics.Hlt: its own ensures states only that the state stays well formed and which parts stay untouched; it is the reference definition, and its full effect is stated by the `Ls8Properties` lemma beside it in the table.
