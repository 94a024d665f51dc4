# LS-8 CPU emulator in Dafny

This project models the LS-8 teaching CPU of `ls8/cpu.py`. The CPU has eight
registers (register 7 is the stack pointer and starts at `0xF4`), 256 memory
cells and a program counter. A dispatch table maps ten opcode bytes to handler
methods. `run` fetches the opcode at PC, calls its handler, and adds 1 to PC
unless the opcode is CALL or RET.

Three files, one module each:

- `ls8.dfy`, module `Ls8`: the semantics as functions on a `Machine` value
  (registers, memory, PC, printed output, halted flag). There is one function
  per handler (`LdiEffect`, `PushEffect`, ...). `Handle` dispatches. `Step` is
  one turn of the `run` loop, `Run` is the loop with a fuel bound, and there are
  `Load`, `Alu` and `Init`. A handler that raises gives `Raised(m, fault)`,
  where `m` is the state at the failing access. The faults are `IllegalOpcode`
  (the dispatch table's KeyError), `OutOfBounds` (an IndexError on `ram`),
  `InvalidRegister` (an IndexError on `reg`) and `UnsupportedAluOperation`.
- `cpu.dfy`, module `Ls8Cpu`: the class `CPU`. It has `reg` and `ram` arrays,
  `PC`, `branchtable`, `out` and `halted`. Every method updates the object in
  place, following the Python statement by statement. Each method's `ensures`
  states that the new state and the reported fault are exactly what the
  matching `Ls8` function gives for the old state.
- `properties.dfy`, module `Ls8Properties`: lemmas about the semantics. They
  cover the effect of each instruction, HLT being final, output being
  append-only, run composition, PUSH/POP restoring state, and CALL/RET
  linkage. Six of them state what `Run` gives for a whole program loaded
  into a fresh CPU.

The model follows the code, including where the LS-8 instruction-set
specification says otherwise:

- ST stores register *a*'s value at the address in register *b*. `st` passes
  `(reg[op1], reg[op2])` to `ram_write(mdr, mar)`, which stores `mdr` at `mar`.
  The LS-8 instruction-set specification's entry for ST gives the opposite
  direction (store register b's value at the address in register a). See
  `ProgramStore`.
- ADD, MUL, PUSH, POP, CALL and RET use unbounded Python integers. Nothing is
  reduced modulo 256. So 200 + 100 prints 300, not 44 (`ProgramSumDoesNotWrap`).
  Registers and memory cells are therefore `int`.
- Python evaluates operands in a fixed order, and the model keeps that order.
  For example, `ldi` reads `PC+2` before `PC+1`. `push` and `call` decrease
  `reg[7]` before the access that can fail, so a faulted state keeps that
  decrement (`StepPushPastBottom`).

## Model

| member | source | states |
|---|---|---|
| Ls8.Init | ls8/cpu.py:21-26 | a new CPU has 8 registers, all 0 except register 7 = 0xF4, 256 zero memory cells, PC 0, no output, not halted |
| Ls8Cpu.CPU.constructor | ls8/cpu.py:21-38 | the constructed object's state is `Init()`, and its dispatch table is the ten-entry table |
| Ls8Properties.BranchTableDecodes | ls8/cpu.py:28-38 | the dispatch table's keys are exactly the ten opcodes, and each opcode maps to its own handler and back |
| Ls8.RamRead | ls8/cpu.py:143-144 | reading succeeds iff the address is in [0,256) and then gives that cell; otherwise OutOfBounds at that address |
| Ls8Cpu.CPU.RamRead | ls8/cpu.py:143-144 | the method returns what `Ls8.RamRead` gives, changing nothing |
| Ls8Cpu.CPU.RamWrite | ls8/cpu.py:146-147 | `ram_write(mdr, mar)` sets cell `mar` to `mdr` and nothing else, or reports OutOfBounds for `mar` and changes nothing |
| Ls8.RegOperand | ls8/cpu.py:44 | the operand byte at PC+k names a register iff PC+k is in memory and the byte is in [0,8); otherwise the matching fault |
| Ls8Cpu.CPU.RegOperand | ls8/cpu.py:49-50 | the method returns what `Ls8.RegOperand` gives, changing nothing |
| Ls8Cpu.CPU.Hlt | ls8/cpu.py:40-41 | the object is marked halted and nothing else changes |
| Ls8Cpu.CPU.Ldi | ls8/cpu.py:43-45 | the new state and fault are `LdiEffect` of the old state |
| Ls8Cpu.CPU.St | ls8/cpu.py:47-52 | the new state and fault are `StEffect` of the old state |
| Ls8Cpu.CPU.Prn | ls8/cpu.py:54-56 | the new state and fault are `PrnEffect` of the old state |
| Ls8Cpu.CPU.Mul | ls8/cpu.py:58-60 | the new state and fault are `MulEffect` of the old state |
| Ls8Cpu.CPU.Add | ls8/cpu.py:62-64 | the new state and fault are `AddEffect` of the old state |
| Ls8Cpu.CPU.Pop | ls8/cpu.py:66-69 | the new state and fault are `PopEffect` of the old state |
| Ls8Cpu.CPU.Push | ls8/cpu.py:71-77 | the new state and fault are `PushEffect` of the old state, including the decremented stack pointer when the write faults |
| Ls8Cpu.CPU.Call | ls8/cpu.py:79-87 | the new state and fault are `CallEffect` of the old state |
| Ls8Cpu.CPU.Ret | ls8/cpu.py:89-91 | the new state and fault are `RetEffect` of the old state |
| Ls8.HltEffect | ls8/cpu.py:40-41 | `hlt` never raises; it sets the halted flag and changes nothing else |
| Ls8.LdiEffect | ls8/cpu.py:43-45 | `ldi` succeeds iff PC+2 is in memory and the byte at PC+1 names a register; PC+2 is read first, so an out-of-memory PC+2 raises OutOfBounds(PC+2) whatever PC+1 holds; a fault changes nothing; on success the named register holds the byte at PC+2 and PC has moved 2 |
| Ls8.StEffect | ls8/cpu.py:47-52 | `st` succeeds iff both operand bytes name registers and the second register holds a memory address; the first operand is resolved first; a fault changes nothing; on success the cell addressed by the second register holds the first register's value and the registers are unchanged |
| Ls8.PrnEffect | ls8/cpu.py:54-56 | `prn` succeeds iff the operand byte names a register, and otherwise raises that operand's fault in the unchanged state; on success the register's value is appended to the output |
| Ls8.ArithEffect | ls8/cpu.py:58-64 | the shared shape of `mul` and `add` succeeds iff both operand bytes name registers; the target operand is resolved first; a fault changes nothing |
| Ls8.MulEffect | ls8/cpu.py:58-60 | when both operands name registers, `mul` succeeds and the target register holds the exact product of the two old values |
| Ls8.AddEffect | ls8/cpu.py:62-64 | when both operands name registers, `add` succeeds and the target register holds the exact sum of the two old values |
| Ls8.PopEffect | ls8/cpu.py:66-69 | `pop` succeeds iff register 7 holds a memory address and the operand names a register; the stack is read first, so a bad stack pointer raises OutOfBounds at it whatever the operand is; a fault changes nothing |
| Ls8.PushEffect | ls8/cpu.py:71-77 | `push` succeeds iff the operand names a register and register 7 minus 1 is a memory address; in every outcome register 7 is decreased by 1 and the other registers are unchanged, so a faulted push keeps the decrement |
| Ls8.CallEffect | ls8/cpu.py:79-87 | in every outcome register 7 is decreased by 1; if the new top is outside memory the call raises OutOfBounds there with only that decrement applied; otherwise the new top holds PC+2 even when the operand read then faults |
| Ls8.RetEffect | ls8/cpu.py:89-91 | `ret` succeeds iff register 7 holds a memory address, and otherwise raises OutOfBounds at it with nothing changed; on success PC is the stack top and register 7 is increased by 1 |
| Ls8.Continue | ls8/cpu.py:136-141 | one turn of the loop followed by the rest of the run keeps the register file and memory at their sizes |
| Ls8.Handle | ls8/cpu.py:138 | calling a handler keeps 8 registers and 256 cells, and only HLT changes the run state |
| Ls8Cpu.CPU.Dispatch | ls8/cpu.py:138 | calling the handler the table gave has the effect `Ls8.Handle` describes |
| Ls8.Step | ls8/cpu.py:134-141 | one turn of the loop halts iff the fetched opcode is HLT; IllegalOpcode is raised iff the fetched byte is not in the table; output grows by exactly one value iff a PRN completes |
| Ls8Cpu.CPU.Step | ls8/cpu.py:136-141 | fetch, dispatch and the conditional +1 leave the object in the state `Ls8.Step` gives |
| Ls8.Run | ls8/cpu.py:132-141 | running keeps the register file and memory at their sizes |
| Ls8Cpu.CPU.Run | ls8/cpu.py:132-141 | the loop leaves the object in the state `Ls8.Run` gives for the same fuel, stopping at HLT or at the first fault |
| Ls8.Load | ls8/cpu.py:93-100 | after loading, cell i holds `program[i]` for i < the program's length, and every other cell, the registers, PC and output are unchanged; a program longer than 256 fills memory and raises OutOfBounds at 256 |
| Ls8Cpu.CPU.Load | ls8/cpu.py:93-100 | the index loop leaves memory as `Ls8.Load` says and reports the same fault |
| Ls8.Alu | ls8/cpu.py:103-110 | `alu` succeeds iff the operation is "ADD" and both indices are registers, and then only register a changes, to the unbounded sum; any other operation raises UnsupportedAluOperation and changes nothing |
| Ls8Cpu.CPU.Alu | ls8/cpu.py:103-110 | the method's effect and fault are those of `Ls8.Alu` |
| Ls8Properties.StepHlt | ls8/cpu.py:40-41 | a step on HLT only sets halted; PC does not advance |
| Ls8Properties.StepLdi | ls8/cpu.py:43-45 | a step on LDI succeeds iff PC+2 is in memory and the first operand is a register; then only that register changes, to the second operand byte, and PC advances by 3 |
| Ls8Properties.StepSt | ls8/cpu.py:47-52 | a step on ST a,b succeeds iff both operands are registers and register b holds a memory address; then only that cell changes, to register a's value, and PC advances by 3 |
| Ls8Properties.StepPrn | ls8/cpu.py:54-56 | a step on PRN r succeeds iff r is a register; then register r's value is appended to the output and PC advances by 2 |
| Ls8Properties.StepMul | ls8/cpu.py:58-60 | a step on MUL a,b sets register a to the exact product of the old values, with no reduction modulo 256, and advances PC by 3 |
| Ls8Properties.StepAdd | ls8/cpu.py:62-64 | a step on ADD a,b sets register a to the exact sum of the old values, with no reduction modulo 256, and advances PC by 3 |
| Ls8Properties.AddAgreesWithAlu | ls8/cpu.py:62-64 | the ADD instruction has the same effect on registers as `alu("ADD", a, b)` |
| Ls8Properties.StepPop | ls8/cpu.py:66-69 | a step on POP r loads the top of the stack into r, then increments register 7, and advances PC by 2 |
| Ls8Properties.StepPush | ls8/cpu.py:71-77 | a step on PUSH r decrements register 7, stores r's value (read after the decrement) at the new top, and advances PC by 2 |
| Ls8Properties.StepPushPastBottom | ls8/cpu.py:71-77 | a PUSH with register 7 at 0 raises OutOfBounds at -1, and the faulted state keeps register 7 at -1 |
| Ls8Properties.StepCall | ls8/cpu.py:79-87 | a step on CALL r succeeds iff the new top is in memory and, after PC+2 is written there, the byte at PC+1 names a register; it then decrements register 7, stores PC+2 at the new top and jumps to register r's value, with no +1 from the loop |
| Ls8Properties.StepRet | ls8/cpu.py:89-91 | a step on RET jumps to the top of the stack and increments register 7, with no +1 from the loop |
| Ls8Properties.StepIllegalOpcode | ls8/cpu.py:136-138 | fetching a byte that is not in the dispatch table raises IllegalOpcode in an unchanged state, and so does every run from there |
| Ls8Properties.StepPcOutOfBounds | ls8/cpu.py:136 | fetching from a PC outside memory raises OutOfBounds in an unchanged state |
| Ls8Properties.RunAfterHalt | ls8/cpu.py:40-41 | a halted machine executes nothing more, for any fuel |
| Ls8Properties.RunCompose | ls8/cpu.py:132-141 | a run of a + b turns that has not faulted after a turns equals a run of b turns from the state after a |
| Ls8Properties.HaltIsFinal | ls8/cpu.py:40-41 | once a run has halted, more fuel gives the same result, so nothing after HLT is fetched |
| Ls8Properties.HltStops | ls8/cpu.py:40-41 | a run from HLT ends at once, halted, with nothing else changed |
| Ls8Properties.RunOutputExtends | ls8/cpu.py:54-56 | a run only appends to the output, so earlier output stays in order |
| Ls8Properties.RunUnfold | ls8/cpu.py:134-141 | a run of n+1 turns is one step followed by a run of n turns |
| Ls8Properties.PushPopRestores | ls8/cpu.py:66-77 | PUSH r, then any code that leaves register 7 and the pushed cell as PUSH left them, then POP r: the final state is the state before the POP with register r and register 7 back at their values from before the PUSH and PC past the POP |
| Ls8Properties.CallRetLinks | ls8/cpu.py:79-91 | CALL at address A, then any code that leaves register 7 and the return-address cell as CALL left them, then RET: the final state is the state before the RET with PC at A+2 and register 7 back at its value from before the CALL |
| Ls8Properties.ProgramPrintsSum | ls8/cpu.py:132-141 | LDI 0,8; LDI 1,9; ADD 0,1; PRN 0; HLT prints 17 and halts |
| Ls8Properties.ProgramSumDoesNotWrap | ls8/cpu.py:62-64 | LDI 0,200; LDI 1,100; ADD 0,1; PRN 0; HLT prints 300 |
| Ls8Properties.ProgramProductDoesNotWrap | ls8/cpu.py:58-60 | LDI 0,20; LDI 1,30; MUL 0,1; PRN 0; HLT prints 600 |
| Ls8Properties.ProgramPushPop | ls8/cpu.py:66-77 | pushing register 0 holding 7, overwriting it with 0 and popping it gives 7 back, with register 7 at 0xF4 again |
| Ls8Properties.ProgramStore | ls8/cpu.py:47-52 | ST 0,1 with register 0 = 42 and register 1 = 100 stores 42 at address 100 |
| Ls8Properties.ProgramCallRet | ls8/cpu.py:79-91 | a CALL to a subroutine ending in RET returns to the instruction after the CALL, which prints the value the subroutine loaded |

## Left out

- `trace` is not modelled. It only prints debug text, and it reads `self.pc`, an attribute that does not exist.
- PRN's `print` is modelled as appending to the `out` sequence. Decimal formatting and the output stream are not modelled.
- `hlt` calls `exit()`, which ends the process. The model sets a `halted` flag that stops the run loop instead.
- The `while True` loop of `run` is bounded by a `fuel` count. A program that never halts or faults simply uses up its fuel in the model.
- Negative indices are reported as `OutOfBounds` or `InvalidRegister`. Python would wrap them to the end of the list (for example, `ram[-1]` is cell 255).
- A non-integer value reaching an index or the dispatch table is not modelled, because every value in the model is an `int`.
- Reading a program file and turning it into bytes is not part of this model. `load` receives a finished sequence.
- Ls8Properties.PushPopRestores and Ls8Properties.CallRetLinks cover one PUSH/POP or CALL/RET pair. They give the whole final state, so an outer pair's conditions can be discharged from an inner pair's result, but no single lemma states nesting to any depth.
