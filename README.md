# A verified model of the 8-register emulator in `cpu.py`

`cpu.py` emulates a small machine. It has eight registers, 256 memory cells, a
program counter `pc` and a flag word. Its `run` loop fetches `ram[pc]` and
dispatches on thirteen opcodes: LDI, PRN, HLT, CALL, RET, PUSH, POP, ADD, MUL,
CMP, JMP, JEQ and JNE. ADD, MUL and CMP are done by `alu`. The loop ends on HLT,
on an unknown opcode, or on a failing list access. Register 7 is the stack
pointer, and the stack grows downward in memory.

The project has three modules:

- `semantics.dfy`, module `Semantics`: the machine as a value (`Machine`). It
  has one function per instruction, `Step` for one iteration of the run loop,
  and `Run` for the loop bounded by a fuel count. A `Transition` pairs the
  outcome (`Continue`, `Halted`, `Error(fault)`) with the machine left behind.
- `cpu.dfy`, module `Cpu`: class `CPU`. Its fields are the two arrays
  `register` and `ram`, plus `pc` and `flag`, all updated in place. Printed
  values go to a ghost sequence `output`. Every method is proved to leave the
  object in exactly the state the matching `Semantics` function computes
  (`Transition(outcome, State()) == Semantics.Step(old(State()))`).
- `properties.dfy`, module `Properties`: what each instruction does and what
  it leaves unchanged, the PUSH/POP and CALL/RET round trips, facts about the
  bounded loop, and one complete program.

Behaviour of the code that the model keeps on purpose:

- Values are unbounded integers. ADD and MUL do not wrap (`cpu.py:62`, `cpu.py:66`).
- Indices follow Python list rules. An index `i` with `-n <= i < n` is
  accepted, and a negative one names cell `i + n` (`Semantics.PyIndex`). Any
  other index ends the step in `Error(IndexOutOfRange)`. This applies to
  `ram[pc]`, `ram[pc+1]`, `ram[pc+2]`, the stack cell, and register indices
  taken from operand bytes.
- The stack pointer starts at 0, so the first PUSH or CALL writes `ram[-1]`,
  which is cell 255.
- CMP compares the two operand bytes, not the registers they name
  (`cpu.py:76-83`). It leaves exactly 1, 4 or 2 in the flag word.
- JEQ jumps when the flag word equals 1. JNE jumps when it does not. A jump
  that is not taken never reads the register.
- ADD and MUL move `pc` inside `alu`. CMP moves it in `run` after `alu` returns.
- A failing access can happen after an instruction has already changed the
  machine. The model keeps those earlier updates in the error transition, in
  source order. For example, CALL and PUSH decrement the stack pointer before
  the store that may fail. CALL stores the return address before it reads its
  operand byte. POP stores into its target before it increments the stack pointer.

## Model

| member | source | states |
|---|---|---|
| `Semantics.PyIndex` | cpu.py:113 | Python's list index rule, which every `ram[...]` and `register[...]` access of the emulator follows (the first one is this fetch): an index is accepted exactly when `-n <= i < n`; the cell it names is `i` itself or `i + n`, below `n` |
| `Semantics.Initial` | cpu.py:6-28 | a fresh machine has 8 zero registers, 256 zero cells, `pc = 0`, `flag = 0` and nothing printed |
| `Semantics.Seeded` | cpu.py:55-57 | after loading, cell `i` holds `program[i]` for `i < len(program)` and keeps its old value otherwise |
| `Semantics.Loaded` | cpu.py:55-57 | a machine exists exactly when the program fits in 256 cells (a longer one makes the copy loop raise); it is the initial machine with `program[i]` in cell `i` and 0 in every cell past the program |
| `Semantics.ReadRam` | cpu.py:210-213 | `ram[addr]` is defined exactly for `-256 <= addr < 256`; a non-negative address reads that cell, a negative one reads cell `addr + 256` |
| `Semantics.ReadReg` | cpu.py:124 | `register[i]` is defined exactly for `-8 <= i < 8`, with the same negative-index rule |
| `Semantics.WriteRam` | cpu.py:215-217 | `ram[addr] = v` succeeds exactly when the read would; afterwards reading `addr` gives `v`, every other cell and every other component is unchanged |
| `Semantics.WriteReg` | cpu.py:119 | `register[i] = v` succeeds exactly for a valid index; afterwards reading `i` gives `v`, and everything else is unchanged |
| `Semantics.Alu` | cpu.py:59-89 | the ALU: ADD and MUL in place with `pc += 3`, CMP on the operand bytes, an error for any other operation; its own effect is stated by `Properties.AluEffect` and `Properties.AluRejectsOtherOps`; at instruction level by `Properties.AddMulEffect` and `Properties.CmpEffect` |
| `Semantics.Ldi` | cpu.py:115-120 | the LDI branch; its effect is stated by `Properties.LdiEffect`; its errors by `Properties.OperandFetchFails` |
| `Semantics.Prn` | cpu.py:122-125 | the PRN branch; its effect is stated by `Properties.PrnEffect`; its errors by `Properties.OperandFetchFails` |
| `Semantics.Hlt` | cpu.py:127-129 | the HLT branch; its effect is stated by `Properties.HltEffect` |
| `Semantics.Call` | cpu.py:131-139 | the CALL branch, in source order; its effect is stated by `Properties.CallEffect` and `Properties.CallThenRet`; its errors by `Properties.CallFails` |
| `Semantics.Ret` | cpu.py:141-145 | the RET branch; its effect is stated by `Properties.RetEffect` and `Properties.CallThenRet` |
| `Semantics.Push` | cpu.py:147-154 | the PUSH branch; its effect is stated by `Properties.PushEffect` and `Properties.PushThenPop`; its errors by `Properties.OperandFetchFails` |
| `Semantics.Pop` | cpu.py:156-163 | the POP branch; its effect is stated by `Properties.PopEffect` and `Properties.PushThenPop`; its errors by `Properties.OperandFetchFails` |
| `Semantics.Arith` | cpu.py:165-179 | the ADD, MUL and CMP branches: fetch two operand bytes, call the ALU, and for CMP add 3 to `pc` afterwards; stated by `Properties.AddMulEffect` and `Properties.CmpEffect`; a failing operand fetch by `Properties.OperandFetchFails` |
| `Semantics.Jump` | cpu.py:181-186 | the JMP branch; its effect is stated by `Properties.JmpEffect`; its errors by `Properties.OperandFetchFails` |
| `Semantics.JumpIf` | cpu.py:188-205 | the JEQ and JNE branches; their effect is stated by `Properties.ConditionalJumpEffect`; a failing operand fetch by `Properties.OperandFetchFails` |
| `Semantics.Step` | cpu.py:110-208 | one iteration keeps the machine's shape; the output grows by at most one value and only at its end; the flag is unchanged or becomes 1, 2 or 4; HLT only moves `pc` by one; the dispatcher never hands the ALU an unsupported operation; a failing fetch is stated by `Properties.FetchFails`, failing operand fetches by `Properties.OperandFetchFails` and CALL's partial failures by `Properties.CallFails` |
| `Semantics.Run` | cpu.py:107-110 | the loop keeps the machine's shape; output only grows, by at most one value per iteration; with no fuel nothing happens |
| `Cpu.CPU.constructor` | cpu.py:6-28 | the new object stands for the initial machine, over two fresh arrays of 8 and 256 cells |
| `Cpu.CPU.Seed` | cpu.py:55-57 | the copy loop succeeds exactly when the program fits in memory, and leaves memory equal to `Seeded` of the old memory; nothing else changes |
| `Cpu.CPU.RamRead` | cpu.py:210-213 | returns exactly what `Semantics.ReadRam` gives for the object's state: `ram[mar]` under Python's index rule, or nothing when `mar` is out of range |
| `Cpu.CPU.RamWrite` | cpu.py:215-217 | succeeds exactly for an index in range, and then leaves the state `WriteRam` computes; otherwise nothing changes |
| `Cpu.CPU.RegisterRead` | cpu.py:124 | returns exactly what `Semantics.ReadReg` gives for the object's state: `register[index]` under Python's index rule, or nothing when out of range |
| `Cpu.CPU.RegisterWrite` | cpu.py:119 | succeeds exactly for a valid register index, and then leaves the state `WriteReg` computes; otherwise nothing changes |
| `Cpu.CPU.Alu` | cpu.py:59-89 | updates the registers, `pc` and `flag` in place exactly as `Semantics.Alu` says |
| `Cpu.CPU.Ldi` | cpu.py:115-120 | the in-place LDI leaves exactly the state and outcome of `Semantics.Ldi` |
| `Cpu.CPU.Prn` | cpu.py:122-125 | the in-place PRN appends to the printed output exactly as `Semantics.Prn` says |
| `Cpu.CPU.Call` | cpu.py:131-139 | the in-place CALL, including its updates before a failing access, matches `Semantics.Call` |
| `Cpu.CPU.Ret` | cpu.py:141-145 | the in-place RET matches `Semantics.Ret` |
| `Cpu.CPU.Push` | cpu.py:147-154 | the in-place PUSH, including the decrement before a failing store, matches `Semantics.Push` |
| `Cpu.CPU.Pop` | cpu.py:156-163 | the in-place POP matches `Semantics.Pop` |
| `Cpu.CPU.Jump` | cpu.py:181-186 | the in-place JMP matches `Semantics.Jump` |
| `Cpu.CPU.JumpIf` | cpu.py:188-205 | the in-place JEQ / JNE matches `Semantics.JumpIf` |
| `Cpu.CPU.Step` | cpu.py:110-208 | one in-place iteration of the loop leaves exactly the outcome and state of `Semantics.Step` |
| `Cpu.CPU.Run` | cpu.py:107-208 | the in-place loop, bounded by fuel, leaves exactly the outcome and state of `Semantics.Run` |
| `Properties.WriteThenRead` | cpu.py:210-217 | `ram_write(a, v)` followed by `ram_read(a)` returns `v`; a read of any address naming another cell is unaffected |
| `Properties.LdiEffect` | cpu.py:115-120 | LDI succeeds exactly when its register index is valid; then register `num` holds the literal, `pc` moves by 3, and ram, flag, output and all other registers are unchanged; otherwise nothing changes |
| `Properties.PrnEffect` | cpu.py:122-125 | PRN appends `register[reg]` to the output and moves `pc` by 2, and nothing else changes; it fails unchanged on a bad index |
| `Properties.HltEffect` | cpu.py:127-129 | HLT halts with `pc + 1` and nothing else changed, and the loop stops at it whatever fuel remains |
| `Properties.UnknownOpcode` | cpu.py:206-208 | a fetched byte yields the unknown-instruction error if and only if it is not one of the thirteen opcodes, and then nothing changes |
| `Properties.FetchFails` | cpu.py:113 | an instruction address outside the memory ends the step in the index error with nothing changed |
| `Properties.OperandFetchFails` | cpu.py:116-200 | for LDI, PRN, PUSH, POP, ADD, MUL, CMP, JMP, JEQ and JNE, an operand byte outside the memory (`pc+1`, or `pc+2` for the two-operand ones) ends the step in the index error with nothing changed |
| `Properties.CallFails` | cpu.py:131-139 | a CALL whose stack cell is out of range fails keeping the decremented stack pointer; one whose operand byte or target register is out of range fails keeping the decrement and the stored return address |
| `Properties.AluEffect` | cpu.py:59-84 | ADD and MUL succeed iff both register indexes are valid, leave `register[a]` holding the unbounded sum or product and change no other register, and add 3 to `pc`; otherwise nothing changes; CMP always continues, changes only the flag, leaving `pc` as it was, and sets 1, 4 or 2 exactly when the operand values are equal, less or greater |
| `Properties.AluRejectsOtherOps` | cpu.py:59-89 | the ALU raises its unsupported-operation error if and only if the operation is not ADD, MUL or CMP, and then nothing changes |
| `Properties.AddMulEffect` | cpu.py:61-67 | ADD/MUL succeed exactly when both register indices are valid; then register `a` holds the unbounded sum/product, `pc` moves by exactly 3 in all, nothing else changes; otherwise nothing changes |
| `Properties.CmpEffect` | cpu.py:74-83 | CMP always succeeds; the flag becomes exactly one of 1, 2, 4, equal to 1 iff the operand bytes are equal, 4 iff the first is less and 2 iff it is greater; `pc` moves by 3; registers, ram and output are unchanged |
| `Properties.JmpEffect` | cpu.py:181-186 | JMP sets `pc` to `register[op]` and changes nothing else; it fails unchanged on a bad index |
| `Properties.ConditionalJumpEffect` | cpu.py:188-205 | JEQ jumps iff the flag word is 1, JNE iff it is not; a taken jump is JMP's effect, one not taken moves `pc` by 2 and changes nothing else |
| `Properties.CmpThenJeq` | cpu.py:175-195 | CMP a b followed by JEQ r ends at `register[r]` iff the operand bytes are equal and at `pc + 5` otherwise, where register r is never read; registers and ram are unchanged |
| `Properties.CmpThenJne` | cpu.py:175-205 | CMP a b followed by JNE r ends at `register[r]` iff the operand bytes differ and at `pc + 5` otherwise, where register r is never read; registers and ram are unchanged |
| `Properties.LdiThenPrn` | cpu.py:115-125 | LDI r, v followed by PRN r prints exactly `v` |
| `Properties.PushEffect` | cpu.py:147-154 | PUSH succeeds exactly when its register index and the decremented stack cell are valid; then the stack pointer is one lower, that cell holds ra's value, `pc` moves by 2 and nothing else changes; a bad register index changes nothing, and a bad stack cell leaves only the decremented stack pointer |
| `Properties.PopEffect` | cpu.py:156-163 | POP succeeds exactly when the stack cell and its register index are valid; then rb holds the stack cell, the stack pointer as it stands after that store is one higher, `pc` moves by 2 and nothing else changes; otherwise nothing changes |
| `Properties.RetEffect` | cpu.py:141-145 | RET succeeds exactly when the stack cell is valid; then `pc` is that cell, the stack pointer is one higher and nothing else changes; otherwise nothing changes |
| `Properties.PushThenPop` | cpu.py:147-163 | after PUSH ra, a later POP rb (rb not the stack pointer) that finds the stack pointer and its cell as the PUSH left them moves ra's pre-PUSH value into rb and restores the stack pointer to its pre-PUSH value |
| `Properties.PushPopAdjacent` | cpu.py:147-163 | the same round trip for PUSH ra; POP rb run back to back, which also ends with `pc` moved by 4 |
| `Properties.CallThenRet` | cpu.py:131-145 | after CALL at address p, a later RET that finds the stack pointer and its cell as the CALL left them resumes at `p + 2`, restores the stack pointer to its pre-CALL value, and changes nothing else |
| `Properties.CallEffect` | cpu.py:131-139 | CALL r decrements the stack pointer, stores `pc + 2` in the cell it names, and jumps to `register[r]`; every other register, every other memory cell, the flag and the output are unchanged |
| `Properties.StepFrame` | cpu.py:113-208 | memory changes only under CALL and PUSH, the flag word only under CMP, and the output only under PRN |
| `Properties.RunAdditive` | cpu.py:107-110 | running `a + b` iterations is running `a`, then `b` more if the machine is still running |
| `Properties.RunHaltedIsFinal` | cpu.py:127-128 | once the loop has halted, more fuel changes nothing |
| `Properties.MultiplyProgram` | cpu.py:107-208 | the program LDI R0,8; LDI R1,9; MUL R0,R1; PRN R0; HLT prints 72 and halts with `pc = 12` |

## Left out

- `load` file handling (`cpu.py:30-54`): opening the file, splitting comments,
  parsing with `int(num, 2)` and printing each byte are I/O and Python library
  behaviour. Only the copy into memory is modelled (`Cpu.CPU.Seed`, `Semantics.Loaded`).
- `trace` (`cpu.py:91-105`) only prints diagnostics.
- Printing in PRN is modelled as appending to the `output` sequence. The
  `print` and `sys.exit(1)` for an unknown opcode are modelled as the
  `Error(UnknownInstruction(ir))` outcome.
- The unused `IR` field and the `opcodes` dictionary are replaced by the
  constant opcode values.
- Semantics.Run: the unbounded `while running` loop is modelled with a fuel
  count. A program that never halts answers `Continue` for every amount of
  fuel, so the model does not tell it apart from one that has not halted yet.
- Properties.CallEffect: states where CALL jumps only when the stack cell it
  writes is not its own operand byte and the target register is not the
  stack pointer. The other cases are still modelled exactly by
  `Semantics.Call` and `Cpu.CPU.Call`.
- Exceptions are modelled by the `Error(fault)` outcome and the machine as it
  stood when they were raised. When the source raises an exception, the
  Python traceback and its message are not modelled.
