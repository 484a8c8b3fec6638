/**
 * Pure semantics of the emulated machine: eight integer registers, 256
 * integer memory cells, a program counter and a flag word.  Every operation
 * of the emulator is a function from one machine value to the next;
 * the class in module Cpu is proved to update its arrays and fields exactly
 * as these functions say.
 *
 * The emulator stores everything in Python lists of Python integers, so
 * cells hold unbounded integers and an index i is accepted whenever
 * -n <= i < n (a negative index counts from the end).  PyIndex states that
 * rule once; every access that fails it ends the step in Error.
 */
module Semantics {

  datatype Option<T> = None | Some(value: T)

  const RegisterCount: nat := 8
  const RamSize: nat := 256
  /** The register that serves as stack pointer. */
  const SP: nat := 7

  // Opcodes (the binary literals of the emulator's opcode table, in hex).
  const LDI: int := 0x82   // 0b10000010
  const PRN: int := 0x47   // 0b01000111
  const HLT: int := 0x01   // 0b00000001
  const MUL: int := 0xA2   // 0b10100010
  const PUSH: int := 0x45  // 0b01000101
  const POP: int := 0x46   // 0b01000110
  const CALL: int := 0x50  // 0b01010000
  const RET: int := 0x11   // 0b00010001
  const ADD: int := 0xA0   // 0b10100000
  const CMP: int := 0xA7   // 0b10100111
  const JMP: int := 0x54   // 0b01010100
  const JEQ: int := 0x55   // 0b01010101
  const JNE: int := 0x56   // 0b01010110

  // The values CMP leaves in the flag word.
  const EqualFlag: int := 1    // 0b001
  const GreaterFlag: int := 2  // 0b010
  const LessFlag: int := 4     // 0b100

  datatype Machine = Machine(
    register: seq<int>,
    ram: seq<int>,
    pc: int,
    flag: int,
    output: seq<int>)  // the values PRN has printed, oldest first

  predicate WellFormed(m: Machine)
  {
    |m.register| == RegisterCount && |m.ram| == RamSize
  }

  /** Why a step could not complete. */
  datatype Fault =
    | IndexOutOfRange          // a list index outside [-n, n)
    | UnknownInstruction(ir: int)
    | UnsupportedAluOp(op: int)

  datatype Outcome = Continue | Halted | Error(fault: Fault)

  /**
   * The outcome of a step together with the machine it leaves behind.  On
   * Error the machine holds whatever updates the instruction made before
   * the failing access.
   */
  datatype Transition = Transition(outcome: Outcome, machine: Machine)

  /** Python's list indexing rule: the cell that index i names in a list of length n. */
  function PyIndex(i: int, n: nat): (r: Option<nat>)
    ensures r.Some? <==> -(n as int) <= i < n
    ensures r.Some? ==> r.value < n && (r.value == i || r.value == i + n)
  {
    if 0 <= i < n then Some(i)
    else if -(n as int) <= i < 0 then Some(i + n)
    else None
  }

  /** The machine after __init__: everything zero, nothing printed. */
  function Initial(): (m: Machine)
    ensures WellFormed(m)
    ensures m.pc == 0 && m.flag == 0 && m.output == []
    ensures forall i :: 0 <= i < RegisterCount ==> m.register[i] == 0
    ensures forall i :: 0 <= i < RamSize ==> m.ram[i] == 0
  {
    Machine(seq(RegisterCount, _ => 0), seq(RamSize, _ => 0), 0, 0, [])
  }

  /**
   * Memory after the loader has copied program into it from address 0.
   * Cells past the program keep their contents; a program longer than memory
   * fills all of it before the copy fails.
   */
  function Seeded(ram: seq<int>, program: seq<int>): (r: seq<int>)
    requires |ram| == RamSize
    ensures |r| == RamSize
    ensures forall i :: 0 <= i < RamSize ==> r[i] == if i < |program| then program[i] else ram[i]
  {
    if |program| <= RamSize then program + ram[|program|..] else program[..RamSize]
  }

  /**
   * The initial machine with program loaded at address 0, or None when the
   * program does not fit: the copy loop then raises after filling memory and
   * no machine is left to run.
   */
  function Loaded(program: seq<int>): (r: Option<Machine>)
    ensures r.Some? <==> |program| <= RamSize
    ensures r.Some? ==> WellFormed(r.value) && r.value == Initial().(ram := r.value.ram)
    ensures r.Some? ==> forall i :: 0 <= i < |program| ==> r.value.ram[i] == program[i]
    ensures r.Some? ==> forall i :: |program| <= i < RamSize ==> r.value.ram[i] == 0
  {
    if |program| <= RamSize then Some(Initial().(ram := Seeded(Initial().ram, program))) else None
  }

  function ReadRam(m: Machine, addr: int): (r: Option<int>)
    requires WellFormed(m)
    ensures r.Some? <==> -(RamSize as int) <= addr < RamSize
    ensures 0 <= addr < RamSize ==> r == Some(m.ram[addr])
    ensures -(RamSize as int) <= addr < 0 ==> r == Some(m.ram[addr + RamSize])
  {
    match PyIndex(addr, RamSize)
    case None => None
    case Some(a) => Some(m.ram[a])
  }

  function ReadReg(m: Machine, index: int): (r: Option<int>)
    requires WellFormed(m)
    ensures r.Some? <==> -(RegisterCount as int) <= index < RegisterCount
    ensures 0 <= index < RegisterCount ==> r == Some(m.register[index])
    ensures -(RegisterCount as int) <= index < 0 ==> r == Some(m.register[index + RegisterCount])
  {
    match PyIndex(index, RegisterCount)
    case None => None
    case Some(i) => Some(m.register[i])
  }

  /** ram[addr] = v: only the addressed cell changes; None when the index is out of range. */
  function WriteRam(m: Machine, addr: int, v: int): (r: Option<Machine>)
    requires WellFormed(m)
    ensures r.Some? <==> ReadRam(m, addr).Some?
    ensures r.Some? ==> WellFormed(r.value) && r.value == m.(ram := r.value.ram)
    ensures r.Some? ==> ReadRam(r.value, addr) == Some(v)
    ensures r.Some? ==> forall j :: 0 <= j < RamSize && PyIndex(addr, RamSize) != Some(j) ==>
      r.value.ram[j] == m.ram[j]
  {
    match PyIndex(addr, RamSize)
    case None => None
    case Some(a) => Some(m.(ram := m.ram[a := v]))
  }

  /** register[index] = v: only the addressed register changes; None when out of range. */
  function WriteReg(m: Machine, index: int, v: int): (r: Option<Machine>)
    requires WellFormed(m)
    ensures r.Some? <==> ReadReg(m, index).Some?
    ensures r.Some? ==> WellFormed(r.value) && r.value == m.(register := r.value.register)
    ensures r.Some? ==> ReadReg(r.value, index) == Some(v)
    ensures r.Some? ==> forall j :: 0 <= j < RegisterCount && PyIndex(index, RegisterCount) != Some(j) ==>
      r.value.register[j] == m.register[j]
  {
    match PyIndex(index, RegisterCount)
    case None => None
    case Some(i) => Some(m.(register := m.register[i := v]))
  }

  function Next(m: Machine): Transition { Transition(Continue, m) }

  function OutOfRange(m: Machine): Transition { Transition(Error(IndexOutOfRange), m) }

  /** The machine with the stack pointer register set to v. */
  function WithSP(m: Machine, v: int): (r: Machine)
    requires WellFormed(m)
    ensures WellFormed(r)
  {
    m.(register := m.register[SP := v])
  }

  /** The arithmetic/logic unit: ADD and MUL advance pc themselves, CMP does not. */
  function Alu(op: int, regA: int, regB: int, m: Machine): (t: Transition)
    requires WellFormed(m)
    ensures WellFormed(t.machine)
  {
    if op == ADD || op == MUL then
      match ReadReg(m, regA)
      case None => OutOfRange(m)
      case Some(x) =>
        match ReadReg(m, regB)
        case None => OutOfRange(m)
        case Some(y) =>
          match WriteReg(m, regA, if op == ADD then x + y else x * y)
          case None => OutOfRange(m)
          case Some(m1) => Next(m1.(pc := m.pc + 3))
    else if op == CMP then
      // The operand bytes themselves are compared, not the registers they name.
      Next(m.(flag := if regA == regB then EqualFlag
                      else if regA < regB then LessFlag
                      else GreaterFlag))
    else
      Transition(Error(UnsupportedAluOp(op)), m)
  }

  function Ldi(m: Machine): (t: Transition)
    requires WellFormed(m)
    ensures WellFormed(t.machine)
  {
    match ReadRam(m, m.pc + 1)
    case None => OutOfRange(m)
    case Some(num) =>
      match ReadRam(m, m.pc + 2)
      case None => OutOfRange(m)
      case Some(value) =>
        match WriteReg(m, num, value)
        case None => OutOfRange(m)
        case Some(m1) => Next(m1.(pc := m.pc + 3))
  }

  function Prn(m: Machine): (t: Transition)
    requires WellFormed(m)
    ensures WellFormed(t.machine)
  {
    match ReadRam(m, m.pc + 1)
    case None => OutOfRange(m)
    case Some(reg) =>
      match ReadReg(m, reg)
      case None => OutOfRange(m)
      case Some(v) => Next(m.(output := m.output + [v], pc := m.pc + 2))
  }

  function Hlt(m: Machine): (t: Transition)
    requires WellFormed(m)
    ensures WellFormed(t.machine)
  {
    Transition(Halted, m.(pc := m.pc + 1))
  }

  /**
   * CALL decrements the stack pointer and stores the return address before
   * it reads its operand, so a failing access leaves those updates behind.
   */
  function Call(m: Machine): (t: Transition)
    requires WellFormed(m)
    ensures WellFormed(t.machine)
  {
    var m1 := WithSP(m, m.register[SP] - 1);
    match WriteRam(m1, m1.register[SP], m.pc + 2)
    case None => OutOfRange(m1)
    case Some(m2) =>
      match ReadRam(m2, m.pc + 1)
      case None => OutOfRange(m2)
      case Some(reg) =>
        match ReadReg(m2, reg)
        case None => OutOfRange(m2)
        case Some(target) => Next(m2.(pc := target))
  }

  function Ret(m: Machine): (t: Transition)
    requires WellFormed(m)
    ensures WellFormed(t.machine)
  {
    match ReadRam(m, m.register[SP])
    case None => OutOfRange(m)
    case Some(target) => Next(WithSP(m.(pc := target), m.register[SP] + 1))
  }

  function Push(m: Machine): (t: Transition)
    requires WellFormed(m)
    ensures WellFormed(t.machine)
  {
    match ReadRam(m, m.pc + 1)
    case None => OutOfRange(m)
    case Some(reg) =>
      match ReadReg(m, reg)
      case None => OutOfRange(m)
      case Some(v) =>
        var m1 := WithSP(m, m.register[SP] - 1);
        match WriteRam(m1, m1.register[SP], v)
        case None => OutOfRange(m1)
        case Some(m2) => Next(m2.(pc := m.pc + 2))
  }

  /** POP stores into its target before it increments the stack pointer. */
  function Pop(m: Machine): (t: Transition)
    requires WellFormed(m)
    ensures WellFormed(t.machine)
  {
    match ReadRam(m, m.pc + 1)
    case None => OutOfRange(m)
    case Some(reg) =>
      match ReadRam(m, m.register[SP])
      case None => OutOfRange(m)
      case Some(v) =>
        match WriteReg(m, reg, v)
        case None => OutOfRange(m)
        case Some(m1) => Next(WithSP(m1, m1.register[SP] + 1).(pc := m.pc + 2))
  }

  /** ADD, MUL and CMP: fetch the two operand bytes and hand them to the ALU. */
  function Arith(ir: int, m: Machine): (t: Transition)
    requires WellFormed(m)
    ensures WellFormed(t.machine)
  {
    match ReadRam(m, m.pc + 1)
    case None => OutOfRange(m)
    case Some(a) =>
      match ReadRam(m, m.pc + 2)
      case None => OutOfRange(m)
      case Some(b) =>
        var t := Alu(ir, a, b, m);
        if ir == CMP && t.outcome == Continue then Next(t.machine.(pc := t.machine.pc + 3))
        else t
  }

  /** JMP, and JEQ / JNE when their condition holds: pc := register[operand]. */
  function Jump(m: Machine): (t: Transition)
    requires WellFormed(m)
    ensures WellFormed(t.machine)
  {
    match ReadRam(m, m.pc + 1)
    case None => OutOfRange(m)
    case Some(op) =>
      match ReadReg(m, op)
      case None => OutOfRange(m)
      case Some(target) => Next(m.(pc := target))
  }

  /** JEQ when jump is true, JNE when it is false; the operand is still fetched. */
  function JumpIf(jump: bool, m: Machine): (t: Transition)
    requires WellFormed(m)
    ensures WellFormed(t.machine)
  {
    match ReadRam(m, m.pc + 1)
    case None => OutOfRange(m)
    case Some(_) =>
      if jump then Jump(m) else Next(m.(pc := m.pc + 2))
  }

  /** One iteration of the run loop: fetch ram[pc] and dispatch on it. */
  function Step(m: Machine): (t: Transition)
    requires WellFormed(m)
    ensures WellFormed(t.machine)
    ensures m.output <= t.machine.output && |t.machine.output| <= |m.output| + 1
    ensures t.machine.flag == m.flag || t.machine.flag in {EqualFlag, GreaterFlag, LessFlag}
    ensures t.outcome == Halted ==> t.machine == m.(pc := m.pc + 1)
    ensures !(t.outcome.Error? && t.outcome.fault.UnsupportedAluOp?)
  {
    match ReadRam(m, m.pc)
    case None => OutOfRange(m)
    case Some(ir) =>
      if ir == LDI then Ldi(m)
      else if ir == PRN then Prn(m)
      else if ir == HLT then Hlt(m)
      else if ir == CALL then Call(m)
      else if ir == RET then Ret(m)
      else if ir == PUSH then Push(m)
      else if ir == POP then Pop(m)
      else if ir == ADD || ir == MUL || ir == CMP then Arith(ir, m)
      else if ir == JMP then Jump(m)
      else if ir == JEQ then JumpIf(m.flag == EqualFlag, m)
      else if ir == JNE then JumpIf(m.flag != EqualFlag, m)
      else Transition(Error(UnknownInstruction(ir)), m)
  }

  /**
   * The run loop given fuel iterations: it stops at the first step that
   * halts or fails, and answers Continue when the fuel runs out first.
   */
  function Run(m: Machine, fuel: nat): (t: Transition)
    requires WellFormed(m)
    ensures WellFormed(t.machine)
    ensures m.output <= t.machine.output && |t.machine.output| <= |m.output| + fuel
    ensures fuel == 0 ==> t == Next(m)
    decreases fuel
  {
    if fuel == 0 then Next(m)
    else
      var t := Step(m);
      if t.outcome == Continue then Run(t.machine, fuel - 1) else t
  }
}
