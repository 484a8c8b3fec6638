/**
 * What each instruction does, the stack round trips, and facts about the
 * bounded run loop, all stated over the functions of module Semantics.
 */
module Properties {
  import opened Semantics

  /** Every opcode the dispatcher recognises. */
  const Opcodes: set<int> := {LDI, PRN, HLT, CALL, RET, PUSH, POP, ADD, MUL, CMP, JMP, JEQ, JNE}

  /** m1 differs from m at most in the register that index names, and in pc. */
  predicate OnlyRegisterChanged(m: Machine, m1: Machine, index: int)
    requires WellFormed(m) && WellFormed(m1)
  {
    && m1.ram == m.ram && m1.flag == m.flag && m1.output == m.output
    && forall j :: 0 <= j < RegisterCount && PyIndex(index, RegisterCount) != Some(j) ==>
         m1.register[j] == m.register[j]
  }

  /** ram_write followed by ram_read of the same address gives the value back; other cells keep theirs. */
  lemma WriteThenRead(m: Machine, addr: int, v: int, other: int)
    requires WellFormed(m) && -(RamSize as int) <= addr < RamSize
    ensures WriteRam(m, addr, v).Some?
    ensures ReadRam(WriteRam(m, addr, v).value, addr) == Some(v)
    ensures PyIndex(other, RamSize) != PyIndex(addr, RamSize) ==>
      ReadRam(WriteRam(m, addr, v).value, other) == ReadRam(m, other)
  {
  }

  lemma LdiEffect(m: Machine, num: int, value: int)
    requires WellFormed(m)
    requires ReadRam(m, m.pc) == Some(LDI)
    requires ReadRam(m, m.pc + 1) == Some(num) && ReadRam(m, m.pc + 2) == Some(value)
    ensures var t := Step(m);
      && (t.outcome == Continue <==> ReadReg(m, num).Some?)
      && (t.outcome == Continue ==>
            ReadReg(t.machine, num) == Some(value) && t.machine.pc == m.pc + 3
            && OnlyRegisterChanged(m, t.machine, num))
      && (t.outcome != Continue ==> t == Transition(Error(IndexOutOfRange), m))
  {
  }

  lemma PrnEffect(m: Machine, reg: int)
    requires WellFormed(m)
    requires ReadRam(m, m.pc) == Some(PRN) && ReadRam(m, m.pc + 1) == Some(reg)
    ensures var t := Step(m);
      && (t.outcome == Continue <==> ReadReg(m, reg).Some?)
      && (t.outcome == Continue ==>
            t.machine == m.(output := m.output + [ReadReg(m, reg).value], pc := m.pc + 2))
      && (t.outcome != Continue ==> t == Transition(Error(IndexOutOfRange), m))
  {
  }

  /** HLT stops the loop, moves pc past itself and changes nothing else. */
  lemma HltEffect(m: Machine)
    requires WellFormed(m) && ReadRam(m, m.pc) == Some(HLT)
    ensures Step(m) == Transition(Halted, m.(pc := m.pc + 1))
    ensures forall fuel: nat :: fuel > 0 ==> Run(m, fuel) == Step(m)
  {
  }

  /** A fetched byte outside the opcode table, and only such a byte, is an unknown instruction. */
  lemma UnknownOpcode(m: Machine, ir: int)
    requires WellFormed(m) && ReadRam(m, m.pc) == Some(ir)
    ensures Step(m).outcome == Error(UnknownInstruction(ir)) <==> ir !in Opcodes
    ensures ir !in Opcodes ==> Step(m).machine == m
  {
  }

  /** An instruction address outside the memory ends the step with nothing changed. */
  lemma FetchFails(m: Machine)
    requires WellFormed(m) && ReadRam(m, m.pc).None?
    ensures Step(m) == Transition(Error(IndexOutOfRange), m)
  {
  }

  /**
   * For every instruction that reads its operand bytes before changing
   * anything (all but CALL, which has none before its first store, and the
   * operand-free HLT and RET), an operand byte outside the memory ends the
   * step with nothing changed.
   */
  lemma OperandFetchFails(m: Machine, ir: int)
    requires WellFormed(m) && ReadRam(m, m.pc) == Some(ir)
    requires ir in {LDI, PRN, PUSH, POP, ADD, MUL, CMP, JMP, JEQ, JNE}
    requires ReadRam(m, m.pc + 1).None? || (ir in {LDI, ADD, MUL, CMP} && ReadRam(m, m.pc + 2).None?)
    ensures Step(m) == Transition(Error(IndexOutOfRange), m)
  {
  }

  /**
   * CALL's failures keep what it did before them: a stack cell out of range
   * leaves the decremented stack pointer; after the return address is stored,
   * an operand byte or register index out of range leaves both updates.
   */
  lemma CallFails(m: Machine)
    requires WellFormed(m) && ReadRam(m, m.pc) == Some(CALL)
    ensures var sp := m.register[SP] - 1;
      PyIndex(sp, RamSize).None? ==>
        Step(m) == Transition(Error(IndexOutOfRange), WithSP(m, sp))
    ensures var sp := m.register[SP] - 1;
      PyIndex(sp, RamSize).Some? ==>
        var stored := WithSP(m, sp).(ram := m.ram[PyIndex(sp, RamSize).value := m.pc + 2]);
        && (ReadRam(stored, m.pc + 1).None? ==>
              Step(m) == Transition(Error(IndexOutOfRange), stored))
        && (ReadRam(stored, m.pc + 1).Some? && ReadReg(stored, ReadRam(stored, m.pc + 1).value).None? ==>
              Step(m) == Transition(Error(IndexOutOfRange), stored))
  {
  }

  /** The ALU accepts exactly ADD, MUL and CMP. */
  lemma AluRejectsOtherOps(op: int, regA: int, regB: int, m: Machine)
    requires WellFormed(m)
    ensures Alu(op, regA, regB, m).outcome == Error(UnsupportedAluOp(op)) <==> op !in {ADD, MUL, CMP}
    ensures op !in {ADD, MUL, CMP} ==> Alu(op, regA, regB, m).machine == m
  {
  }

  /**
   * The ALU on its own: ADD and MUL update register a and move pc by 3
   * themselves; CMP only sets the flag word from the operand values and
   * leaves pc alone.
   */
  lemma AluEffect(op: int, a: int, b: int, m: Machine)
    requires WellFormed(m) && op in {ADD, MUL, CMP}
    ensures var t := Alu(op, a, b, m);
      op != CMP ==>
        && (t.outcome == Continue <==> ReadReg(m, a).Some? && ReadReg(m, b).Some?)
        && (t.outcome == Continue ==>
              var x, y := ReadReg(m, a).value, ReadReg(m, b).value;
              && ReadReg(t.machine, a) == Some(if op == ADD then x + y else x * y)
              && t.machine.pc == m.pc + 3
              && OnlyRegisterChanged(m, t.machine, a))
        && (t.outcome != Continue ==> t == Transition(Error(IndexOutOfRange), m))
    ensures var t := Alu(op, a, b, m);
      op == CMP ==>
        && t.outcome == Continue
        && t.machine == m.(flag := t.machine.flag)
        && (t.machine.flag == EqualFlag <==> a == b)
        && (t.machine.flag == LessFlag <==> a < b)
        && (t.machine.flag == GreaterFlag <==> a > b)
  {
  }

  /** ADD and MUL: register[a] becomes register[a] + (or *) register[b], unbounded, and pc moves by 3. */
  lemma AddMulEffect(m: Machine, ir: int, a: int, b: int)
    requires WellFormed(m)
    requires ir == ADD || ir == MUL
    requires ReadRam(m, m.pc) == Some(ir)
    requires ReadRam(m, m.pc + 1) == Some(a) && ReadRam(m, m.pc + 2) == Some(b)
    ensures var t := Step(m);
      && (t.outcome == Continue <==> ReadReg(m, a).Some? && ReadReg(m, b).Some?)
      && (t.outcome == Continue ==>
            var x, y := ReadReg(m, a).value, ReadReg(m, b).value;
            && ReadReg(t.machine, a) == Some(if ir == ADD then x + y else x * y)
            && t.machine.pc == m.pc + 3
            && OnlyRegisterChanged(m, t.machine, a))
      && (t.outcome != Continue ==> t == Transition(Error(IndexOutOfRange), m))
  {
  }

  /**
   * CMP sets the flag to exactly one of the three values by comparing the
   * operand bytes, moves pc by 3 and changes nothing else.
   */
  lemma CmpEffect(m: Machine, a: int, b: int)
    requires WellFormed(m)
    requires ReadRam(m, m.pc) == Some(CMP)
    requires ReadRam(m, m.pc + 1) == Some(a) && ReadRam(m, m.pc + 2) == Some(b)
    ensures var t := Step(m);
      && t.outcome == Continue
      && t.machine == m.(flag := t.machine.flag, pc := m.pc + 3)
      && t.machine.flag in {EqualFlag, GreaterFlag, LessFlag}
      && (t.machine.flag == EqualFlag <==> a == b)
      && (t.machine.flag == LessFlag <==> a < b)
      && (t.machine.flag == GreaterFlag <==> a > b)
  {
  }

  lemma JmpEffect(m: Machine, op: int)
    requires WellFormed(m)
    requires ReadRam(m, m.pc) == Some(JMP) && ReadRam(m, m.pc + 1) == Some(op)
    ensures var t := Step(m);
      && (t.outcome == Continue <==> ReadReg(m, op).Some?)
      && (t.outcome == Continue ==> t.machine == m.(pc := ReadReg(m, op).value))
      && (t.outcome != Continue ==> t == Transition(Error(IndexOutOfRange), m))
  {
  }

  /**
   * JEQ jumps exactly when the flag word is 1 and JNE exactly when it is not;
   * a jump not taken moves pc by 2 and reads no register.
   */
  lemma ConditionalJumpEffect(m: Machine, ir: int, op: int)
    requires WellFormed(m)
    requires ir == JEQ || ir == JNE
    requires ReadRam(m, m.pc) == Some(ir) && ReadRam(m, m.pc + 1) == Some(op)
    ensures var taken := (ir == JEQ) == (m.flag == EqualFlag);
      var t := Step(m);
      && (taken ==> t == Jump(m) && (t.outcome == Continue <==> ReadReg(m, op).Some?))
      && (taken && t.outcome == Continue ==> t.machine == m.(pc := ReadReg(m, op).value))
      && (!taken ==> t == Next(m.(pc := m.pc + 2)))
      && (t.outcome != Continue ==> t == Transition(Error(IndexOutOfRange), m))
  {
  }

  /**
   * CMP a b followed by JEQ r: the jump is taken exactly when the two operand
   * bytes are equal (the register values are not consulted).  Register r is
   * read only when the jump is taken.
   */
  lemma CmpThenJeq(m: Machine, a: int, b: int, r: int)
    requires WellFormed(m)
    requires ReadRam(m, m.pc) == Some(CMP)
    requires ReadRam(m, m.pc + 1) == Some(a) && ReadRam(m, m.pc + 2) == Some(b)
    requires ReadRam(m, m.pc + 3) == Some(JEQ) && ReadRam(m, m.pc + 4) == Some(r)
    requires a == b ==> ReadReg(m, r).Some?
    ensures Run(m, 2).outcome == Continue
    ensures Run(m, 2).machine.pc == if a == b then ReadReg(m, r).value else m.pc + 5
    ensures Run(m, 2).machine.register == m.register && Run(m, 2).machine.ram == m.ram
  {
    CmpEffect(m, a, b);
    var m1 := Step(m).machine;
    ConditionalJumpEffect(m1, JEQ, r);
  }

  /**
   * CMP a b followed by JNE r: the jump is taken exactly when the two operand
   * bytes differ.  Register r is read only when the jump is taken.
   */
  lemma CmpThenJne(m: Machine, a: int, b: int, r: int)
    requires WellFormed(m)
    requires ReadRam(m, m.pc) == Some(CMP)
    requires ReadRam(m, m.pc + 1) == Some(a) && ReadRam(m, m.pc + 2) == Some(b)
    requires ReadRam(m, m.pc + 3) == Some(JNE) && ReadRam(m, m.pc + 4) == Some(r)
    requires a != b ==> ReadReg(m, r).Some?
    ensures Run(m, 2).outcome == Continue
    ensures Run(m, 2).machine.pc == if a != b then ReadReg(m, r).value else m.pc + 5
    ensures Run(m, 2).machine.register == m.register && Run(m, 2).machine.ram == m.ram
  {
    CmpEffect(m, a, b);
    var m1 := Step(m).machine;
    ConditionalJumpEffect(m1, JNE, r);
  }

  /** LDI r, v immediately followed by PRN r prints exactly v. */
  lemma LdiThenPrn(m: Machine, r: int, v: int)
    requires WellFormed(m)
    requires ReadRam(m, m.pc) == Some(LDI)
    requires ReadRam(m, m.pc + 1) == Some(r) && ReadRam(m, m.pc + 2) == Some(v)
    requires ReadRam(m, m.pc + 3) == Some(PRN) && ReadRam(m, m.pc + 4) == Some(r)
    requires ReadReg(m, r).Some?
    ensures Run(m, 2).outcome == Continue
    ensures Run(m, 2).machine.output == m.output + [v]
    ensures Run(m, 2).machine.pc == m.pc + 5
  {
    LdiEffect(m, r, v);
    var m1 := Step(m).machine;
    PrnEffect(m1, r);
  }

  /**
   * PUSH ra: the value of ra is read first, then the stack pointer goes down
   * by one and the value is stored in the cell it then names; pc moves by 2.
   * A bad operand or register index changes nothing; a stack cell out of
   * range leaves only the decremented stack pointer behind.
   */
  lemma PushEffect(m: Machine, ra: int)
    requires WellFormed(m)
    requires ReadRam(m, m.pc) == Some(PUSH) && ReadRam(m, m.pc + 1) == Some(ra)
    ensures var t := Step(m);
      var sp := m.register[SP] - 1;
      && (t.outcome == Continue <==> ReadReg(m, ra).Some? && PyIndex(sp, RamSize).Some?)
      && (t.outcome == Continue ==>
            t.machine == m.(register := m.register[SP := sp],
                            ram := m.ram[PyIndex(sp, RamSize).value := ReadReg(m, ra).value],
                            pc := m.pc + 2))
      && (ReadReg(m, ra).None? ==> t == Transition(Error(IndexOutOfRange), m))
      && (ReadReg(m, ra).Some? && PyIndex(sp, RamSize).None? ==>
            t == Transition(Error(IndexOutOfRange), m.(register := m.register[SP := sp])))
  {
  }

  /**
   * POP rb: the cell the stack pointer names is stored into rb, then the
   * stack pointer (as it stands after that store) goes up by one; pc moves
   * by 2 and nothing else changes.  Any bad index changes nothing.
   */
  lemma PopEffect(m: Machine, rb: int)
    requires WellFormed(m)
    requires ReadRam(m, m.pc) == Some(POP) && ReadRam(m, m.pc + 1) == Some(rb)
    ensures var t := Step(m);
      && (t.outcome == Continue <==> ReadRam(m, m.register[SP]).Some? && ReadReg(m, rb).Some?)
      && (t.outcome == Continue ==>
            var written := m.register[PyIndex(rb, RegisterCount).value := ReadRam(m, m.register[SP]).value];
            t.machine == m.(register := written[SP := written[SP] + 1], pc := m.pc + 2))
      && (t.outcome != Continue ==> t == Transition(Error(IndexOutOfRange), m))
  {
  }

  /**
   * RET: pc becomes the cell the stack pointer names and the stack pointer
   * goes up by one; nothing else changes.  A stack cell out of range changes
   * nothing.
   */
  lemma RetEffect(m: Machine)
    requires WellFormed(m)
    requires ReadRam(m, m.pc) == Some(RET)
    ensures var t := Step(m);
      && (t.outcome == Continue <==> ReadRam(m, m.register[SP]).Some?)
      && (t.outcome == Continue ==>
            t.machine == m.(register := m.register[SP := m.register[SP] + 1],
                            pc := ReadRam(m, m.register[SP]).value))
      && (t.outcome != Continue ==> t == Transition(Error(IndexOutOfRange), m))
  {
  }

  /**
   * PUSH ra, then, at any later point where the stack pointer is back where
   * the PUSH left it and that stack cell still holds what the PUSH stored,
   * POP rb (rb not the stack pointer) puts the pushed value in rb and
   * restores the stack pointer to its value before the PUSH.
   */
  lemma PushThenPop(m: Machine, ra: int, u: Machine, rb: int)
    requires WellFormed(m) && WellFormed(u)
    requires ReadRam(m, m.pc) == Some(PUSH) && ReadRam(m, m.pc + 1) == Some(ra)
    requires Step(m).outcome == Continue
    requires u.register[SP] == Step(m).machine.register[SP]
    requires ReadRam(u, u.register[SP]) == ReadRam(Step(m).machine, u.register[SP])
    requires ReadRam(u, u.pc) == Some(POP) && ReadRam(u, u.pc + 1) == Some(rb)
    requires ReadReg(u, rb).Some? && PyIndex(rb, RegisterCount) != Some(SP)
    ensures Step(u).outcome == Continue
    ensures ReadReg(Step(u).machine, rb) == ReadReg(m, ra)
    ensures Step(u).machine.register[SP] == m.register[SP]
    ensures Step(u).machine.pc == u.pc + 2
  {
    var m1 := Step(m).machine;
    assert ReadRam(m1, m1.register[SP]) == ReadReg(m, ra);
  }

  /** The adjacent case: PUSH ra; POP rb executed back to back. */
  lemma PushPopAdjacent(m: Machine, ra: int, rb: int)
    requires WellFormed(m)
    requires ReadRam(m, m.pc) == Some(PUSH) && ReadRam(m, m.pc + 1) == Some(ra)
    requires ReadReg(m, ra).Some? && -(RamSize as int) <= m.register[SP] - 1 < RamSize
    requires ReadRam(Step(m).machine, m.pc + 2) == Some(POP)
    requires ReadRam(Step(m).machine, m.pc + 3) == Some(rb)
    requires ReadReg(m, rb).Some? && PyIndex(rb, RegisterCount) != Some(SP)
    ensures Run(m, 2).outcome == Continue
    ensures ReadReg(Run(m, 2).machine, rb) == ReadReg(m, ra)
    ensures Run(m, 2).machine.register[SP] == m.register[SP]
    ensures Run(m, 2).machine.pc == m.pc + 4
  {
    var m1 := Step(m).machine;
    PushThenPop(m, ra, m1, rb);
  }

  /**
   * CALL at address p, then, at any later RET that finds the stack pointer
   * where the CALL left it and that stack cell untouched: the RET resumes at
   * p + 2, restores the stack pointer to its value before the CALL and
   * changes nothing else.
   */
  lemma CallThenRet(m: Machine, u: Machine)
    requires WellFormed(m) && WellFormed(u)
    requires ReadRam(m, m.pc) == Some(CALL) && Step(m).outcome == Continue
    requires u.register[SP] == Step(m).machine.register[SP]
    requires ReadRam(u, u.register[SP]) == ReadRam(Step(m).machine, u.register[SP])
    requires ReadRam(u, u.pc) == Some(RET)
    ensures Step(u) == Next(WithSP(u.(pc := m.pc + 2), m.register[SP]))
  {
    var m1 := Step(m).machine;
    assert ReadRam(m1, m1.register[SP]) == Some(m.pc + 2);
  }

  /**
   * CALL r: the stack pointer goes down by one, the cell it then names
   * holds the address after the CALL, and pc becomes register r.  Stated for
   * a call whose stack cell is not its own operand byte and whose target
   * register is not the stack pointer.
   */
  lemma CallEffect(m: Machine, reg: int)
    requires WellFormed(m)
    requires ReadRam(m, m.pc) == Some(CALL) && ReadRam(m, m.pc + 1) == Some(reg)
    requires PyIndex(m.register[SP] - 1, RamSize).Some?
    requires PyIndex(m.register[SP] - 1, RamSize) != PyIndex(m.pc + 1, RamSize)
    requires ReadReg(m, reg).Some? && PyIndex(reg, RegisterCount) != Some(SP)
    ensures var t := Step(m);
      && t.outcome == Continue
      && t.machine == m.(register := m.register[SP := m.register[SP] - 1],
                         ram := m.ram[PyIndex(m.register[SP] - 1, RamSize).value := m.pc + 2],
                         pc := ReadReg(m, reg).value)
      && ReadRam(t.machine, m.register[SP] - 1) == Some(m.pc + 2)
  {
  }

  /**
   * Which instructions touch what: only CALL and PUSH write memory, only CMP
   * changes the flag word and only PRN prints.
   */
  lemma StepFrame(m: Machine, ir: int)
    requires WellFormed(m) && ReadRam(m, m.pc) == Some(ir)
    ensures ir != CALL && ir != PUSH ==> Step(m).machine.ram == m.ram
    ensures ir != CMP ==> Step(m).machine.flag == m.flag
    ensures ir != PRN ==> Step(m).machine.output == m.output
  {
  }

  /** Running a + b iterations is running a, then b more if the machine is still running. */
  lemma {:induction false} RunAdditive(m: Machine, a: nat, b: nat)
    requires WellFormed(m)
    ensures Run(m, a + b) == (var t := Run(m, a); if t.outcome == Continue then Run(t.machine, b) else t)
    decreases a
  {
    if a > 0 {
      var t := Step(m);
      assert Run(m, a) == if t.outcome == Continue then Run(t.machine, a - 1) else t;
      assert Run(m, a + b) == if t.outcome == Continue then Run(t.machine, (a - 1) + b) else t;
      if t.outcome == Continue {
        RunAdditive(t.machine, a - 1, b);
      }
    }
  }

  /** Once the loop has halted, more fuel changes nothing. */
  lemma {:induction false} RunHaltedIsFinal(m: Machine, a: nat, b: nat)
    requires WellFormed(m) && Run(m, a).outcome == Halted
    ensures Run(m, a + b) == Run(m, a)
  {
    RunAdditive(m, a, b);
  }

  /** LDI R0,8; LDI R1,9; MUL R0,R1; PRN R0; HLT prints 72 and halts. */
  lemma MultiplyProgram()
    ensures var t := Run(Loaded([LDI, 0, 8, LDI, 1, 9, MUL, 0, 1, PRN, 0, HLT]).value, 5);
      t.outcome == Halted && t.machine.output == [72] && t.machine.pc == 12
  {
    var m0 := Loaded([LDI, 0, 8, LDI, 1, 9, MUL, 0, 1, PRN, 0, HLT]).value;
    LdiEffect(m0, 0, 8);
    var m1 := Step(m0).machine;
    LdiEffect(m1, 1, 9);
    var m2 := Step(m1).machine;
    AddMulEffect(m2, MUL, 0, 1);
    var m3 := Step(m2).machine;
    PrnEffect(m3, 0);
    var m4 := Step(m3).machine;
    HltEffect(m4);
  }
}
