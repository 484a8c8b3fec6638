/**
 * The emulator object: the register file and memory are arrays updated in
 * place, pc and flag are fields, and the values PRN prints are recorded in
 * a ghost sequence.  Every method is proved to leave the object in the
 * state the matching function of module Semantics computes from the state
 * it found.
 */
module Cpu {
  import opened Semantics

  class CPU {
    const register: array<int>
    const ram: array<int>
    var pc: int
    var flag: int
    ghost var output: seq<int>

    ghost predicate Valid()
      reads this
    {
      register.Length == RegisterCount && ram.Length == RamSize && register != ram
    }

    /** The machine value this object currently stands for. */
    ghost function State(): (m: Machine)
      reads this, register, ram
      requires Valid()
      ensures WellFormed(m)
    {
      Machine(register[..], ram[..], pc, flag, output)
    }

    constructor ()
      ensures Valid() && fresh(register) && fresh(ram)
      ensures State() == Initial()
    {
      register := new int[RegisterCount](_ => 0);
      ram := new int[RamSize](_ => 0);
      pc := 0;
      flag := 0;
      output := [];
      new;
      assert register[..] == Initial().register;
      assert ram[..] == Initial().ram;
    }

    /**
     * The loader's copy loop: program goes to memory from address 0 on.  It
     * fails, after filling memory, when program does not fit.
     */
    method Seed(program: seq<int>) returns (ok: bool)
      requires Valid()
      modifies ram
      ensures Valid()
      ensures ok <==> |program| <= RamSize
      ensures State() == old(State()).(ram := Seeded(old(ram[..]), program))
    {
      var address := 0;
      while address < |program|
        invariant 0 <= address <= |program| && address <= RamSize
        invariant forall i :: 0 <= i < address ==> ram[i] == program[i]
        invariant forall i :: address <= i < RamSize ==> ram[i] == old(ram[i])
      {
        if address == RamSize {
          assert ram[..] == Seeded(old(ram[..]), program);
          return false;
        }
        ram[address] := program[address];
        address := address + 1;
      }
      assert ram[..] == Seeded(old(ram[..]), program);
      ok := true;
    }

    /** ram[mar] under Python's index rule, or None when mar is out of range. */
    function RamRead(mar: int): (r: Option<int>)
      reads this, register, ram
      requires Valid()
      ensures r == ReadRam(State(), mar)
    {
      match PyIndex(mar, RamSize)
      case None => None
      case Some(a) => Some(ram[a])
    }

    /** ram[mar] = mdr; false when mar is not a valid index. */
    method RamWrite(mar: int, mdr: int) returns (ok: bool)
      requires Valid()
      modifies ram
      ensures Valid()
      ensures ok <==> -(RamSize as int) <= mar < RamSize
      ensures ok ==> WriteRam(old(State()), mar, mdr) == Some(State())
      ensures !ok ==> State() == old(State())
    {
      var a := PyIndex(mar, RamSize);
      if a.None? {
        return false;
      }
      ram[a.value] := mdr;
      ok := true;
    }

    /** register[index] = v, or false when index is not a valid register index. */
    method RegisterWrite(index: int, v: int) returns (ok: bool)
      requires Valid()
      modifies register
      ensures Valid()
      ensures ok <==> -(RegisterCount as int) <= index < RegisterCount
      ensures ok ==> WriteReg(old(State()), index, v) == Some(State())
      ensures !ok ==> State() == old(State())
    {
      var i := PyIndex(index, RegisterCount);
      if i.None? {
        return false;
      }
      register[i.value] := v;
      ok := true;
    }

    /** register[index], or None when index is not a valid register index. */
    function RegisterRead(index: int): (r: Option<int>)
      reads this, register, ram
      requires Valid()
      ensures r == ReadReg(State(), index)
    {
      match PyIndex(index, RegisterCount)
      case None => None
      case Some(i) => Some(register[i])
    }

    method Alu(op: int, regA: int, regB: int) returns (outcome: Outcome)
      requires Valid()
      modifies this, register
      ensures Valid()
      ensures Transition(outcome, State()) == Semantics.Alu(op, regA, regB, old(State()))
    {
      if op == ADD || op == MUL {
        var x := RegisterRead(regA);
        var y := RegisterRead(regB);
        if x.None? || y.None? {
          return Error(IndexOutOfRange);
        }
        var ok := RegisterWrite(regA, if op == ADD then x.value + y.value else x.value * y.value);
        assert ok;
        pc := pc + 3;
        outcome := Continue;
      } else if op == CMP {
        flag := 0;
        if regA == regB {
          flag := EqualFlag;
        } else if regA < regB {
          flag := LessFlag;
        } else if regA > regB {
          flag := GreaterFlag;
        }
        outcome := Continue;
      } else {
        outcome := Error(UnsupportedAluOp(op));
      }
    }

    method Ldi() returns (outcome: Outcome)
      requires Valid()
      modifies this, register
      ensures Valid()
      ensures Transition(outcome, State()) == Semantics.Ldi(old(State()))
    {
      var num := RamRead(pc + 1);
      var value := RamRead(pc + 2);
      if num.None? || value.None? {
        return Error(IndexOutOfRange);
      }
      var ok := RegisterWrite(num.value, value.value);
      if !ok {
        return Error(IndexOutOfRange);
      }
      pc := pc + 3;
      outcome := Continue;
    }

    method Prn() returns (outcome: Outcome)
      requires Valid()
      modifies this
      ensures Valid()
      ensures Transition(outcome, State()) == Semantics.Prn(old(State()))
    {
      var reg := RamRead(pc + 1);
      if reg.None? {
        return Error(IndexOutOfRange);
      }
      var v := RegisterRead(reg.value);
      if v.None? {
        return Error(IndexOutOfRange);
      }
      output := output + [v.value];
      pc := pc + 2;
      outcome := Continue;
    }

    method Call() returns (outcome: Outcome)
      requires Valid()
      modifies this, register, ram
      ensures Valid()
      ensures Transition(outcome, State()) == Semantics.Call(old(State()))
    {
      register[SP] := register[SP] - 1;
      assert register[..] == old(register[..])[SP := register[SP]];
      var ok := RamWrite(register[SP], pc + 2);
      if !ok {
        return Error(IndexOutOfRange);
      }
      var reg := RamRead(pc + 1);
      if reg.None? {
        return Error(IndexOutOfRange);
      }
      var target := RegisterRead(reg.value);
      if target.None? {
        return Error(IndexOutOfRange);
      }
      pc := target.value;
      outcome := Continue;
    }

    method Ret() returns (outcome: Outcome)
      requires Valid()
      modifies this, register
      ensures Valid()
      ensures Transition(outcome, State()) == Semantics.Ret(old(State()))
    {
      var target := RamRead(register[SP]);
      if target.None? {
        return Error(IndexOutOfRange);
      }
      pc := target.value;
      register[SP] := register[SP] + 1;
      assert register[..] == old(register[..])[SP := register[SP]];
      outcome := Continue;
    }

    method Push() returns (outcome: Outcome)
      requires Valid()
      modifies this, register, ram
      ensures Valid()
      ensures Transition(outcome, State()) == Semantics.Push(old(State()))
    {
      var reg := RamRead(pc + 1);
      if reg.None? {
        return Error(IndexOutOfRange);
      }
      var v := RegisterRead(reg.value);
      if v.None? {
        return Error(IndexOutOfRange);
      }
      register[SP] := register[SP] - 1;
      assert register[..] == old(register[..])[SP := register[SP]];
      var ok := RamWrite(register[SP], v.value);
      if !ok {
        return Error(IndexOutOfRange);
      }
      pc := pc + 2;
      outcome := Continue;
    }

    method Pop() returns (outcome: Outcome)
      requires Valid()
      modifies this, register
      ensures Valid()
      ensures Transition(outcome, State()) == Semantics.Pop(old(State()))
    {
      var reg := RamRead(pc + 1);
      if reg.None? {
        return Error(IndexOutOfRange);
      }
      var v := RamRead(register[SP]);
      if v.None? {
        return Error(IndexOutOfRange);
      }
      var ok := RegisterWrite(reg.value, v.value);
      if !ok {
        return Error(IndexOutOfRange);
      }
      ghost var written := register[..];
      register[SP] := register[SP] + 1;
      assert register[..] == written[SP := register[SP]];
      pc := pc + 2;
      outcome := Continue;
    }

    /** JMP, and a taken JEQ or JNE: pc := register[operand]. */
    method Jump() returns (outcome: Outcome)
      requires Valid()
      modifies this
      ensures Valid()
      ensures Transition(outcome, State()) == Semantics.Jump(old(State()))
    {
      var op := RamRead(pc + 1);
      if op.None? {
        return Error(IndexOutOfRange);
      }
      var target := RegisterRead(op.value);
      if target.None? {
        return Error(IndexOutOfRange);
      }
      pc := target.value;
      outcome := Continue;
    }

    method JumpIf(jump: bool) returns (outcome: Outcome)
      requires Valid()
      modifies this
      ensures Valid()
      ensures Transition(outcome, State()) == Semantics.JumpIf(jump, old(State()))
    {
      var op := RamRead(pc + 1);
      if op.None? {
        return Error(IndexOutOfRange);
      }
      if jump {
        outcome := Jump();
      } else {
        pc := pc + 2;
        outcome := Continue;
      }
    }

    /** One iteration of the run loop. */
    method Step() returns (outcome: Outcome)
      requires Valid()
      modifies this, register, ram
      ensures Valid()
      ensures Transition(outcome, State()) == Semantics.Step(old(State()))
    {
      var fetched := RamRead(pc);
      if fetched.None? {
        return Error(IndexOutOfRange);
      }
      var ir := fetched.value;
      if ir == LDI {
        outcome := Ldi();
      } else if ir == PRN {
        outcome := Prn();
      } else if ir == HLT {
        pc := pc + 1;
        outcome := Halted;
      } else if ir == CALL {
        outcome := Call();
      } else if ir == RET {
        outcome := Ret();
      } else if ir == PUSH {
        outcome := Push();
      } else if ir == POP {
        outcome := Pop();
      } else if ir == ADD || ir == MUL || ir == CMP {
        var a := RamRead(pc + 1);
        var b := RamRead(pc + 2);
        if a.None? || b.None? {
          return Error(IndexOutOfRange);
        }
        outcome := Alu(ir, a.value, b.value);
        if ir == CMP && outcome == Continue {
          pc := pc + 3;
        }
      } else if ir == JMP {
        outcome := Jump();
      } else if ir == JEQ {
        outcome := JumpIf(flag == EqualFlag);
      } else if ir == JNE {
        outcome := JumpIf(flag != EqualFlag);
      } else {
        outcome := Error(UnknownInstruction(ir));
      }
    }

    /** The run loop, bounded by fuel iterations. */
    method Run(fuel: nat) returns (outcome: Outcome)
      requires Valid()
      modifies this, register, ram
      ensures Valid()
      ensures Transition(outcome, State()) == Semantics.Run(old(State()), fuel)
    {
      var remaining := fuel;
      var running := true;
      outcome := Continue;
      while running && remaining > 0
        invariant running <==> outcome == Continue
        invariant running ==> Semantics.Run(State(), remaining) == Semantics.Run(old(State()), fuel)
        invariant !running ==> Transition(outcome, State()) == Semantics.Run(old(State()), fuel)
        decreases remaining
      {
        outcome := Step();
        remaining := remaining - 1;
        running := outcome == Continue;
      }
    }
  }
}
