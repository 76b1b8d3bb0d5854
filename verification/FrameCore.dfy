/** PREPARE and DISPOSE as the source runs them: register file, memory and cycle count updated in place. */
module FrameCore {
  import opened Frames

  class Core {
    const r: array<Word>
    var pc: Word
    var mem: Memory
    var realElaps: nat

    ghost predicate Valid()
      reads this
    {
      r.Length == REGS
    }

    ghost function Model(): Machine
      requires Valid()
      reads this, r
    {
      Machine(r[..], pc, mem, realElaps)
    }

    /** One iteration of the push loop; false when the bus has no word there. */
    method PushRegister(i: nat) returns (ok: bool)
      requires Valid() && i < REGS
      modifies this, r
      ensures Valid() && ok == Mapped(old(mem), Wrap(Sp(old(Model())) - 4))
      ensures Model() == if ok then Push(old(Model()), i) else old(Model())
    {
      hide Wrap, Write32, Mapped;
      var sp: int := r[SP];
      var addr := Wrap(sp - 4);
      if !Mapped(mem, addr) {
        return false;
      }
      mem := Write32(mem, addr, r[i]);
      r[SP] := addr;
      realElaps := realElaps + 1;
      ok := true;
    }

    /** One iteration of the pop loop; false when the bus has no word there. */
    method PopRegister(i: nat) returns (ok: bool)
      requires Valid() && FIRST <= i < REGS
      modifies this, r
      ensures Valid() && ok == Mapped(old(mem), Sp(old(Model())))
      ensures Model() == if ok then Pop(old(Model()), i) else old(Model())
    {
      hide Wrap, Read32, Mapped;
      var addr: int := r[SP];
      if !Mapped(mem, addr) {
        return false;
      }
      r[i] := Read32(mem, addr);
      r[SP] := Wrap(addr + 4);
      realElaps := realElaps + 1;
      ok := true;
    }

    method PushListed(list: List) returns (ok: bool)
      requires Valid()
      modifies this, r
      ensures Valid() && Outcome(ok, Model()) == PushFrom(old(Model()), list, FIRST)
    {
      hide Wrap, Mapped, Push;
      var i := FIRST;
      while i < REGS
        invariant FIRST <= i <= REGS
        invariant PushFrom(Model(), list, i) == PushFrom(old(Model()), list, FIRST)
      {
        if list[i] {
          var pushed := PushRegister(i);
          if !pushed {
            return false;
          }
        }
        i := i + 1;
      }
      ok := true;
    }

    /** op_exec_prepare */
    method ExecPrepare(code: Code) returns (ok: bool)
      requires Valid()
      modifies this, r
      ensures Valid() && Outcome(ok, Model()) == Prepare(old(Model()), code)
    {
      hide Wrap, PushFrom, LoadEp;
      ok := PushListed(code.list);
      if !ok {
        return;
      }
      var sp: int := r[SP];
      r[SP] := Wrap(sp - 4 * code.imm);
      ok := FinishPrepare(code.gen);
    }

    /** The part of op_exec_prepare that sets ep and the next pc. */
    method FinishPrepare(gen: nat) returns (ok: bool)
      requires Valid()
      modifies this, r
      ensures Valid() && Outcome(ok, Model()) == LoadEp(old(Model()), gen)
    {
      hide Wrap, Mapped, Read32, Read16;
      var subop, ff := gen % 8, gen / 8;
      var addr := Wrap(pc + 4);
      if subop == 1 {
        pc := addr;
        return true;
      }
      if !Mapped(mem, addr) {
        return false;
      }
      ok := true;
      match ff
      case 0 =>
        r[EP] := r[SP];
        pc := addr;
      case 1 =>
        r[EP] := SignExtend16(Halfword(addr));
        pc := Wrap(pc + 6);
      case 2 =>
        r[EP] := 0x1_0000 * Halfword(addr);
        pc := Wrap(pc + 6);
      case 3 =>
        r[EP] := Read32(mem, addr);
        pc := Wrap(pc + 8);
      case _ =>
        ok := false;
    }

    function Halfword(a: Word): (h: nat)
      requires Mapped(mem, a)
      reads this
      ensures h == Read16(mem, a) < 0x1_0000
    {
      Read16(mem, a)
    }

    method PopListed(list: List) returns (ok: bool)
      requires Valid()
      modifies this, r
      ensures Valid() && Outcome(ok, Model()) == PopDownTo(old(Model()), list, FIRST)
    {
      hide Wrap, Mapped, Pop;
      var i := REGS - 1;
      while i >= FIRST
        invariant FIRST - 1 <= i < REGS
        invariant PopDownTo(old(Model()), list, i + 1) == Outcome(true, Model())
      {
        if list[i] {
          var popped := PopRegister(i);
          if !popped {
            PopFailsEarly(old(Model()), list, i);
            return false;
          }
        }
        i := i - 1;
      }
      ok := true;
    }

    /** op_exec_dispose */
    method ExecDispose(code: Code) returns (ok: bool)
      requires Valid() && code.gen < REGS
      modifies this, r
      ensures Valid() && Outcome(ok, Model()) == Dispose(old(Model()), code)
    {
      hide Wrap, PopDownTo;
      realElaps := 0;
      var sp: int := r[SP];
      r[SP] := Wrap(sp + 4 * code.imm);
      ok := PopListed(code.list);
      if !ok {
        return;
      }
      if code.gen != 0 {
        realElaps := realElaps + 6;
        pc := r[code.gen];
      } else {
        realElaps := realElaps + 2;
        pc := Wrap(pc + 4);
      }
    }
  }

  /** A failed pop is the outcome of the whole loop. */
  lemma {:induction false} PopFailsEarly(m: Machine, list: List, i: nat)
    requires FIRST <= i < REGS && !PopDownTo(m, list, i).ok
    ensures PopDownTo(m, list, FIRST) == PopDownTo(m, list, i)
    decreases i
  {
    if i > FIRST {
      PopFailsEarly(m, list, i - 1);
    }
  }
}
