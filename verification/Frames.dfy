/**
  PREPARE and DISPOSE (op_exec_prepare and op_exec_dispose in src/cpu/cpu_exec/op_exec_spec.c):
  the push and pop loops over list12 and what they do to each other across nested calls. PSW.IMP and
  PSW.DMP are trusted, so the permission checks pass.
 */
module Frames {
  const SPACE := 0x1_0000_0000
  const SP := 3
  const EP := 30
  const FIRST := 20   // start_reg
  const REGS := 32

  type Word = w: int | 0 <= w < SPACE
  type Byte = b: int | 0 <= b < 256
  type Registers = r: seq<Word> | |r| == REGS witness seq(REGS, _ => 0)
  type List = l: seq<bool> | |l| == REGS witness seq(REGS, _ => false)

  /** Mapped memory, byte by byte; the bus hands out a pointer only where a whole word is mapped. */
  type Memory = map<int, Byte>

  datatype Machine = Machine(r: Registers, pc: Word, mem: Memory, elaps: nat)

  /** The fields of the type-13 format that the two instructions use. */
  datatype Code = Code(list: List, imm: nat, gen: nat)

  /** `ok` is the source's return value 0; on -1 the machine keeps what was done so far. */
  datatype Outcome = Outcome(ok: bool, m: Machine)

  function Wrap(x: int): Word { x % SPACE }

  function Sp(m: Machine): int { m.r[SP] }

  function SetSp(m: Machine, sp: Word): Machine { m.(r := m.r[SP := sp]) }

  function ByteAt(mem: Memory, a: int): int
    requires a in mem
  {
    mem[a]
  }

  predicate Mapped(mem: Memory, a: Word) {
    a in mem && Wrap(a + 1) in mem && Wrap(a + 2) in mem && Wrap(a + 3) in mem
  }

  function Read32(mem: Memory, a: Word): Word
    requires Mapped(mem, a)
  {
    ByteAt(mem, a) + 0x100 * ByteAt(mem, Wrap(a + 1))
    + 0x1_0000 * ByteAt(mem, Wrap(a + 2)) + 0x100_0000 * ByteAt(mem, Wrap(a + 3))
  }

  function Read16(mem: Memory, a: Word): nat
    requires Mapped(mem, a)
  {
    ByteAt(mem, a) + 0x100 * ByteAt(mem, Wrap(a + 1))
  }

  function Write32(mem: Memory, a: Word, v: Word): Memory {
    mem[a := v % 0x100][Wrap(a + 1) := v / 0x100 % 0x100]
       [Wrap(a + 2) := v / 0x1_0000 % 0x100][Wrap(a + 3) := v / 0x100_0000]
  }

  // ---- the two loops -----------------------------------------------------------------------

  function Push(m: Machine, i: nat): Machine
    requires i < REGS
  {
    var a := Wrap(Sp(m) - 4);
    SetSp(m.(mem := Write32(m.mem, a, m.r[i]), elaps := m.elaps + 1), a)
  }

  /** The push loop from register i upwards. */
  function PushFrom(m: Machine, list: List, i: nat): Outcome
    requires i <= REGS
    decreases REGS - i
  {
    if i == REGS then Outcome(true, m)
    else if !list[i] then PushFrom(m, list, i + 1)
    else if !Mapped(m.mem, Wrap(Sp(m) - 4)) then Outcome(false, m)
    else PushFrom(Push(m, i), list, i + 1)
  }

  function Pop(m: Machine, i: nat): Machine
    requires FIRST <= i < REGS && Mapped(m.mem, Sp(m))
  {
    SetSp(m.(r := m.r[i := Read32(m.mem, Sp(m))], elaps := m.elaps + 1), Wrap(Sp(m) + 4))
  }

  /** The pop loop from register 31 down to register i. */
  function PopDownTo(m: Machine, list: List, i: nat): Outcome
    requires FIRST <= i <= REGS
    decreases REGS - i
  {
    if i == REGS then Outcome(true, m)
    else
      var rest := PopDownTo(m, list, i + 1);
      if !rest.ok || !list[i] then rest
      else if !Mapped(rest.m.mem, Sp(rest.m)) then Outcome(false, rest.m)
      else Outcome(true, Pop(rest.m, i))
  }

  // ---- the instructions --------------------------------------------------------------------

  function SignExtend16(h: nat): Word
    requires h < 0x1_0000
  {
    if h < 0x8000 then h else h + 0xFFFF_0000
  }

  /** What PREPARE does after the frame is laid out. */
  function LoadEp(m: Machine, gen: nat): Outcome {
    var a := Wrap(m.pc + 4);
    if gen % 8 == 1 then Outcome(true, m.(pc := a))
    else if !Mapped(m.mem, a) then Outcome(false, m)
    else if gen / 8 == 0 then Outcome(true, m.(r := m.r[EP := Sp(m)], pc := a))
    else if gen / 8 == 1 then Outcome(true, m.(r := m.r[EP := SignExtend16(Read16(m.mem, a))], pc := Wrap(m.pc + 6)))
    else if gen / 8 == 2 then Outcome(true, m.(r := m.r[EP := 0x1_0000 * Read16(m.mem, a)], pc := Wrap(m.pc + 6)))
    else if gen / 8 == 3 then Outcome(true, m.(r := m.r[EP := Read32(m.mem, a)], pc := Wrap(m.pc + 8)))
    else Outcome(false, m)
  }

  function Prepare(m: Machine, code: Code): Outcome {
    var pushed := PushFrom(m, code.list, FIRST);
    if !pushed.ok then pushed
    else LoadEp(SetSp(pushed.m, Wrap(Sp(pushed.m) - 4 * code.imm)), code.gen)
  }

  function Dispose(m: Machine, code: Code): Outcome
    requires code.gen < REGS
  {
    var start := SetSp(m.(elaps := 0), Wrap(Sp(m) + 4 * code.imm));
    var popped := PopDownTo(start, code.list, FIRST);
    if !popped.ok then popped
    else if code.gen != 0 then Outcome(true, popped.m.(pc := popped.m.r[code.gen], elaps := popped.m.elaps + 6))
    else Outcome(true, popped.m.(pc := Wrap(popped.m.pc + 4), elaps := popped.m.elaps + 2))
  }

  // ---- words -------------------------------------------------------------------------------

  lemma BytesOfWord(v: Word)
    ensures v == v % 0x100 + 0x100 * (v / 0x100 % 0x100) + 0x1_0000 * (v / 0x1_0000 % 0x100)
                 + 0x100_0000 * (v / 0x100_0000)
  {
    assert v / 0x100 / 0x100 == v / 0x1_0000;
    assert v / 0x1_0000 / 0x100 == v / 0x100_0000;
  }

  lemma ReadBack(mem: Memory, a: Word, v: Word)
    ensures Mapped(Write32(mem, a, v), a) && Read32(Write32(mem, a, v), a) == v
  {
    BytesOfWord(v);
  }

  /** Every register pushed or popped costs one clock. */
  lemma {:induction false} PushClocks(m: Machine, list: List, i: nat)
    requires i <= REGS && PushFrom(m, list, i).ok
    ensures PushFrom(m, list, i).m.elaps == m.elaps + Count(list, i)
    decreases REGS - i
  {
    hide Wrap, Write32, Mapped;
    if i < REGS { if list[i] { PushClocks(Push(m, i), list, i + 1); } else { PushClocks(m, list, i + 1); } }
  }

  lemma {:induction false} PopClocks(m: Machine, list: List, i: nat)
    requires FIRST <= i <= REGS && PopDownTo(m, list, i).ok
    ensures PopDownTo(m, list, i).m.elaps == m.elaps + Count(list, i)
    decreases REGS - i
  {
    hide Wrap, Read32, Mapped;
    if i < REGS { PopClocks(m, list, i + 1); }
  }

  /**
    What the two instructions cost: PREPARE one clock for each listed register on top of its own, DISPOSE
    the same and two more, or six with a jump, counted from zero.
   */
  lemma FrameClocks(m: Machine, code: Code)
    requires code.gen < REGS
    ensures Prepare(m, code).ok ==> Prepare(m, code).m.elaps == m.elaps + Count(code.list, FIRST)
    ensures Dispose(m, code).ok ==>
              Dispose(m, code).m.elaps == Count(code.list, FIRST) + if code.gen == 0 then 2 else 6
  {
    if Prepare(m, code).ok { PrepareClocks(m, code); }
    if Dispose(m, code).ok { DisposeClocks(m, code); }
    hide *;
  }

  lemma PrepareClocks(m: Machine, code: Code)
    requires Prepare(m, code).ok
    ensures Prepare(m, code).m.elaps == m.elaps + Count(code.list, FIRST)
  {
    hide Wrap, PushFrom, LoadEp, Count;
    var pushed := PushFrom(m, code.list, FIRST).m;
    PushClocks(m, code.list, FIRST);
    LoadEpKeeps(SetSp(pushed, Wrap(Sp(pushed) - 4 * code.imm)), code.gen);
  }

  lemma DisposeClocks(m: Machine, code: Code)
    requires code.gen < REGS && Dispose(m, code).ok
    ensures Dispose(m, code).m.elaps == Count(code.list, FIRST) + if code.gen == 0 then 2 else 6
  {
    hide Wrap, PopDownTo, Count;
    PopClocks(SetSp(m.(elaps := 0), Wrap(Sp(m) + 4 * code.imm)), code.list, FIRST);
  }

  /** How far `a` lies above `base`, going round the address space. */
  function Above(a: int, base: int): Word { Wrap(a - base) }

  lemma AboveLower(a: Word, sp: int)
    requires 0 <= sp < SPACE && Above(a, sp) < SPACE - 4
    ensures Above(a, Wrap(sp - 4)) == Above(a, sp) + 4
    ensures var low := Wrap(sp - 4); a != low && a != Wrap(low + 1) && a != Wrap(low + 2) && a != Wrap(low + 3)
  {
    var low: int := Wrap(sp - 4);
    WrapOnce(sp - 4);
    WrapOnce(a - sp);
    WrapOnce(a - low);
    WrapOnce(low + 1);
    WrapOnce(low + 2);
    WrapOnce(low + 3);
    hide Wrap;
  }

  lemma WrapOnce(x: int)
    requires -SPACE <= x < 2 * SPACE
    ensures Wrap(x) == if x < 0 then x + SPACE else if x < SPACE then x else x - SPACE
  {
  }

  lemma AboveNear(a: int, k: nat)
    requires 0 <= a < SPACE && k < 4
    ensures Above(Wrap(a + k), a) == k
  {
  }

  lemma WriteKeeps(mem: Memory, a: Word, v: Word, b: int)
    requires b != a && b != Wrap(a + 1) && b != Wrap(a + 2) && b != Wrap(a + 3) && b in mem
    ensures b in Write32(mem, a, v) && Write32(mem, a, v)[b] == mem[b]
  {
    hide Wrap;
  }

  /** How many registers from i on are listed. */
  function Count(list: List, i: nat): (n: nat)
    requires i <= REGS
    ensures n <= REGS - i
    decreases REGS - i
  {
    if i == REGS then 0 else (if list[i] then 1 else 0) + Count(list, i + 1)
  }

  // ---- one pair ----------------------------------------------------------------------------

  /** Pushing touches only as many words below the stack pointer as there are registers to push. */
  lemma {:induction false} PushKeepsAbove(m: Machine, list: List, i: nat, a: Word)
    requires i <= REGS && Above(a, Sp(m)) < SPACE - 4 * Count(list, i) && a in m.mem
    ensures var t := PushFrom(m, list, i).m; a in t.mem && t.mem[a] == m.mem[a]
    decreases REGS - i
  {
    hide Wrap, Write32;
    if i < REGS {
      if list[i] && Mapped(m.mem, Wrap(Sp(m) - 4)) {
        AboveLower(a, Sp(m));
        WriteKeeps(m.mem, Wrap(Sp(m) - 4), m.r[i], a);
        PushKeepsAbove(Push(m, i), list, i + 1, a);
      } else if !list[i] {
        PushKeepsAbove(m, list, i + 1, a);
      }
    }
  }

  lemma {:induction false} PushKeepsRegisters(m: Machine, list: List, i: nat)
    requires i <= REGS
    ensures var t := PushFrom(m, list, i).m; t.r == m.r[SP := Sp(t)] && t.pc == m.pc
    decreases REGS - i
  {
    hide Wrap, Write32;
    if i < REGS {
      if !list[i] {
        PushKeepsRegisters(m, list, i + 1);
      } else if Mapped(m.mem, Wrap(Sp(m) - 4)) {
        PushKeepsRegisters(Push(m, i), list, i + 1);
      }
    }
  }

  /** The memory words that the push loop from i on wrote are still there in `mem`. */
  ghost predicate FrameIntact(m: Machine, list: List, i: nat, mem: Memory)
    requires i <= REGS
    decreases REGS - i
  {
    if i == REGS then true
    else if !list[i] then FrameIntact(m, list, i + 1, mem)
    else
      var a := Wrap(Sp(m) - 4);
      Mapped(mem, a) && Read32(mem, a) == m.r[i] && FrameIntact(Push(m, i), list, i + 1, mem)
  }

  /** Popping an intact frame gives back the stack pointer and every listed register, and touches nothing else. */
  lemma {:induction false} PopUndoesPush(m: Machine, list: List, i: nat, t: Machine)
    requires FIRST <= i <= REGS && PushFrom(m, list, i).ok
    requires Sp(t) == Sp(PushFrom(m, list, i).m) && FrameIntact(m, list, i, t.mem)
    ensures var p := PopDownTo(t, list, i);
      && p.ok && p.m.mem == t.mem && p.m.pc == t.pc && Sp(p.m) == Sp(m)
      && (forall k :: 0 <= k < REGS && k != SP ==> p.m.r[k] == if k >= i && list[k] then m.r[k] else t.r[k])
    decreases REGS - i
  {
    hide Wrap, Write32, Read32;
    if i < REGS {
      if list[i] {
        BackUp(Sp(m));
        PopUndoesPush(Push(m, i), list, i + 1, t);
      } else {
        PopUndoesPush(m, list, i + 1, t);
      }
    }
  }

  lemma BackUp(sp: int)
    requires 0 <= sp < SPACE
    ensures Wrap(Wrap(sp - 4) + 4) == sp
  {
  }

  /** The word at the stack pointer survives the rest of the push loop. */
  lemma PushKeepsWord(m: Machine, list: List, i: nat)
    requires i <= REGS && Mapped(m.mem, m.r[SP])
    ensures var t := PushFrom(m, list, i).m; Mapped(t.mem, m.r[SP]) && Read32(t.mem, m.r[SP]) == Read32(m.mem, m.r[SP])
  {
    hide Wrap;
    var a: int := Sp(m);
    AboveNear(a, 0);
    AboveNear(a, 1);
    AboveNear(a, 2);
    AboveNear(a, 3);
    WrapInside(a);
    PushKeepsAbove(m, list, i, Wrap(a + 0));
    PushKeepsAbove(m, list, i, Wrap(a + 1));
    PushKeepsAbove(m, list, i, Wrap(a + 2));
    PushKeepsAbove(m, list, i, Wrap(a + 3));
  }

  lemma WrapInside(a: int)
    requires 0 <= a < SPACE
    ensures Wrap(a + 0) == a
  {
  }

  /** Right after the push loop the frame is intact. */
  lemma {:induction false} PushedFrameIsIntact(m: Machine, list: List, i: nat)
    requires FIRST <= i <= REGS && PushFrom(m, list, i).ok
    ensures FrameIntact(m, list, i, PushFrom(m, list, i).m.mem)
    decreases REGS - i
  {
    hide Wrap, Write32, Read32;
    if i < REGS {
      if list[i] {
        PushedFrameIsIntact(Push(m, i), list, i + 1);
        ReadBack(m.mem, Wrap(Sp(m) - 4), m.r[i]);
        PushKeepsWord(Push(m, i), list, i + 1);
      } else {
        PushedFrameIsIntact(m, list, i + 1);
      }
    }
  }

  lemma LoadEpKeeps(m: Machine, gen: nat)
    ensures LoadEp(m, gen).m.elaps == m.elaps
    ensures var t := LoadEp(m, gen).m; t.mem == m.mem && forall k :: 0 <= k < REGS && k != EP ==> t.r[k] == m.r[k]
  {
  }

  /** The code byte `k` places behind `pc`, in the memory the pushes left. */
  function CodeByte(m: Machine, pc: Word, k: nat): int {
    var a := Wrap(pc + k);
    if a in m.mem then m.mem[a] else 0
  }

  /** The bytes of immediate data that follow the two halfwords of PREPARE, by bits 20 and 19. */
  function ImmediateBytes(gen: nat): nat {
    if gen % 8 == 1 || gen / 8 == 0 then 0 else if gen / 8 == 3 then 4 else 2
  }

  /**
    What PREPARE puts in ep and where it goes on, from the code bytes: nothing in the plain form; else the
    new sp, a signed halfword, a halfword as the upper half, or a word. It goes on behind the data it read.
   */
  lemma EpFromCodeBytes(m: Machine, code: Code)
    requires code.gen < REGS && PushFrom(m, code.list, FIRST).ok
    ensures var t := Prepare(m, code).m;
            var low := CodeByte(t, m.pc, 4) + 0x100 * CodeByte(t, m.pc, 5);
            var high := CodeByte(t, m.pc, 6) + 0x100 * CodeByte(t, m.pc, 7);
            var plain := code.gen % 8 == 1;
            && (Prepare(m, code).ok <==> plain || Mapped(t.mem, Wrap(m.pc + 4)))
            && (Prepare(m, code).ok ==>
                  && t.pc == Wrap(m.pc + 4 + ImmediateBytes(code.gen))
                  && t.r[EP] == if plain then m.r[EP]
                                else match code.gen / 8
                                     case 0 => Sp(t)
                                     case 1 => if low < 0x8000 then low else low + 0xFFFF_0000
                                     case 2 => 0x1_0000 * low
                                     case _ => low + 0x1_0000 * high)
  {
    hide Wrap, PushFrom;
    var pushed := PushFrom(m, code.list, FIRST).m;
    PushKeepsRegisters(m, code.list, FIRST);
    var start := SetSp(pushed, Wrap(Sp(pushed) - 4 * code.imm));
    LoadEpKeeps(start, code.gen);
    WrapPlus(m.pc + 4, 1);
    WrapPlus(m.pc + 4, 2);
    WrapPlus(m.pc + 4, 3);
  }

  lemma WrapPlus(x: int, k: int)
    ensures Wrap(Wrap(x) + k) == Wrap(x + k)
  {
    var q := x / SPACE;
    assert x + k == Wrap(x) + k + SPACE * q;
    WholeTurns(Wrap(x) + k, q);
  }

  lemma {:induction false} WholeTurns(x: int, q: int)
    ensures Wrap(x + SPACE * q) == Wrap(x)
    decreases if q < 0 then -q else q
  {
    if q > 0 { WholeTurns(x, q - 1); } else if q < 0 { WholeTurns(x, q + 1); }
  }

  /** Where an intact frame keeps register `k`: one word further down for every listed register before it. */
  lemma {:induction false} FrameHolds(m: Machine, list: List, i: nat, mem: Memory, k: nat)
    requires FIRST <= i <= k < REGS && list[k] && FrameIntact(m, list, i, mem)
    ensures var a := Wrap(Sp(m) - 4 * (Count(list, i) - Count(list, k)) - 4); Mapped(mem, a) && Read32(mem, a) == m.r[k]
    decreases REGS - i
  {
    hide Wrap, Write32, Read32, Mapped;
    if i < k {
      if list[i] {
        FrameHolds(Push(m, i), list, i + 1, mem, k);
        var below := Count(list, i + 1) - Count(list, k);
        WrapPlus(Sp(m) - 4, -4 * below - 4);
        assert Count(list, i) == 1 + Count(list, i + 1);
        hide FrameIntact, Count;
      } else {
        FrameHolds(m, list, i + 1, mem, k);
      }
    }
  }

  lemma {:induction false} PushedSp(m: Machine, list: List, i: nat)
    requires i <= REGS && PushFrom(m, list, i).ok
    ensures Sp(PushFrom(m, list, i).m) == Wrap(Sp(m) - 4 * Count(list, i))
    decreases REGS - i
  {
    hide Wrap, Write32, Mapped;
    if i == REGS {
      WrapInside(Sp(m));
    } else if list[i] {
      PushedSp(Push(m, i), list, i + 1);
      WrapPlus(Sp(m) - 4, -4 * Count(list, i + 1));
    } else {
      PushedSp(m, list, i + 1);
    }
  }

  /**
    The frame PREPARE lays out: the listed registers from r20 up, one word each downwards from sp, then
    imm words of room, and sp below them.
   */
  lemma FrameLayout(m: Machine, code: Code, k: nat)
    requires Prepare(m, code).ok && FIRST <= k < REGS && code.list[k]
    ensures var t := Prepare(m, code).m;
            var a := Wrap(Sp(m) - 4 * (Count(code.list, FIRST) - Count(code.list, k)) - 4);
            && Mapped(t.mem, a) && Read32(t.mem, a) == m.r[k]
            && Sp(t) == Wrap(Sp(m) - 4 * Count(code.list, FIRST) - 4 * code.imm)
  {
    hide Prepare, FrameIntact, Count, Mapped, Read32, Wrap, Sp;
    PreparedFrameIsIntact(m, code);
    FrameHolds(m, code.list, FIRST, Prepare(m, code).m.mem, k);
    PreparedSp(m, code);
  }

  lemma PreparedSp(m: Machine, code: Code)
    requires Prepare(m, code).ok
    ensures Sp(Prepare(m, code).m) == Wrap(Sp(m) - 4 * Count(code.list, FIRST) - 4 * code.imm)
  {
    hide Wrap, PushFrom, LoadEp, Count;
    PushedSp(m, code.list, FIRST);
    var pushed := PushFrom(m, code.list, FIRST).m;
    LoadEpKeeps(SetSp(pushed, Wrap(Sp(pushed) - 4 * code.imm)), code.gen);
    WrapPlus(Sp(m) - 4 * Count(code.list, FIRST), -4 * code.imm);
  }

  /**
    Whatever happens between PREPARE and a DISPOSE with the same list and immediate, as long as it gives
    back the stack pointer and leaves the saved words alone: every listed register and the stack pointer
    come back, nothing else changes, and DISPOSE [reg1] jumps to the restored reg1.
   */
  lemma DisposeUndoesPrepare(m: Machine, code: Code, t: Machine, gen: nat)
    requires Prepare(m, code).ok && gen < REGS
    requires Sp(t) == Sp(Prepare(m, code).m) && FrameIntact(m, code.list, FIRST, t.mem)
    ensures var d := Dispose(t, code.(gen := gen));
      && d.ok && d.m.mem == t.mem && Sp(d.m) == Sp(m)
      && (forall k :: 0 <= k < REGS && k != SP ==> d.m.r[k] == if k >= FIRST && code.list[k] then m.r[k] else t.r[k])
      && d.m.pc == if gen == 0 then Wrap(t.pc + 4) else d.m.r[gen]
  {
    hide Wrap, PushFrom, PopDownTo, FrameIntact, LoadEp;
    var pushed := PushFrom(m, code.list, FIRST).m;
    var start := SetSp(t.(elaps := 0), Wrap(Sp(t) + 4 * code.imm));
    LoadEpKeeps(SetSp(pushed, Wrap(Sp(pushed) - 4 * code.imm)), code.gen);
    SubThenAdd(Sp(pushed), 4 * code.imm);
    PopUndoesPush(m, code.list, FIRST, start);
  }

  lemma SubThenAdd(a: int, d: nat)
    requires 0 <= a < SPACE
    ensures Wrap(Wrap(a - d) + d) == a
  {
  }

  /** The words PREPARE saved are intact when it is done. */
  lemma PreparedFrameIsIntact(m: Machine, code: Code)
    requires Prepare(m, code).ok
    ensures FrameIntact(m, code.list, FIRST, Prepare(m, code).m.mem)
  {
    hide Wrap, PushFrom, FrameIntact, LoadEp;
    var pushed := PushFrom(m, code.list, FIRST).m;
    PushedFrameIsIntact(m, code.list, FIRST);
    LoadEpKeeps(SetSp(pushed, Wrap(Sp(pushed) - 4 * code.imm)), code.gen);
  }
}
