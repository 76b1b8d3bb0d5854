/**
  Calls that open a frame with PREPARE and close it with DISPOSE, nested to any depth around arbitrary
  code. Positions are depths below a base address, going round the address space, so a stack may start
  anywhere and wrap round address zero.
 */
module NestedFrames {
  import opened Results
  import opened Frames

  /**
    Between PREPARE and DISPOSE a body may write any register, jump, store a byte anywhere outside the
    frames that are open, and make calls of its own. It owes the stack pointer back at the end.
   */
  datatype Act =
    | SetRegister(i: nat, v: Word)
    | Store(a: int, b: Byte)
    | Jump(pc: Word)
    | Call(code: Code, body: seq<Act>, ret: nat)

  /** How far below `base` the address lies. */
  function Depth(base: Word, a: int): Word { Above(base, a) }

  /** The saved words of one open call: the depths above `top` up to `bottom`. */
  datatype Frame = Frame(top: nat, bottom: nat)

  predicate Inside(base: Word, a: int, f: Frame) { 0 <= a < SPACE && f.top < Depth(base, a) <= f.bottom }

  predicate InSomeFrame(base: Word, a: int, open: seq<Frame>) {
    open != [] && (Inside(base, a, open[0]) || InSomeFrame(base, a, open[1..]))
  }

  /** Every open frame ends at or above this depth. */
  predicate BelowFrames(depth: int, open: seq<Frame>) {
    open == [] || (open[0].bottom <= depth && BelowFrames(depth, open[1..]))
  }

  function FrameOf(base: Word, m: Machine, code: Code): Frame {
    var d: int := Depth(base, Sp(m));
    Frame(d, d + 4 * Count(code.list, FIRST))
  }

  /** A call is made with the stack pointer below every open frame, and the stack has not gone all the way round. */
  predicate MayCall(base: Word, m: Machine, open: seq<Frame>, code: Code) {
    BelowFrames(FrameOf(base, m, code).top, open) && FrameOf(base, m, code).bottom < SPACE
  }

  /** The machine after `acts`, or None when they break the rules above or a PREPARE fails on the bus. */
  function Exec(base: Word, m: Machine, open: seq<Frame>, acts: seq<Act>): Option<Machine>
    decreases acts
  {
    if acts == [] then Some(m)
    else
      var next :- ExecOne(base, m, open, acts[0]);
      Exec(base, next, open, acts[1..])
  }

  function ExecOne(base: Word, m: Machine, open: seq<Frame>, act: Act): Option<Machine>
    decreases act, 1
  {
    match act
    case SetRegister(i, v) => if i < REGS then Some(m.(r := m.r[i := v])) else None
    case Store(a, b) => if a in m.mem && !InSomeFrame(base, a, open) then Some(m.(mem := m.mem[a := b])) else None
    case Jump(pc) => Some(m.(pc := pc))
    case Call(code, body, ret) =>
      var done :- BodyDone(base, m, open, act);
      Some(Dispose(done, code.(gen := ret)).m)
  }

  /** The machine at the call's DISPOSE. */
  function BodyDone(base: Word, m: Machine, open: seq<Frame>, act: Act): Option<Machine>
    requires act.Call?
    decreases act, 0
  {
    var prepared := Prepare(m, act.code);
    if act.ret >= REGS || !MayCall(base, m, open, act.code) || !prepared.ok then None
    else
      var done :- Exec(base, prepared.m, [FrameOf(base, m, act.code)] + open, act.body);
      if Sp(done) == Sp(prepared.m) then Some(done) else None
  }

  /** Memory inside the open frames reads the same in `t` as in `m`. */
  ghost predicate FramesKept(base: Word, m: Machine, t: Machine, open: seq<Frame>) {
    forall a {:trigger a in t.mem} {:trigger a in m.mem} ::
      InSomeFrame(base, a, open) && a in m.mem ==> a in t.mem && t.mem[a] == m.mem[a]
  }

  // ---- depths ------------------------------------------------------------------------------

  lemma BelowIsOutside(base: Word, a: int, depth: int, open: seq<Frame>)
    requires BelowFrames(depth, open) && InSomeFrame(base, a, open)
    ensures 0 <= a < SPACE && Depth(base, a) <= depth
  {
    hide Depth;
    if !Inside(base, a, open[0]) { BelowIsOutside(base, a, depth, open[1..]); }
  }

  /** Depth turned round: what is not deeper than the stack pointer lies above it. */
  lemma HigherIsAbove(base: Word, a: Word, sp: Word)
    requires Depth(base, a) <= Depth(base, sp)
    ensures Above(a, sp) as int == Depth(base, sp) - Depth(base, a)
  {
    WrapOnce(base - a);
    WrapOnce(base - sp);
    WrapOnce(a - sp);
    hide Wrap;
  }

  /** The four bytes of the word below `sp` and how deep they lie. */
  lemma DepthsOfWord(base: Word, sp: Word, d: int)
    requires d == Depth(base, sp) && d + 4 < SPACE
    ensures var low := Wrap(sp - 4);
            && Depth(base, low) == d + 4 && Depth(base, Wrap(low + 1)) == d + 3
            && Depth(base, Wrap(low + 2)) == d + 2 && Depth(base, Wrap(low + 3)) == d + 1
  {
    DepthOf(base, sp, d, -4);
    DepthOf(base, sp, d, -3);
    DepthOf(base, sp, d, -2);
    DepthOf(base, sp, d, -1);
    var low: int := Wrap(sp - 4);
    WrapOnce(sp - 4);
    WrapOnce(sp - 3);
    WrapOnce(sp - 2);
    WrapOnce(sp - 1);
    WrapOnce(low + 1);
    WrapOnce(low + 2);
    WrapOnce(low + 3);
    hide Wrap, Depth;
  }

  lemma DepthOf(base: Word, sp: Word, d: int, k: int)
    requires -4 <= k < 0 && d == Depth(base, sp) && d + 4 < SPACE
    ensures Depth(base, Wrap(sp + k)) == d - k
  {
    var a: int := Wrap(sp + k);
    WrapOnce(sp + k);
    WrapOnce(base - sp);
    WrapOnce(base - a);
    hide Wrap;
  }

  // ---- one call ----------------------------------------------------------------------------

  /** PREPARE does not touch an address that is not deeper than the stack pointer. */
  lemma PrepareKeepsAbove(base: Word, m: Machine, code: Code, a: Word)
    requires Prepare(m, code).ok && FrameOf(base, m, code).bottom < SPACE
    requires Depth(base, a) <= Depth(base, Sp(m)) && a in m.mem
    ensures var t := Prepare(m, code).m; a in t.mem && t.mem[a] == m.mem[a]
  {
    HigherIsAbove(base, a, Sp(m));
    hide PushFrom, LoadEp, Depth, Above;
    var pushed := PushFrom(m, code.list, FIRST).m;
    LoadEpKeeps(SetSp(pushed, Wrap(Sp(pushed) - 4 * code.imm)), code.gen);
    PushKeepsAbove(m, code.list, FIRST, a);
  }

  /** Memory that keeps the depths above `top` up to `bottom`. */
  ghost predicate KeepsDepths(base: Word, mem: Memory, mem': Memory, top: int, bottom: int) {
    forall a: Word {:trigger a in mem'} {:trigger a in mem} ::
      top < Depth(base, a) <= bottom && a in mem ==> a in mem' && mem'[a] == mem[a]
  }

  lemma WordBelow(base: Word, sp: Word, mem: Memory, mem': Memory, d: int, bottom: int)
    requires d == Depth(base, sp) && d + 4 <= bottom < SPACE && Mapped(mem, Wrap(sp - 4))
    requires KeepsDepths(base, mem, mem', d, bottom)
    ensures Mapped(mem', Wrap(sp - 4)) && Read32(mem', Wrap(sp - 4)) == Read32(mem, Wrap(sp - 4))
  {
    DepthsOfWord(base, sp, d);
    hide Depth, Wrap;
  }

  /** Saved words stay intact while the bytes of their frame do. */
  lemma {:induction false} IntactWhileKept(base: Word, m: Machine, list: List, i: nat, mem: Memory, mem': Memory)
    requires i <= REGS && FrameIntact(m, list, i, mem) && Depth(base, Sp(m)) + 4 * Count(list, i) < SPACE
    requires KeepsDepths(base, mem, mem', Depth(base, Sp(m)), Depth(base, Sp(m)) + 4 * Count(list, i))
    ensures FrameIntact(m, list, i, mem')
    decreases REGS - i
  {
    hide Wrap, Write32, Read32, Depth;
    if i < REGS {
      if list[i] {
        var d: int := Depth(base, Sp(m));
        WordBelow(base, Sp(m), mem, mem', d, d + 4 * Count(list, i));
        DepthsOfWord(base, Sp(m), d);
        IntactWhileKept(base, Push(m, i), list, i + 1, mem, mem');
      } else {
        IntactWhileKept(base, m, list, i + 1, mem, mem');
      }
    }
  }

  lemma InFirstFrame(base: Word, mem: Memory, t: Machine, m: Machine, f: Frame, open: seq<Frame>)
    requires FramesKept(base, m, t, [f] + open) && mem == m.mem
    ensures KeepsDepths(base, mem, t.mem, f.top, f.bottom)
  {
    forall a: Word | f.top < Depth(base, a) <= f.bottom ensures InSomeFrame(base, a, [f] + open) {}
    hide InSomeFrame, Depth;
  }

  /**
    A call gives back the stack pointer and every listed register whatever its body did, cannot fail
    once PREPARE succeeded, leaves the frames of the calls around it alone, and DISPOSE [lp] returns
    to the address lp held at PREPARE.
   */
  lemma {:induction false} CallRestores(base: Word, m: Machine, open: seq<Frame>, act: Act)
    requires act.Call? && BodyDone(base, m, open, act).Some?
    ensures var done := BodyDone(base, m, open, act).value; var d := Dispose(done, act.code.(gen := act.ret));
      && d.ok && d.m.mem == done.mem && Sp(d.m) == Sp(m) && FramesKept(base, m, d.m, open)
      && (forall k :: 0 <= k < REGS && k != SP ==>
            d.m.r[k] == if k >= FIRST && act.code.list[k] then m.r[k] else done.r[k])
      && (act.ret >= FIRST && act.code.list[act.ret] ==> d.m.pc == m.r[act.ret])
    decreases act, 0
  {
    hide Prepare, Dispose, FrameIntact, Depth;
    var p := Prepare(m, act.code).m;
    var f := FrameOf(base, m, act.code);
    var done := BodyDone(base, m, open, act).value;
    RunKeepsFrames(base, p, [f] + open, act.body);
    PreparedFrameIsIntact(m, act.code);
    InFirstFrame(base, p.mem, done, p, f, open);
    IntactWhileKept(base, m, act.code.list, FIRST, p.mem, done.mem);
    DisposeUndoesPrepare(m, act.code, done, act.ret);
    OuterFramesKept(base, m, act.code, done, open);
  }

  lemma OuterFramesKept(base: Word, m: Machine, code: Code, done: Machine, open: seq<Frame>)
    requires Prepare(m, code).ok && MayCall(base, m, open, code)
    requires FramesKept(base, Prepare(m, code).m, done, [FrameOf(base, m, code)] + open)
    ensures FramesKept(base, m, done, open)
  {
    hide Prepare, Depth;
    var f := FrameOf(base, m, code);
    forall a | InSomeFrame(base, a, open) && a in m.mem ensures a in done.mem && done.mem[a] == m.mem[a] {
      BelowIsOutside(base, a, f.top, open);
      PrepareKeepsAbove(base, m, code, a);
      assert ([f] + open)[1..] == open;
      assert InSomeFrame(base, a, [f] + open);
    }
  }

  lemma {:induction false} ActKeepsFrames(base: Word, m: Machine, open: seq<Frame>, act: Act)
    requires ExecOne(base, m, open, act).Some?
    ensures FramesKept(base, m, ExecOne(base, m, open, act).value, open)
    decreases act, 1
  {
    hide Dispose;
    if act.Call? { CallRestores(base, m, open, act); }
  }

  /** No run writes into a frame that was open when it started. */
  lemma {:induction false} RunKeepsFrames(base: Word, m: Machine, open: seq<Frame>, acts: seq<Act>)
    requires Exec(base, m, open, acts).Some?
    ensures FramesKept(base, m, Exec(base, m, open, acts).value, open)
    decreases acts
  {
    if acts != [] {
      hide ExecOne, InSomeFrame;
      ActKeepsFrames(base, m, open, acts[0]);
      RunKeepsFrames(base, ExecOne(base, m, open, acts[0]).value, open, acts[1..]);
    }
  }

  // ---- frames are disjoint -----------------------------------------------------------------

  /** No address belongs to two of the frames. */
  ghost predicate Disjoint(base: Word, open: seq<Frame>) {
    forall i, j, a :: 0 <= i < j < |open| ==> !(Inside(base, a, open[i]) && Inside(base, a, open[j]))
  }

  /** Each frame starts below all the frames it was opened in. */
  predicate Layered(open: seq<Frame>) {
    open == [] || (BelowFrames(open[0].top, open[1..]) && Layered(open[1..]))
  }

  lemma {:induction false} BelowEach(depth: int, open: seq<Frame>, j: nat)
    requires BelowFrames(depth, open) && j < |open|
    ensures open[j].bottom <= depth
    decreases |open|
  {
    if j > 0 { BelowEach(depth, open[1..], j - 1); }
  }

  lemma {:induction false} LayeredIsDisjoint(base: Word, open: seq<Frame>)
    requires Layered(open)
    ensures Disjoint(base, open)
    decreases |open|
  {
    hide Depth;
    if open != [] {
      var rest := open[1..];
      LayeredIsDisjoint(base, rest);
      forall i, j, a | 0 <= i < j < |open| ensures !(Inside(base, a, open[i]) && Inside(base, a, open[j])) {
        assert open[j] == rest[j - 1];
        if i == 0 { BelowEach(open[0].top, rest, j - 1); } else { assert open[i] == rest[i - 1]; }
      }
    }
  }

  /** At every call of the run, at any depth, the new frame and all open ones are pairwise disjoint. */
  ghost predicate AlwaysDisjoint(base: Word, m: Machine, open: seq<Frame>, acts: seq<Act>)
    decreases acts, 1
  {
    acts == [] ||
    (CallsDisjoint(base, m, open, acts[0])
     && (ExecOne(base, m, open, acts[0]).Some? ==>
           AlwaysDisjoint(base, ExecOne(base, m, open, acts[0]).value, open, acts[1..])))
  }

  ghost predicate CallsDisjoint(base: Word, m: Machine, open: seq<Frame>, act: Act)
    decreases act, 0
  {
    act.Call? ==>
      && Disjoint(base, [FrameOf(base, m, act.code)] + open)
      && AlwaysDisjoint(base, Prepare(m, act.code).m, [FrameOf(base, m, act.code)] + open, act.body)
  }

  lemma CallIsLayered(base: Word, m: Machine, open: seq<Frame>, act: Act)
    requires act.Call? && Layered(open) && ExecOne(base, m, open, act).Some?
    ensures Layered([FrameOf(base, m, act.code)] + open)
    ensures Exec(base, Prepare(m, act.code).m, [FrameOf(base, m, act.code)] + open, act.body).Some?
  {
    hide Dispose, Prepare, FrameOf;
    assert ([FrameOf(base, m, act.code)] + open)[1..] == open;
  }

  /** The frames of all open calls are disjoint, everywhere in every run. */
  lemma {:induction false} OpenFramesAreDisjoint(base: Word, m: Machine, open: seq<Frame>, acts: seq<Act>)
    requires Layered(open) && Exec(base, m, open, acts).Some?
    ensures AlwaysDisjoint(base, m, open, acts)
    decreases acts, 1
  {
    if acts != [] {
      CallOpensDisjoint(base, m, open, acts[0]);
      OpenFramesAreDisjoint(base, ExecOne(base, m, open, acts[0]).value, open, acts[1..]);
      hide ExecOne, CallsDisjoint, Layered;
    }
  }

  lemma {:induction false} CallOpensDisjoint(base: Word, m: Machine, open: seq<Frame>, act: Act)
    requires Layered(open) && ExecOne(base, m, open, act).Some?
    ensures CallsDisjoint(base, m, open, act)
    decreases act, 0
  {
    if act.Call? {
      CallIsLayered(base, m, open, act);
      hide ExecOne, Layered, Disjoint, AlwaysDisjoint, Prepare, FrameOf;
      LayeredIsDisjoint(base, [FrameOf(base, m, act.code)] + open);
      OpenFramesAreDisjoint(base, Prepare(m, act.code).m, [FrameOf(base, m, act.code)] + open, act.body);
    }
  }
}
