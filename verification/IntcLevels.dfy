/**
  ISPR has one bit per level. It is exact as long as no interrupt ends while one of its level is
  preempted below it; distinct levels are enough for that, and for a stack that stops at seven entries.
 */
module IntcLevels {
  import opened Intc
  import opened IntcInvariant
  import opened IntcStack

  ghost predicate DistinctLevels(w: Work) {
    forall n: Line, m: Line :: n != m && Waiting(w, n) && Waiting(w, m) ==> w.lvl[n] != w.lvl[m]
  }

  /** Some preempted interrupt has level l. */
  predicate SavedAt(w: Work, saved: seq<Line>, l: nat) {
    saved != [] && (w.lvl[saved[|saved| - 1]] == l || SavedAt(w, saved[..|saved| - 1], l))
  }

  /** Some interrupt being handled, preempted or current, has level l. */
  predicate ActiveAt(w: Work, l: nat) {
    w.current >= 0 && (w.lvl[w.current] == l || SavedAt(w, w.saved, l))
  }

  /** ISPR bit l is set exactly when some interrupt of level l is being handled. */
  ghost predicate IsprExact(w: Work) {
    forall l :: 0 <= l < NO_LEVEL ==> (w.ispr[l] <==> ActiveAt(w, l))
  }

  // ---- distinct levels -------------------------------------------------------------------

  /** Going down the stack from `top` every level is strictly less urgent, so depth and level share eight values. */
  lemma {:induction false} DepthPlusLevel(w: Work, saved: seq<Line>, top: Line)
    requires Counted(w) && DistinctLevels(w) && Waiting(w, top) && Chain(w, saved, top)
    ensures |saved| + w.lvl[top] < SLOTS
    decreases |saved|
  {
    if saved != [] {
      var k := |saved| - 1;
      DepthPlusLevel(w, saved[..k], saved[k]);
    }
  }

  /** With distinct levels the stack offset never passes 7, so every push has a slot. */
  lemma StackHasRoom(w: Work)
    requires Inv(w) && DistinctLevels(w)
    ensures |w.saved| < SLOTS
  {
    if w.current >= 0 { DepthPlusLevel(w, w.saved, w.current); }
  }

  lemma {:induction false} SavedLevelsAreLess(w: Work, saved: seq<Line>, top: Line, l: nat)
    requires DistinctLevels(w) && Waiting(w, top) && Chain(w, saved, top) && SavedAt(w, saved, l)
    ensures l > w.lvl[top]
    decreases |saved|
  {
    var k := |saved| - 1;
    if w.lvl[saved[k]] != l {
      SavedLevelsAreLess(w, saved[..k], saved[k], l);
    }
  }

  lemma {:induction false} SavedAtFrame(w: Work, w': Work, saved: seq<Line>, top: Line, x: Line, l: nat)
    requires Chain(w, saved, top) && x != top
    requires w'.lvl == w.lvl[x := w'.lvl[x]] && (!Waiting(w, x) || Key(w, x) <= Key(w, top))
    ensures SavedAt(w', saved, l) <==> SavedAt(w, saved, l)
    decreases |saved|
  {
    if saved != [] {
      var k := |saved| - 1;
      SavedAtFrame(w, w', saved[..k], saved[k], x, l);
    }
  }

  lemma SavedAtSameLevels(w: Work, w': Work, saved: seq<Line>, l: nat)
    requires w'.lvl == w.lvl
    ensures SavedAt(w', saved, l) <==> SavedAt(w, saved, l)
    decreases |saved|
  {
  }

  // ---- preservation ----------------------------------------------------------------------

  lemma ClockKeepsIspr(s: State)
    requires Inv(s.w) && IsprExact(s.w)
    ensures IsprExact(Clock(s).w)
  {
    var w := Clock(s).w;
    AcceptanceIsExact(s);
    if w != s.w {
      var n := w.current;
      assert w.ispr == PutLevel(s.w.ispr, s.w.lvl[n], true);
      forall l | 0 <= l < NO_LEVEL ensures w.ispr[l] <==> ActiveAt(w, l) {
        SavedAtSameLevels(s.w, w, s.w.saved, l);
        if s.w.current >= 0 { assert w.saved[..|w.saved| - 1] == s.w.saved; }
      }
    }
  }

  /** Ending an interrupt keeps ISPR exact if and only if no preempted interrupt has its level. */
  lemma EndKeepsIsprIff(w: Work)
    requires Inv(w) && IsprExact(w) && w.current >= 0
    ensures IsprExact(EndCurrent(w)) <==> !SavedAt(w, w.saved, w.lvl[w.current])
  {
    var w' := EndCurrent(w);
    var top := w.lvl[w.current];
    EndCurrentKeepsInv(w);
    assert w'.ispr == w.ispr[top := false];
    forall l | 0 <= l < NO_LEVEL ensures ActiveAt(w', l) <==> SavedAt(w, w.saved, l) {
      if w.saved != [] {
        SavedAtFrame(w, w', w'.saved, w'.current, w.current, l);
      }
    }
    assert forall l :: 0 <= l < NO_LEVEL ==> (w'.ispr[l] <==> l != top && ActiveAt(w, l));
  }

  lemma RequestKeepsIspr(s: State, n: Line)
    requires Inv(s.w) && IsprExact(s.w)
    ensures IsprExact(Request(s, n).w)
  {
    var w := Request(s, n).w;
    forall l | 0 <= l < NO_LEVEL ensures ActiveAt(w, l) <==> ActiveAt(s.w, l) {
      if w.current >= 0 {
        if Waiting(s.w, n) {
          SavedAtSameLevels(s.w, w, w.saved, l);
        } else {
          SavedAtFrame(s.w, w, w.saved, w.current, n, l);
        }
      }
    }
  }

  lemma SameTablesSameIspr(w: Work, w': Work)
    requires IsprExact(w) && w' == w.(icn := w'.icn)
    ensures IsprExact(w')
  {
    forall l | 0 <= l < NO_LEVEL ensures ActiveAt(w', l) <==> ActiveAt(w, l) {
      SavedAtSameLevels(w, w', w.saved, l);
    }
  }

  /** The step ends an interrupt while one of the same level is preempted below it. */
  predicate Clashes(s: State, step: Step) {
    step.WriteIcn8? && s.w.current >= 0 && SavedAt(s.w, s.w.saved, s.w.lvl[s.w.current])
  }

  lemma StepKeepsIsprIff(s: State, step: Step)
    requires Inv(s.w) && IsprExact(s.w)
    ensures IsprExact(Apply(s, step).w) <==> !Clashes(s, step)
  {
    match step
    case RequestLine(n) => RequestKeepsIspr(s, n);
    case Tick => ClockKeepsIspr(s);
    case WriteIcn8(n, b) =>
      var ended, stored := EndCurrent(s.w), Apply(s, step).w;
      if s.w.current >= 0 { EndKeepsIsprIff(s.w); }
      if IsprExact(ended) { SameTablesSameIspr(ended, stored); }
      if IsprExact(stored) { SameTablesSameIspr(stored, ended); }
    case _ => SameTablesSameIspr(s.w, Apply(s, step).w);
  }

  /** ISPR is exact in every state of the run. */
  ghost predicate AlwaysExact(s: State, steps: seq<Step>)
    decreases |steps|
  {
    IsprExact(s.w) && (steps != [] ==> AlwaysExact(Apply(s, steps[0]), steps[1..]))
  }

  /** No interrupt of the run ends while one of its level is preempted. */
  predicate NeverClashes(s: State, steps: seq<Step>)
    decreases |steps|
  {
    steps == [] || (!Clashes(s, steps[0]) && NeverClashes(Apply(s, steps[0]), steps[1..]))
  }

  lemma {:induction false} ExactFrom(s: State, steps: seq<Step>)
    requires Inv(s.w) && IsprExact(s.w)
    ensures AlwaysExact(s, steps) <==> NeverClashes(s, steps)
    decreases |steps|
  {
    hide Apply, Inv, IsprExact, Clashes;
    if steps != [] {
      ApplyKeepsInv(s, steps[0]);
      StepKeepsIsprIff(s, steps[0]);
      if !Clashes(s, steps[0]) { ExactFrom(Apply(s, steps[0]), steps[1..]); }
    }
  }

  /**
    ISPR is the set of active levels in every state of a run from reset if and only if no interrupt of
    the run ends while a preempted one has its level.
   */
  lemma IsprExactIffNoClash(steps: seq<Step>)
    ensures AlwaysExact(Initial(), steps) <==> NeverClashes(Initial(), steps)
  {
    InitialInv();
    assert IsprExact(Initial().w);
    hide Initial;
    ExactFrom(Initial(), steps);
  }

  // ---- distinct levels over runs -----------------------------------------------------------

  ghost predicate AlwaysDistinct(s: State, steps: seq<Step>)
    decreases |steps|
  {
    DistinctLevels(s.w) && (steps != [] ==> AlwaysDistinct(Apply(s, steps[0]), steps[1..]))
  }

  lemma {:induction false} RunKeepsIspr(s: State, steps: seq<Step>)
    requires Inv(s.w) && IsprExact(s.w) && AlwaysDistinct(s, steps)
    ensures var w := Run(s, steps).w; IsprExact(w) && |w.saved| < SLOTS
    decreases |steps|
  {
    StackHasRoom(s.w);
    if steps != [] {
      ApplyKeepsInv(s, steps[0]);
      StepKeepsIsprIff(s, steps[0]);
      if Clashes(s, steps[0]) { SavedLevelsAreLess(s.w, s.w.saved, s.w.current, s.w.lvl[s.w.current]); }
      hide Apply, Inv, IsprExact, DistinctLevels, Clashes;
      RunKeepsIspr(Apply(s, steps[0]), steps[1..]);
    }
  }

  /**
    In every run from reset whose waiting requests always have distinct levels, the stack stays in its array and
    ISPR is exact.
   */
  lemma DistinctLevelsSuffice(steps: seq<Step>)
    requires AlwaysDistinct(Initial(), steps)
    ensures var w := Run(Initial(), steps).w; |w.saved| < SLOTS && IsprExact(w)
  {
    InitialInv();
    RunKeepsIspr(Initial(), steps);
  }

  /** Two requests of one level are enough for ISPR to lose the level of an interrupt still being handled. */
  lemma EqualLevelsBreakIspr()
    ensures var w := Run(Initial(), StackUp([116, 115]) + [WriteIcn8(0, 0)]).w;
      ActiveAt(w, 0) && !w.ispr[0]
  {
    var lines: seq<Line> := [116, 115];
    StackGrows(lines);
    var s := Run(Initial(), StackUp(lines));
    RunAppend(Initial(), StackUp(lines), [WriteIcn8(0, 0)]);
    RunSingle(s, WriteIcn8(0, 0));
    EndCurrentKeepsInv(s.w);
    assert s.w.current == 115 && s.w.saved == [116];
  }
}
