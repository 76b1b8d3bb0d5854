/**
  How deep preempted interrupts pile up in the eight-slot stack. Levels do not bound it: what does is
  the number of different lines that are ever requested.
 */
module IntcStack {
  import opened Intc
  import opened IntcInvariant

  const SLOTS := 8

  // ---- every active interrupt is a waiting line of its own ---------------------------------

  /** The stack and `top` use up as many different waiting lines of `lines` as there are of them. */
  lemma {:induction false} ChainFits(w: Work, saved: seq<Line>, top: Line, lines: set<Line>)
    requires Chain(w, saved, top) && top in lines
    requires forall n: Line :: Waiting(w, n) && Key(w, top) < Key(w, n) ==> n in lines
    ensures |saved| < |lines|
    decreases |saved|
  {
    hide Key;
    if saved != [] {
      var k := |saved| - 1;
      ChainFits(w, saved[..k], saved[k], lines - {top});
    }
  }

  /** In every reachable state fewer interrupts are preempted than wait. */
  lemma SavedBelowWaiting(w: Work)
    requires Inv(w)
    ensures |w.saved| <= |WaitingLines(w)| && (w.current >= 0 ==> |w.saved| < |WaitingLines(w)|)
  {
    if w.current >= 0 { ChainFits(w, w.saved, w.current, WaitingLines(w)); }
  }

  /** A line about to be entered is waiting too, above the whole stack. */
  lemma EntryNeedsOneMore(s: State)
    requires Inv(s.w) && EntersMaskable(s) && s.w.current >= 0
    ensures |s.w.saved| + 2 <= |WaitingLines(s.w)|
  {
    MostUrgentIsMinimum(s.w);
    var n := MostUrgent(s.w);
    assert n in WaitingLines(s.w);
    hide Key, MostUrgent;
    assert s.w.current in WaitingLines(s.w) - {n};
    ChainFits(s.w, s.w.saved, s.w.current, WaitingLines(s.w) - {n});
  }

  // ---- runs over a set of lines ------------------------------------------------------------

  predicate Requests(steps: seq<Step>, lines: set<Line>) {
    forall step <- steps :: step.RequestLine? ==> step.n in lines
  }

  lemma SameLevelsSameWaiting(w: Work, w': Work)
    requires w'.lvl == w.lvl
    ensures WaitingLines(w') == WaitingLines(w)
  {
  }

  lemma QuietStepLevels(s: State, step: Step)
    requires !step.RequestLine? && !step.WriteIcn8?
    ensures Apply(s, step).w.lvl == s.w.lvl
  {
    if step.Tick? { ClockKeepsLevels(s); }
    hide Clock;
  }

  lemma StepWaiting(s: State, step: Step, lines: set<Line>)
    requires Inv(s.w) && WaitingLines(s.w) <= lines && (step.RequestLine? ==> step.n in lines)
    ensures WaitingLines(Apply(s, step).w) <= lines
  {
    hide Inv, WaitingLines;
    if step.RequestLine? {
      RequestKeepsInv(s, step.n);
      hide Request;
    } else if step.WriteIcn8? {
      EndCurrentKeepsInv(s.w);
      SameLevelsSameWaiting(EndCurrent(s.w), Apply(s, step).w);
    } else {
      QuietStepLevels(s, step);
      hide Apply;
      SameLevelsSameWaiting(s.w, Apply(s, step).w);
    }
  }

  lemma {:induction false} RunWaiting(s: State, steps: seq<Step>, lines: set<Line>)
    requires Inv(s.w) && WaitingLines(s.w) <= lines && Requests(steps, lines)
    ensures Inv(Run(s, steps).w) && WaitingLines(Run(s, steps).w) <= lines
    decreases |steps|
  {
    hide Apply, Inv, WaitingLines;
    if steps != [] {
      assert steps[0] in steps;
      ApplyKeepsInv(s, steps[0]);
      StepWaiting(s, steps[0], lines);
      RunWaiting(Apply(s, steps[0]), steps[1..], lines);
    }
  }

  lemma Subset(a: set<Line>, b: set<Line>)
    requires a <= b
    ensures |a| <= |b|
  {
    assert b == a + (b - a);
  }

  /** Requests on at most nine lines, at any levels and in any order, stay inside the stack. */
  lemma FewLinesFit(steps: seq<Step>, lines: set<Line>)
    requires Requests(steps, lines)
    ensures |Run(Initial(), steps).w.saved| <= |lines| && (lines != {} ==> |Run(Initial(), steps).w.saved| < |lines|)
  {
    InitialInv();
    assert WaitingLines(Initial().w) == {};
    hide Initial;
    RunWaiting(Initial(), steps, lines);
    var w := Run(Initial(), steps).w;
    SavedBelowWaiting(w);
    Subset(WaitingLines(w), lines);
  }

  // ---- a run that nests all of them --------------------------------------------------------

  /** Strictly descending, so that each line outranks the one before it. */
  predicate Descending(lines: seq<Line>) {
    forall i, j :: 0 <= i < j < |lines| ==> Number(lines, j) < Number(lines, i)
  }

  function Number(lines: seq<Line>, i: nat): int
    requires i < |lines|
  {
    lines[i]
  }

  function Sorted(lines: set<Line>, below: nat): (sorted: seq<Line>)
    requires below <= LINES
    ensures forall n: Line :: n in sorted <==> n in lines && n < below
  {
    if below == 0 then []
    else (if below - 1 in lines then [below - 1] else []) + Sorted(lines, below - 1)
  }

  lemma {:induction false} SortedDescends(lines: set<Line>, below: nat)
    requires below <= LINES
    ensures Descending(Sorted(lines, below))
    decreases below
  {
    if below > 0 {
      SortedDescends(lines, below - 1);
      var rest := Sorted(lines, below - 1);
      forall i | 0 <= i < |rest| ensures Number(rest, i) < below - 1 { assert rest[i] in rest; }
      hide Sorted;
      PrependDescends(below - 1, rest);
      assert Sorted(lines, below) == rest || Sorted(lines, below) == [below - 1] + rest by { SortedStep(lines, below); }
    }
  }

  lemma SortedStep(lines: set<Line>, below: nat)
    requires 0 < below <= LINES
    ensures Sorted(lines, below) ==
            if below - 1 in lines then [below - 1] + Sorted(lines, below - 1) else Sorted(lines, below - 1)
  {
    assert [] + Sorted(lines, below - 1) == Sorted(lines, below - 1);
  }

  lemma PrependDescends(n: Line, rest: seq<Line>)
    requires Descending(rest) && forall i :: 0 <= i < |rest| ==> Number(rest, i) < n
    ensures Descending([n] + rest)
  {
    var all := [n] + rest;
    forall i, j | 0 <= i < j < |all| ensures Number(all, j) < Number(all, i) {
      assert Number(all, j) == Number(rest, j - 1);
      if i > 0 { assert Number(all, i) == Number(rest, i - 1); }
    }
  }

  function Below(lines: set<Line>, below: nat): set<Line> { set n <- lines | n < below }

  lemma BelowStep(lines: set<Line>, below: nat)
    requires 0 < below <= LINES
    ensures below - 1 !in Below(lines, below - 1)
    ensures Below(lines, below) == Below(lines, below - 1) + if below - 1 in lines then {below - 1} else {}
  {
  }

  lemma NothingBelow(lines: set<Line>)
    ensures Sorted(lines, 0) == [] && Below(lines, 0) == {}
  {
  }

  lemma {:induction false} SortedCounts(lines: set<Line>, below: nat)
    requires below <= LINES
    ensures |Sorted(lines, below)| == |Below(lines, below)|
    decreases below
  {
    hide *;
    if below == 0 {
      NothingBelow(lines);
    } else {
      SortedCounts(lines, below - 1);
      SortedStep(lines, below);
      BelowStep(lines, below);
    }
  }

  /** Give line `n` level 0 and no mask, request it, enable interrupts and let a clock pass. */
  function StackOne(n: Line): seq<Step> {
    [WriteIcn16(n, 0)] + ([RequestLine(n)] + ([EnableInterrupts] + [Tick]))
  }

  /** The lines nested one on top of the other, all of level 0. */
  function StackUp(lines: seq<Line>): seq<Step>
    decreases |lines|
  {
    if lines == [] then [] else StackUp(lines[..|lines| - 1]) + StackOne(lines[|lines| - 1])
  }

  lemma {:induction false} StackUpRequests(lines: seq<Line>, all: set<Line>)
    requires forall n <- lines :: n in all
    ensures Requests(StackUp(lines), all)
    decreases |lines|
  {
    if lines != [] {
      hide Sorted;
      StackUpRequests(lines[..|lines| - 1], all);
      assert lines[|lines| - 1] in lines;
    }
  }

  /** The lines of `active` are handled, nested in this order; exactly those of `waiting` wait, at level 0. */
  ghost predicate Stacked(s: State, active: seq<Line>, waiting: seq<Line>) {
    && Inv(s.w) && !s.wdt && s.nmi == 0 && !s.c.psw.np
    && (if active == [] then s.w.current == -1
        else s.w.current == active[|active| - 1] && s.w.saved == active[..|active| - 1])
    && (forall n: Line :: if n in waiting then s.w.lvl[n] == 0 else !Waiting(s.w, n))
  }

  lemma RequestsNext(s: State, active: seq<Line>, n: Line)
    requires Stacked(s, active, active) && n !in active
    ensures var t := Request(PutIcn16(s, n, 0), n);
            Stacked(t, active, active + [n]) && !Masked(t.w.icn[n])
  {
    var s' := PutIcn16(s, n, 0);
    var t := Request(s', n);
    SameTables(s.w, s'.w);
    RequestKeepsInv(s', n);
    RequestTables(s', n);
    hide Inv, Key;
    assert t.w.lvl[n] == 0 && !Masked(t.w.icn[n]);
  }

  lemma EntersNext(s: State, active: seq<Line>, n: Line)
    requires Stacked(s, active, active + [n]) && Descending(active + [n]) && !Masked(s.w.icn[n]) && !s.c.psw.id
    ensures Stacked(Clock(s), active + [n], active + [n])
  {
    var all := active + [n];
    OnlyNextIsEligible(s, active, n);
    ClockKeepsInv(s);
    ClockKeepsLevels(s);
    EntersOnly(s, n);
    hide Inv, Eligible, Descending, Clock, Stacked;
    NowStacked(s, Clock(s), active, n);
  }

  lemma NowStacked(s: State, t: State, active: seq<Line>, n: Line)
    requires Stacked(s, active, active + [n]) && Inv(t.w) && t.w.lvl == s.w.lvl && !t.wdt && t.nmi == 0 && !t.c.psw.np
    requires t.w.current == n && t.w.saved == if s.w.current == -1 then s.w.saved else s.w.saved + [s.w.current]
    requires active == [] ==> s.w.saved == []
    ensures Stacked(t, active + [n], active + [n])
  {
    hide Inv;
    var all := active + [n];
    assert all[..|active|] == active && all[|active|] == n;
    if active != [] { assert active[..|active| - 1] + [active[|active| - 1]] == active; }
    forall m: Line ensures Waiting(t.w, m) == Waiting(s.w, m) {}
  }

  /** A clock with one eligible line enters it. */
  lemma EntersOnly(s: State, n: Line)
    requires Counted(s.w) && !s.wdt && s.nmi == 0 && !s.c.psw.np && !s.c.psw.id
    requires Eligible(s.w, n) && forall m: Line :: Eligible(s.w, m) ==> m == n
    ensures var t := Clock(s);
            && t.w.current == n && t.w.saved == (if s.w.current == -1 then s.w.saved else s.w.saved + [s.w.current])
            && !t.wdt && t.nmi == 0 && !t.c.psw.np
  {
    MostUrgentIsMinimum(s.w);
    hide Eligible, MostUrgent, Counted, Key, HandlerAddress, PutLevel;
    assert MostUrgent(s.w) == n;
  }

  lemma OnlyNextIsEligible(s: State, active: seq<Line>, n: Line)
    requires Stacked(s, active, active + [n]) && Descending(active + [n]) && !Masked(s.w.icn[n])
    ensures Eligible(s.w, n) && (forall m: Line :: Eligible(s.w, m) ==> m == n)
    ensures active == [] ==> s.w.saved == []
  {
    var all := active + [n];
    var k := |active|;
    assert n in all && Number(all, k) == n;
    if k > 0 { assert Number(all, k) < Number(all, k - 1); }
    forall i | 0 <= i < k ensures !Eligible(s.w, active[i]) {
      assert all[i] in all && Number(all, i) == active[i];
      assert Number(all, k - 1) <= Number(all, i);
    }
    forall m: Line | Eligible(s.w, m) ensures m == n { assert m in all; }
  }

  lemma RunStackOne(s: State, n: Line)
    ensures Run(s, StackOne(n)) == Clock(Ei(Request(PutIcn16(s, n, 0), n)))
  {
    hide Request, Clock, Ei, PutIcn16;
    RunAppend(s, [WriteIcn16(n, 0)], [RequestLine(n)] + ([EnableInterrupts] + [Tick]));
    RunAppend(PutIcn16(s, n, 0), [RequestLine(n)], [EnableInterrupts] + [Tick]);
    RunAppend(Request(PutIcn16(s, n, 0), n), [EnableInterrupts], [Tick]);
    RunSingle(s, WriteIcn16(n, 0));
    RunSingle(PutIcn16(s, n, 0), RequestLine(n));
    RunSingle(Request(PutIcn16(s, n, 0), n), EnableInterrupts);
    RunSingle(Ei(Request(PutIcn16(s, n, 0), n)), Tick);
  }

  lemma RunSingle(s: State, step: Step)
    ensures Run(s, [step]) == Apply(s, step)
  {
    assert [step][1..] == [];
  }

  /** Any descending list of lines nests completely. */
  lemma {:induction false} StackGrows(lines: seq<Line>)
    requires Descending(lines)
    ensures Stacked(Run(Initial(), StackUp(lines)), lines, lines)
    decreases |lines|
  {
    hide *;
    if lines == [] {
      NothingStacked();
    } else {
      var k := |lines| - 1;
      var front, n := lines[..k], lines[k];
      DescendingFront(lines);
      StackGrows(front);
      var s := Run(Initial(), StackUp(front));
      StackUpStep(lines);
      RunAppend(Initial(), StackUp(front), StackOne(n));
      RunStackOne(s, n);
      assert front + [n] == lines;
      PushesNext(s, front, n);
    }
  }

  lemma NothingStacked()
    ensures Stacked(Run(Initial(), StackUp([])), [], [])
  {
    InitialInv();
    hide Inv;
    assert forall n: Line :: Initial().w.lvl[n] == NO_LEVEL;
  }

  lemma StackUpStep(lines: seq<Line>)
    requires lines != []
    ensures var k := |lines| - 1; StackUp(lines) == StackUp(lines[..k]) + StackOne(lines[k])
  {
    hide StackOne;
  }

  lemma DescendingFront(lines: seq<Line>)
    requires Descending(lines) && lines != []
    ensures Descending(lines[..|lines| - 1]) && lines[|lines| - 1] !in lines[..|lines| - 1]
  {
    var k := |lines| - 1;
    var front := lines[..k];
    forall i, j | 0 <= i < j < k ensures Number(front, j) < Number(front, i) {
      assert Number(lines, j) < Number(lines, i);
    }
    forall i | 0 <= i < k ensures front[i] != lines[k] { assert Number(lines, k) < Number(lines, i); }
  }

  lemma PushesNext(s: State, front: seq<Line>, n: Line)
    requires Stacked(s, front, front) && n !in front && Descending(front + [n])
    ensures Stacked(Clock(Ei(Request(PutIcn16(s, n, 0), n))), front + [n], front + [n])
  {
    RequestsNext(s, front, n);
    var t := Request(PutIcn16(s, n, 0), n);
    hide Clock, Request, PutIcn16, Descending, Inv;
    EntersNext(Ei(t), front, n);
  }

  /** Requests on all of `lines`, all of level 0, bring one entry fewer than lines onto the stack. */
  lemma EqualLevelsNestAll(lines: set<Line>)
    requires lines != {}
    ensures var steps := StackUp(Sorted(lines, LINES));
            Requests(steps, lines) && |Run(Initial(), steps).w.saved| == |lines| - 1
  {
    var sorted := Sorted(lines, LINES);
    SortedDescends(lines, LINES);
    SortedCounts(lines, LINES);
    assert Below(lines, LINES) == lines;
    StackUpRequests(sorted, lines);
    StackGrows(sorted);
    hide Run, Initial, StackUp, Inv;
  }

  /** Ten lines requested at one level reach a ninth push, one slot past the end of saved_intno_stack. */
  lemma EqualLevelsOverflowTheStack(lines: set<Line>)
    requires |lines| > SLOTS + 1
    ensures var steps := StackUp(Sorted(lines, LINES));
            Requests(steps, lines) && |Run(Initial(), steps).w.saved| > SLOTS
  {
    EqualLevelsNestAll(lines);
  }

  /**
    Exactly when the stack is large enough: every run from reset that requests only lines of a given set
    stays within the eight slots, if and only if the set has at most nine lines. Levels, masks, NMIs and
    the order of requests make no difference.
   */
  lemma StackSufficesIffNineLines(lines: set<Line>)
    ensures (forall steps | Requests(steps, lines) :: |Run(Initial(), steps).w.saved| <= SLOTS) <==>
            |lines| <= SLOTS + 1
  {
    if |lines| <= SLOTS + 1 {
      forall steps | Requests(steps, lines) ensures |Run(Initial(), steps).w.saved| <= SLOTS {
        FewLinesFit(steps, lines);
      }
    } else {
      EqualLevelsOverflowTheStack(lines);
    }
  }
}
