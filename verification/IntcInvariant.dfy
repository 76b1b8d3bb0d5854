/** What every run of the interrupt controller keeps, and exactly when and what a clock accepts. */
module IntcInvariant {
  import opened Psw
  import opened Intc

  function WaitingLines(w: Work): set<Line> {
    set n: Line | 0 <= n < LINES && Waiting(w, n)
  }

  ghost predicate Counted(w: Work) {
    && (forall n: Line :: w.lvl[n] <= NO_LEVEL && w.num[n] == if Waiting(w, n) then 1 else 0)
    && w.total == |WaitingLines(w)|
  }

  /** Every preempted interrupt is still waiting and less urgent than the one that preempted it. */
  ghost predicate Chain(w: Work, saved: seq<Line>, top: Line) {
    saved == [] ||
    var k := |saved| - 1;
    Waiting(w, saved[k]) && Key(w, top) < Key(w, saved[k]) && Chain(w, saved[..k], saved[k])
  }

  ghost predicate Nested(w: Work) {
    if w.current == -1 then w.saved == [] else Waiting(w, w.current) && Chain(w, w.saved, w.current)
  }

  ghost predicate Inv(w: Work) {
    Counted(w) && Nested(w)
  }

  /**
    Read pairwise, the chain is strictly decreasing in (level, number) from the oldest interrupt to the current
    one.
   */
  lemma {:induction false} ChainDescends(w: Work, saved: seq<Line>, top: Line, i: nat)
    requires Chain(w, saved, top) && i < |saved|
    ensures Waiting(w, saved[i]) && saved[i] != top && Key(w, top) < Key(w, saved[i])
    ensures forall j :: i < j < |saved| ==> saved[j] != saved[i] && Key(w, saved[j]) < Key(w, saved[i])
    decreases |saved|
  {
    var k := |saved| - 1;
    if i < k {
      ChainDescends(w, saved[..k], saved[k], i);
      forall j | i < j < |saved| ensures saved[j] != saved[i] && Key(w, saved[j]) < Key(w, saved[i]) {
        if j < k { assert saved[..k][j] == saved[j]; }
      }
    }
  }

  // ---- the search ----------------------------------------------------------------------

  /** `n` may be entered from `w`: it is waiting, unmasked and outranks whatever is current. */
  predicate Eligible(w: Work, n: Line) {
    Waiting(w, n) && !Masked(w.icn[n]) && (w.current >= 0 ==> Key(w, n) < Key(w, w.current))
  }

  lemma {:induction false} ScanFindsMinimum(w: Work, i: nat, limit: nat, best: Current)
    requires i <= LINES
    ensures var r := Scan(w, i, limit, best);
      && (r == best || (i <= r && Candidate(w, r) && Key(w, r) < limit))
      && (r == best ==> best >= i || forall n: Line :: i <= n && Candidate(w, n) ==> limit <= Key(w, n))
      && (r != best ==> forall n: Line :: i <= n && Candidate(w, n) ==> Key(w, r) <= Key(w, n))
    decreases LINES - i
  {
    if i < LINES {
      if Candidate(w, i) && Key(w, i) < limit {
        ScanFindsMinimum(w, i + 1, Key(w, i), i);
      } else {
        ScanFindsMinimum(w, i + 1, limit, best);
      }
    }
  }

  lemma KeysDiffer(w: Work, n: Line, m: Line)
    requires n != m
    ensures Key(w, n) != Key(w, m)
  {
    assert Key(w, n) % 65536 == n && Key(w, m) % 65536 == m;
  }

  lemma EligibleIsCandidate(w: Work, n: Line)
    requires Counted(w)
    ensures Eligible(w, n) <==> Candidate(w, n) && Key(w, n) < Limit(w)
  {
  }

  /** get_maxpri_itno returns the unique most urgent eligible line, and -1 exactly when there is none. */
  lemma MostUrgentIsMinimum(w: Work)
    requires Counted(w)
    ensures MostUrgent(w) == -1 <==> forall n: Line :: !Eligible(w, n)
    ensures MostUrgent(w) >= 0 ==> Eligible(w, MostUrgent(w)) && MostUrgent(w) != w.current
    ensures MostUrgent(w) >= 0 ==> forall n: Line :: Eligible(w, n) && n != MostUrgent(w) ==>
        Key(w, MostUrgent(w)) < Key(w, n)
  {
    if w.total == 0 {
      assert WaitingLines(w) == {};
      forall n: Line ensures !Eligible(w, n) {
        assert n !in WaitingLines(w);
      }
    } else {
      var r := MostUrgent(w);
      ScanFindsMinimum(w, 0, Limit(w), -1);
      forall n: Line ensures Eligible(w, n) ==> r >= 0 && (n != r ==> Key(w, r) < Key(w, n)) {
        EligibleIsCandidate(w, n);
        if r >= 0 && n != r { KeysDiffer(w, n, r); }
      }
      if r >= 0 { EligibleIsCandidate(w, r); }
    }
  }

  predicate EntersMaskable(s: State) {
    !s.wdt && s.nmi <= 0 && !s.c.psw.np && !s.c.psw.id && MostUrgent(s.w) >= 0
  }

  /**
    Acceptance is exact: with no NMI or watchdog request pending and NP = ID = 0 a clock enters the
    unique most urgent eligible line, and in every other case it leaves the controller alone.
   */
  lemma AcceptanceIsExact(s: State)
    requires Counted(s.w)
    ensures Clock(s).w != s.w <==>
      !s.wdt && s.nmi <= 0 && !s.c.psw.np && !s.c.psw.id && exists n: Line :: Eligible(s.w, n)
    ensures Clock(s).w != s.w ==>
      var t := Clock(s); var n := t.w.current;
      && n >= 0 && Eligible(s.w, n)
      && (forall m: Line :: Eligible(s.w, m) && m != n ==> Key(s.w, n) < Key(s.w, m))
      && t.w == s.w.(current := n, saved := t.w.saved, ispr := t.w.ispr)
      && t.w.saved == (if s.w.current == -1 then s.w.saved else s.w.saved + [s.w.current])
      && t.c.pc == 0x80 + 16 * n && t.c.eipc == s.c.pc && t.c.eipsw == s.c.psw
      && t.c.psw == s.c.psw.(id := true, ep := false) && !t.c.halted
      && t.c.ecr % 0x1_0000 == 0x80 + 16 * n && t.c.ecr / 0x1_0000 == s.c.ecr / 0x1_0000
      && t.c.fepc == s.c.fepc && t.c.fepsw == s.c.fepsw && t.nmi == s.nmi && t.wdt == s.wdt
  {
    MostUrgentIsMinimum(s.w);
    if MostUrgent(s.w) >= 0 { EcrLowHalf(s.c.ecr, 0x80 + 16 * MostUrgent(s.w)); }
  }

  lemma EcrLowHalf(ecr: int, code: nat)
    requires code < 0x1_0000
    ensures var e := ecr / 0x1_0000 * 0x1_0000 + code; e % 0x1_0000 == code && e / 0x1_0000 == ecr / 0x1_0000
  {
  }

  // ---- preservation --------------------------------------------------------------------

  /** A chain does not notice a change to a line that is not part of it. */
  lemma {:induction false} ChainFrame(w: Work, w': Work, saved: seq<Line>, top: Line, x: Line)
    requires Chain(w, saved, top) && x != top
    requires w'.lvl == w.lvl[x := w'.lvl[x]] && (!Waiting(w, x) || Key(w, x) <= Key(w, top))
    ensures Chain(w', saved, top)
    decreases |saved|
  {
    if saved != [] {
      var k := |saved| - 1;
      ChainFrame(w, w', saved[..k], saved[k], x);
    }
  }

  lemma SameLevelsSameChain(w: Work, w': Work, saved: seq<Line>, top: Line)
    requires Chain(w, saved, top) && w'.lvl == w.lvl
    ensures Chain(w', saved, top)
    decreases |saved|
  {
  }

  /** What a request does to the tables. */
  lemma RequestTables(s: State, n: Line)
    ensures var w := Request(s, n).w;
            && w.current == s.w.current && w.saved == s.w.saved
            && (Waiting(s.w, n) ==> w.lvl == s.w.lvl && w.num == s.w.num && w.total == s.w.total)
            && (!Waiting(s.w, n) ==>
                  w.lvl[n] < NO_LEVEL && w.lvl == s.w.lvl[n := w.lvl[n]]
                  && w.num == s.w.num[n := 1] && w.total == s.w.total + 1)
  {
    hide SetRequest;
  }

  lemma NewWaitingKeepsInv(w: Work, w': Work, n: Line)
    requires Inv(w) && !Waiting(w, n) && w'.current == w.current && w'.saved == w.saved
    requires w'.lvl[n] < NO_LEVEL && w'.lvl == w.lvl[n := w'.lvl[n]] && w'.num == w.num[n := 1]
        && w'.total == w.total + 1
    ensures Inv(w') && WaitingLines(w') == WaitingLines(w) + {n}
  {
    assert WaitingLines(w') == WaitingLines(w) + {n};
    assert n !in WaitingLines(w);
    hide Key;
    if w.current >= 0 { ChainFrame(w, w', w.saved, w.current, n); }
  }

  lemma RequestKeepsInv(s: State, n: Line)
    requires Inv(s.w)
    ensures Inv(Request(s, n).w)
    ensures WaitingLines(Request(s, n).w) == WaitingLines(s.w) + {n}
  {
    RequestTables(s, n);
    hide Request, Key;
    var w := Request(s, n).w;
    if Waiting(s.w, n) {
      assert WaitingLines(w) == WaitingLines(s.w) && n in WaitingLines(s.w);
      if w.current >= 0 { SameLevelsSameChain(s.w, w, w.saved, w.current); }
    } else {
      hide Inv;
      NewWaitingKeepsInv(s.w, w, n);
    }
  }

  lemma ClockKeepsInv(s: State)
    requires Inv(s.w)
    ensures Inv(Clock(s).w)
  {
    var w := Clock(s).w;
    if w != s.w {
      AcceptanceIsExact(s);
      assert WaitingLines(w) == WaitingLines(s.w);
      if s.w.current >= 0 {
        SameLevelsSameChain(s.w, w, s.w.saved, s.w.current);
        assert w.saved[..|w.saved| - 1] == s.w.saved;
      }
    }
  }

  /** The end of an interrupt removes exactly the current line and uncovers the one below it. */
  lemma EndCurrentKeepsInv(w: Work)
    requires Inv(w)
    ensures Inv(EndCurrent(w))
    ensures w.current >= 0 ==> WaitingLines(EndCurrent(w)) == WaitingLines(w) - {w.current}
    ensures w.current >= 0 ==> EndCurrent(w).lvl == w.lvl[w.current := NO_LEVEL]
  {
    if w.current >= 0 {
      var w' := EndCurrent(w);
      assert w'.lvl == w.lvl[w.current := NO_LEVEL] && w'.num == w.num[w.current := 0];
      assert w.current in WaitingLines(w);
      assert WaitingLines(w') == WaitingLines(w) - {w.current};
      if w.saved != [] {
        ChainFrame(w, w', w'.saved, w'.current, w.current);
      }
    }
  }

  lemma SameTables(w: Work, w': Work)
    requires Inv(w) && w' == w.(icn := w'.icn)
    ensures Inv(w') && WaitingLines(w') == WaitingLines(w)
  {
    assert WaitingLines(w') == WaitingLines(w);
    if w.current >= 0 { SameLevelsSameChain(w, w', w.saved, w.current); }
  }

  lemma ApplyKeepsInv(s: State, step: Step)
    requires Inv(s.w)
    ensures Inv(Apply(s, step).w)
  {
    match step
    case RequestLine(n) => RequestKeepsInv(s, n);
    case Tick => ClockKeepsInv(s);
    case WriteIcn8(n, b) =>
      EndCurrentKeepsInv(s.w);
      SameTables(EndCurrent(s.w), Apply(s, step).w);
    case WriteIcn16(n, b) => SameTables(s.w, Apply(s, step).w);
    case WriteImr(k, data) => SameTables(s.w, Apply(s, step).w);
    case _ =>
  }

  lemma InitialInv()
    ensures Inv(Initial().w)
  {
    assert WaitingLines(Initial().w) == {};
  }

  lemma {:induction false} RunKeepsInv(s: State, steps: seq<Step>)
    requires Inv(s.w)
    ensures Inv(Run(s, steps).w)
    decreases |steps|
  {
    if steps != [] {
      ApplyKeepsInv(s, steps[0]);
      RunKeepsInv(Apply(s, steps[0]), steps[1..]);
    }
  }

  /** Every state reachable from reset, by any steps in any order, keeps the counts and the nesting order. */
  lemma ReachableInv(steps: seq<Step>)
    ensures Inv(Run(Initial(), steps).w)
  {
    InitialInv();
    RunKeepsInv(Initial(), steps);
  }

  /** A waiting request leaves the table only through the end of its own handler. */
  lemma OnlyOwnEndClears(s: State, step: Step, n: Line)
    requires Inv(s.w) && Waiting(s.w, n)
    ensures !Waiting(Apply(s, step).w, n) <==> step.WriteIcn8? && s.w.current == n
    ensures Waiting(Apply(s, step).w, n) ==> Apply(s, step).w.lvl[n] == s.w.lvl[n]
  {
    match step {
      case RequestLine(m) => RequestTables(s, m); hide Request, Inv;
      case Tick => ClockKeepsLevels(s); hide Clock, Inv;
      case WriteIcn8(m, b) => EndCurrentKeepsInv(s.w); hide EndCurrent, Inv;
      case _ => OthersKeepLevels(s, step); hide Apply, Inv;
    }
  }

  lemma OthersKeepLevels(s: State, step: Step)
    requires !step.RequestLine? && !step.Tick? && !step.WriteIcn8?
    ensures Apply(s, step).w.lvl == s.w.lvl
  {
    hide Clock, Request, EndCurrent;
  }

  lemma ClockKeepsLevels(s: State)
    ensures Clock(s).w.lvl == s.w.lvl
  {
    hide MostUrgent;
  }
}
