/** With nothing new arriving, repeated service empties the table of unmasked requests in order of urgency. */
module IntcDrain {
  import opened Intc
  import opened IntcInvariant

  function Pending(w: Work): set<Line> {
    set n: Line | 0 <= n < LINES && Waiting(w, n) && !Masked(w.icn[n])
  }

  /** No handler is active and nothing but masking can hold a request back. */
  ghost predicate Idle(s: State) {
    Inv(s.w) && s.w.current == -1 && !s.wdt && s.nmi <= 0 && !s.c.psw.np && !s.c.psw.id
  }

  /** The write that ends a handler may hit any xxICn and change its level, but not its mask bit. */
  type Write = (Line, Byte)

  predicate KeepsMask(w: Work, write: Write) { Masked(write.1) == Masked(w.icn[write.0]) }

  ghost predicate SameMasks(w: Work, w': Work) {
    forall n: Line :: Masked(w'.icn[n]) == Masked(w.icn[n])
  }

  /** One round: a clock accepts, the handler ends its interrupt and returns. */
  function Round(s: State, write: Write): State {
    Reti(PutIcn8(Clock(s), write.0, write.1))
  }

  function Rounds(s: State, writes: seq<Write>): State
    decreases |writes|
  {
    if writes == [] then s else Rounds(Round(s, writes[0]), writes[1..])
  }

  /** The lines entered by the clocks of those rounds, in order. */
  function Served(s: State, writes: seq<Write>): seq<Current>
    decreases |writes|
  {
    if writes == [] then [] else [Clock(s).w.current] + Served(Round(s, writes[0]), writes[1..])
  }

  ghost predicate MostUrgentOf(w: Work, n: Line, all: set<Line>) {
    n in all && forall m :: m in all && m != n ==> Key(w, n) < Key(w, m)
  }

  /** `lines` lists the set `all`, each member once and always the most urgent one left. */
  ghost predicate InOrder(w: Work, lines: seq<Current>, all: set<Line>)
    decreases |lines|
  {
    if lines == [] then all == {}
    else lines[0] >= 0 && MostUrgentOf(w, lines[0], all) && InOrder(w, lines[1..], all - {lines[0]})
  }

  /** Read pairwise: strictly increasing keys, and exactly the members of the set. */
  lemma {:induction false} InOrderMeans(w: Work, lines: seq<Current>, all: set<Line>)
    requires InOrder(w, lines, all)
    ensures forall n: Current :: n in lines <==> n >= 0 && n in all
    ensures forall i, j :: 0 <= i < j < |lines| ==>
              lines[i] >= 0 && lines[j] >= 0 && Key(w, lines[i]) < Key(w, lines[j])
    decreases |lines|
  {
    if lines != [] {
      InOrderMeans(w, lines[1..], all - {lines[0]});
      assert lines == [lines[0]] + lines[1..];
      forall i, j | 0 <= i < j < |lines| ensures lines[i] >= 0 && lines[j] >= 0 && Key(w, lines[i]) < Key(w, lines[j]) {
        assert lines[j] == lines[1..][j - 1];
        if i > 0 {
          assert lines[i] == lines[1..][i - 1];
        } else {
          assert lines[j] in lines[1..];
        }
      }
    }
  }

  lemma {:induction false} InOrderFrame(w: Work, w': Work, lines: seq<Current>, all: set<Line>)
    requires InOrder(w', lines, all) && forall n: Line :: n in all ==> w'.lvl[n] == w.lvl[n]
    ensures InOrder(w, lines, all)
    decreases |lines|
  {
    if lines != [] {
      InOrderFrame(w, w', lines[1..], all - {lines[0]});
    }
  }

  lemma IdleEnters(s: State)
    requires Idle(s) && Pending(s.w) != {}
    ensures var n := MostUrgent(s.w); n >= 0 && MostUrgentOf(s.w, n, Pending(s.w)) && Clock(s) == Raise(s, n)
  {
    MostUrgentIsMinimum(s.w);
    forall m: Line ensures Eligible(s.w, m) <==> m in Pending(s.w) {}
    var some :| some in Pending(s.w);
    assert Eligible(s.w, some);
  }

  lemma ReturnUndoesEntry(s: State, n: Line, w: Work)
    requires !s.wdt && !s.c.psw.np && !s.c.psw.id
    ensures var t := Reti(Raise(s, n).(w := w));
            t.c.pc == s.c.pc && t.c.psw == s.c.psw && t.w == w && t.nmi == s.nmi && !t.wdt
  {
  }

  lemma EndServesOne(w: Work, write: Write)
    requires Inv(w) && w.current >= 0 && w.saved == [] && KeepsMask(w, write) && !Masked(w.icn[w.current])
    ensures var ended := EndCurrent(w); var t := ended.(icn := ended.icn[write.0 := write.1]);
      && Inv(t) && t.current == -1 && t.lvl == w.lvl[w.current := NO_LEVEL] && SameMasks(w, t)
      && WaitingLines(t) == WaitingLines(w) - {w.current} && Pending(t) == Pending(w) - {w.current}
  {
    var ended := EndCurrent(w);
    var t := ended.(icn := ended.icn[write.0 := write.1]);
    EndCurrentKeepsInv(w);
    SameTables(ended, t);
    forall m: Line ensures Masked(t.icn[m]) == Masked(w.icn[m]) {}
    assert Pending(t) == Pending(w) - {w.current};
  }

  /** A round serves the most urgent pending line and gives back the core as it was. */
  lemma RoundServesOne(s: State, write: Write)
    requires Idle(s) && Pending(s.w) != {} && KeepsMask(s.w, write)
    ensures var n := Clock(s).w.current; var t := Round(s, write);
      && n >= 0 && MostUrgentOf(s.w, n, Pending(s.w))
      && Idle(t) && t.c.pc == s.c.pc && t.c.psw == s.c.psw
      && t.w.lvl == s.w.lvl[n := NO_LEVEL] && SameMasks(s.w, t.w)
      && WaitingLines(t.w) == WaitingLines(s.w) - {n} && Pending(t.w) == Pending(s.w) - {n}
  {
    IdleEnters(s);
    ClockKeepsInv(s);
    var entered := Clock(s).w;
    assert entered == s.w.(current := entered.current, ispr := entered.ispr);
    assert WaitingLines(entered) == WaitingLines(s.w) && Pending(entered) == Pending(s.w);
    EndServesOne(entered, write);
    ReturnUndoesEntry(s, MostUrgent(s.w), PutIcn8(Clock(s), write.0, write.1).w);
  }

  lemma IdleWithNothingPendingStays(s: State)
    requires Idle(s) && Pending(s.w) == {}
    ensures Clock(s) == s
  {
    MostUrgentIsMinimum(s.w);
    forall m: Line ensures !Eligible(s.w, m) {
      assert m !in Pending(s.w);
    }
  }

  lemma MasksCarryOver(w: Work, w': Work, writes: seq<Write>)
    requires SameMasks(w, w') && writes != [] && forall write :: write in writes ==> KeepsMask(w, write)
    ensures forall write :: write in writes[1..] ==> KeepsMask(w', write)
  {
    forall write | write in writes[1..] ensures KeepsMask(w', write) {
      assert write in writes;
      assert Masked(w'.icn[write.0]) == Masked(w.icn[write.0]);
    }
  }

  lemma OneMoreServed(w: Work, w': Work, n: Line, rest: seq<Current>, final: Work)
    requires MostUrgentOf(w, n, Pending(w)) && w'.lvl == w.lvl[n := NO_LEVEL]
    requires WaitingLines(w') == WaitingLines(w) - {n} && Pending(w') == Pending(w) - {n}
    requires InOrder(w', rest, Pending(w')) && WaitingLines(final) == WaitingLines(w') - Pending(w')
    ensures InOrder(w, [n] + rest, Pending(w)) && WaitingLines(final) == WaitingLines(w) - Pending(w)
  {
    InOrderFrame(w, w', rest, Pending(w'));
    assert ([n] + rest)[1..] == rest;
    assert WaitingLines(w) - {n} - (Pending(w) - {n}) == WaitingLines(w) - Pending(w);
  }

  /**
    As many rounds as there are unmasked waiting requests serve each of them exactly once, most urgent
    first; then only masked requests are left, the core is back where it was, and no clock accepts anything.
   */
  lemma {:induction false} DrainsInOrder(s: State, writes: seq<Write>)
    requires Idle(s) && |writes| == |Pending(s.w)|
    requires forall write :: write in writes ==> KeepsMask(s.w, write)
    ensures InOrder(s.w, Served(s, writes), Pending(s.w))
    ensures var t := Rounds(s, writes);
      && Idle(t) && t.c.pc == s.c.pc && t.c.psw == s.c.psw && Clock(t) == t
      && WaitingLines(t.w) == WaitingLines(s.w) - Pending(s.w)
    decreases |writes|
  {
    if writes == [] {
      IdleWithNothingPendingStays(s);
      assert WaitingLines(s.w) - Pending(s.w) == WaitingLines(s.w);
    } else {
      var n := Clock(s).w.current;
      var t := Round(s, writes[0]);
      RoundServesOne(s, writes[0]);
      MasksCarryOver(s.w, t.w, writes);
      DrainsInOrder(t, writes[1..]);
      OneMoreServed(s.w, t.w, n, Served(t, writes[1..]), Rounds(t, writes[1..]).w);
    }
  }

  /** waiting_int_num is the measure: after the last round it counts the masked requests alone. */
  lemma CountAfterDrain(s: State, writes: seq<Write>)
    requires Idle(s) && |writes| == |Pending(s.w)|
    requires forall write :: write in writes ==> KeepsMask(s.w, write)
    ensures Rounds(s, writes).w.total == s.w.total - |writes|
  {
    DrainsInOrder(s, writes);
    assert Pending(s.w) <= WaitingLines(s.w);
    assert |WaitingLines(s.w) - Pending(s.w)| == |WaitingLines(s.w)| - |Pending(s.w)|;
  }
}
