/** From the bytes written to xxICn and the lines requested to the order of service and to what is masked. */
module IntcOrder {
  import opened Psw
  import opened Intc
  import opened IntcInvariant
  import opened IntcDrain

  /** A byte is written to the line's xxICn register and then the line is requested. */
  datatype Ask = Ask(n: Line, b: Byte)

  function AskSteps(asks: seq<Ask>): seq<Step> {
    if asks == [] then [] else [WriteIcn16(asks[0].n, asks[0].b), RequestLine(asks[0].n)] + AskSteps(asks[1..])
  }

  ghost predicate DistinctLines(asks: seq<Ask>) {
    forall i, j :: 0 <= i < j < |asks| ==> asks[i].n != asks[j].n
  }

  /** Bit 6 of the byte is clear. */
  predicate Unmasked(a: Ask) { a.b / 64 % 2 == 0 }

  /** Bits 2 to 0 decide, the smaller number first; the lower line breaks ties. */
  predicate Before(a: Ask, b: Ask) { a.b % 8 < b.b % 8 || (a.b % 8 == b.b % 8 && a.n < b.n) }

  // ---- what the requests leave in the table ------------------------------------------------

  /** A request latches the low three bits of the line's byte, if the line was not waiting, and wakes the core. */
  lemma RequestLatches(s: State, n: Line)
    ensures var t := Request(s, n);
            && (if Waiting(s.w, n) then t.w.lvl == s.w.lvl else t.w.lvl == s.w.lvl[n := s.w.icn[n] % 8])
            && t.w.icn == s.w.icn[n := s.w.icn[n] % 128 + 128]
            && t.c == s.c.(halted := false) && t.nmi == s.nmi && t.wdt == s.wdt
            && t.w.current == s.w.current && t.w.saved == s.w.saved && t.w.ispr == s.w.ispr
  {
  }

  /** What the steps of `asks` do to a state on whose table none of the lines waits. */
  ghost predicate Latched(s: State, asks: seq<Ask>, t: State) {
    && (forall a <- asks :: t.w.lvl[a.n] == a.b % 8 && t.w.icn[a.n] == a.b % 128 + 128)
    && (forall n: Line :: (forall a <- asks :: a.n != n) ==> t.w.lvl[n] == s.w.lvl[n] && t.w.icn[n] == s.w.icn[n])
    && t.w.current == s.w.current && t.w.saved == s.w.saved && t.nmi == s.nmi && t.wdt == s.wdt
    && t.c.psw == s.c.psw && t.c.pc == s.c.pc
  }

  ghost predicate NoneWaits(w: Work, asks: seq<Ask>) { forall a <- asks :: !Waiting(w, a.n) }

  lemma OneAsk(s: State, a: Ask)
    requires !Waiting(s.w, a.n)
    ensures Latched(s, [a], Request(PutIcn16(s, a.n, a.b), a.n))
  {
    RequestLatches(PutIcn16(s, a.n, a.b), a.n);
    hide Request, Priority, SetRequest;
    assert a in [a];
  }

  lemma LatchedAfter(s: State, a: Ask, rest: seq<Ask>, middle: State, t: State)
    requires Latched(s, [a], middle) && Latched(middle, rest, t) && forall b <- rest :: b.n != a.n
    ensures Latched(s, [a] + rest, t)
  {
    assert a in [a];
    forall n: Line | forall b <- [a] + rest :: b.n != n
      ensures t.w.lvl[n] == s.w.lvl[n] && t.w.icn[n] == s.w.icn[n]
    {
      assert forall b <- [a] :: b in [a] + rest;
      assert forall b <- rest :: b in [a] + rest;
    }
  }

  lemma {:induction false} AsksLatch(s: State, asks: seq<Ask>)
    requires DistinctLines(asks) && NoneWaits(s.w, asks)
    ensures Latched(s, asks, Run(s, AskSteps(asks)))
    decreases |asks|
  {
    if asks != [] {
      var a, rest := asks[0], asks[1..];
      var middle := Request(PutIcn16(s, a.n, a.b), a.n);
      assert a in asks && asks == [a] + rest;
      OneAsk(s, a);
      TwoSteps(s, a, rest);
      forall b <- rest ensures b.n != a.n && b in asks {
        var k :| 0 <= k < |rest| && rest[k] == b;
        assert asks[k + 1] == b;
      }
      forall b <- rest ensures !Waiting(middle.w, b.n) { assert forall c <- [a] :: c.n != b.n; }
      forall i, j | 0 <= i < j < |rest| ensures rest[i].n != rest[j].n { assert asks[i + 1].n != asks[j + 1].n; }
      AsksLatch(middle, rest);
      LatchedAfter(s, a, rest, middle, Run(middle, AskSteps(rest)));
    }
  }

  lemma TwoSteps(s: State, a: Ask, rest: seq<Ask>)
    ensures Run(s, AskSteps([a] + rest)) == Run(Request(PutIcn16(s, a.n, a.b), a.n), AskSteps(rest))
  {
    var steps := AskSteps([a] + rest);
    assert ([a] + rest)[1..] == rest;
    assert steps[0] == WriteIcn16(a.n, a.b) && steps[1..][0] == RequestLine(a.n) && steps[1..][1..] == AskSteps(rest);
    hide Request, PutIcn16;
  }

  // ---- the order of service ----------------------------------------------------------------

  lemma KeyOrder(w: Work, n: Line, m: Line)
    ensures Key(w, n) < Key(w, m) <==> w.lvl[n] < w.lvl[m] || (w.lvl[n] == w.lvl[m] && n < m)
  {
  }

  /** An idle core on which nothing unmasked waits, and none of the lines asked for. */
  ghost predicate Quiet(s: State, asks: seq<Ask>) {
    Idle(s) && Pending(s.w) == {} && DistinctLines(asks) && NoneWaits(s.w, asks)
  }

  /** After the requests exactly the unmasked lines are pending. */
  lemma AsksPend(s: State, asks: seq<Ask>)
    requires Quiet(s, asks)
    ensures var t := Run(s, AskSteps(asks));
            Idle(t) && (forall n: Line :: n in Pending(t.w) <==> exists a :: a in asks && a.n == n && Unmasked(a))
  {
    hide Run, AskSteps, Inv, DistinctLines;
    var t := Run(s, AskSteps(asks));
    AsksLatch(s, asks);
    RunKeepsInv(s, AskSteps(asks));
    forall n: Line ensures n in Pending(t.w) <==> exists a :: a in asks && a.n == n && Unmasked(a) {
      if a :| a in asks && a.n == n {
        MaskBit(a.b);
        SameLineSameAsk(asks, a, t);
      } else {
        assert n !in Pending(s.w);
      }
    }
  }

  lemma MaskBit(b: Byte)
    ensures Masked(b % 128 + 128) <==> b / 64 % 2 == 1
  {
  }

  lemma SameLineSameAsk(asks: seq<Ask>, a: Ask, t: State)
    requires a in asks && forall b <- asks :: t.w.icn[b.n] == b.b % 128 + 128
    ensures forall b <- asks :: b.n == a.n ==> (Unmasked(b) <==> Unmasked(a))
  {
    forall b <- asks | b.n == a.n ensures Unmasked(b) <==> Unmasked(a) {
      MaskBit(a.b);
      MaskBit(b.b);
    }
  }

  lemma UrgencyOfAsks(s: State, asks: seq<Ask>, a: Ask, b: Ask)
    requires Quiet(s, asks) && a in asks && b in asks
    ensures var w := Run(s, AskSteps(asks)).w; Key(w, a.n) < Key(w, b.n) <==> Before(a, b)
  {
    AsksLatch(s, asks);
    KeyOrder(Run(s, AskSteps(asks)).w, a.n, b.n);
    hide Run, AskSteps, Key;
  }

  /**
    The clock after the requests enters a line if and only if it comes before every other unmasked line that
    was asked for, whatever the order of the requests; its handler is at 0x80 + 16 n.
   */
  lemma NextServed(s: State, asks: seq<Ask>, a: Ask)
    requires Quiet(s, asks) && a in asks && Unmasked(a)
    ensures var t := Clock(Run(s, AskSteps(asks)));
            && (t.w.current == a.n <==> forall b <- asks :: Unmasked(b) && b.n != a.n ==> Before(a, b))
            && (t.w.current == a.n ==> t.c.pc == 0x80 + 16 * a.n)
  {
    var u := Run(s, AskSteps(asks));
    AsksPend(s, asks);
    assert a.n in Pending(u.w);
    IdleEnters(u);
    forall b <- asks ensures b.n in Pending(u.w) <==> Unmasked(b) { AsksLatch(s, asks); SameLineSameAsk(asks, b, u); }
    hide Run, AskSteps, Pending, Idle, Clock, MostUrgent, Key, Before;
    var n := MostUrgent(u.w);
    if n == a.n {
      forall b <- asks | Unmasked(b) && b.n != a.n ensures Before(a, b) { UrgencyOfAsks(s, asks, a, b); }
    } else {
      var b :| b in asks && b.n == n && Unmasked(b);
      UrgencyOfAsks(s, asks, b, a);
      UrgencyOfAsks(s, asks, a, b);
    }
    EntryAt(u, n);
  }

  lemma EntryAt(s: State, n: Line)
    requires !s.c.psw.np && !s.c.psw.id
    ensures Raise(s, n).w.current == n && Raise(s, n).c.pc == 0x80 + 16 * n
  {
  }

  /**
    Served round by round after the requests, the lines come in the order of bits 2 to 0 of their bytes and
    then of their numbers, and they are exactly those whose bit 6 is clear.
   */
  lemma ServedByBytes(s: State, asks: seq<Ask>, writes: seq<Write>)
    requires Quiet(s, asks)
    requires var t := Run(s, AskSteps(asks));
             |writes| == |Pending(t.w)| && forall write :: write in writes ==> KeepsMask(t.w, write)
    ensures var order := Served(Run(s, AskSteps(asks)), writes);
      && (forall n: Line :: n in order <==> exists a :: a in asks && a.n == n && Unmasked(a))
      && (forall i, j, a, b :: 0 <= i < j < |order| && a in asks && b in asks && a.n == order[i] && b.n == order[j] ==>
            Before(a, b))
  {
    hide Run, AskSteps, Pending, Idle, Key, Before, Served, Rounds, InOrder;
    var t := Run(s, AskSteps(asks));
    var order := Served(t, writes);
    AsksPend(s, asks);
    DrainsInOrder(t, writes);
    InOrderMeans(t.w, order, Pending(t.w));
    forall i, j, a, b | 0 <= i < j < |order| && a in asks && b in asks && a.n == order[i] && b.n == order[j]
      ensures Before(a, b)
    {
      UrgencyOfAsks(s, asks, a, b);
    }
  }

  /** Two unmasked requests from reset with interrupts enabled. */
  function TwoRequests(n: Line, p: Byte, m: Line, q: Byte): seq<Step> {
    [EnableInterrupts, WriteIcn16(n, p), RequestLine(n), WriteIcn16(m, q), RequestLine(m), Tick]
  }

  lemma EnabledIsQuiet(asks: seq<Ask>)
    requires DistinctLines(asks)
    ensures Quiet(Ei(Initial()), asks)
  {
    InitialInv();
    SameTables(Initial().w, Ei(Initial()).w);
  }

  /** Of two unmasked requests the clock enters the one of lower level, and the lower line on equal levels. */
  lemma TwoRequestsByBytes(n: Line, p: Byte, m: Line, q: Byte)
    requires n != m && p / 64 % 2 == 0 && q / 64 % 2 == 0
    ensures var t := Run(Initial(), TwoRequests(n, p, m, q));
            && (t.w.current == n <==> p % 8 < q % 8 || (p % 8 == q % 8 && n < m))
            && (t.w.current == n || t.w.current == m)
            && t.c.pc == 0x80 + 16 * t.w.current
  {
    var a, b := Ask(n, p), Ask(m, q);
    var asks := [a, b];
    EnabledIsQuiet(asks);
    NextServed(Ei(Initial()), asks, a);
    NextServed(Ei(Initial()), asks, b);
    TwoRequestsAreAsks(a, b);
    assert a in asks && b in asks;
    assert forall c <- asks :: c == a || c == b;
    hide Run, AskSteps, Quiet, Initial, Clock;
  }

  lemma TwoRequestsAreAsks(a: Ask, b: Ask)
    ensures Run(Initial(), TwoRequests(a.n, a.b, b.n, b.b)) == Clock(Run(Ei(Initial()), AskSteps([a, b])))
  {
    var middle := AskSteps([a, b]);
    AskStepsOfTwo(a, b);
    assert TwoRequests(a.n, a.b, b.n, b.b) == [EnableInterrupts] + (middle + [Tick]);
    RunAppend(Initial(), [EnableInterrupts], middle + [Tick]);
    RunAppend(Ei(Initial()), middle, [Tick]);
    RunOne(Initial(), EnableInterrupts);
    RunOne(Run(Ei(Initial()), middle), Tick);
    hide Run, AskSteps, Clock, Ei, Initial, TwoRequests;
  }

  lemma AskStepsOfTwo(a: Ask, b: Ask)
    ensures AskSteps([a, b]) == [WriteIcn16(a.n, a.b), RequestLine(a.n), WriteIcn16(b.n, b.b), RequestLine(b.n)]
  {
    assert [a, b][1..] == [b] && [b][1..] == [];
    assert AskSteps([b]) == [WriteIcn16(b.n, b.b), RequestLine(b.n)] + AskSteps([]);
  }

  lemma RunOne(s: State, step: Step)
    ensures Run(s, [step]) == Apply(s, step)
  {
    assert [step][1..] == [];
    hide Apply;
  }

  // ---- the end of an interrupt -------------------------------------------------------------

  /**
    An 8-bit write to any xxICn while a handler runs: the request bit of the current line is cleared and its
    level is free, the ISPR bit of that level is cleared, the preempted interrupt below becomes current, and
    then the byte is stored.
   */
  lemma EndIsExact(s: State, n: Line, b: Byte)
    requires Inv(s.w) && s.w.current >= 0
    ensures var w, t := s.w, PutIcn8(s, n, b);
      && t == s.(w := t.w)
      && t.w.icn == w.icn[w.current := w.icn[w.current] % 128][n := b]
      && t.w.lvl == w.lvl[w.current := NO_LEVEL] && t.w.num == w.num[w.current := 0] && t.w.total == w.total - 1
      && t.w.ispr == w.ispr[w.lvl[w.current] := false]
      && (if w.saved == [] then t.w.current == -1 && t.w.saved == []
          else w.saved == t.w.saved + [t.w.current])
  {
    assert Waiting(s.w, s.w.current) && s.w.num[s.w.current] == 1;
    hide Chain;
  }

  // ---- IMR ---------------------------------------------------------------------------------

  /**
    An IMR write sets the mask bit of exactly the lines it covers to their data bits and leaves the rest of
    every byte, and everything else, alone.
   */
  lemma ImrWritesMasks(s: State, k: nat, data: Bits)
    ensures var t := PutImr(s, k, data);
      && t == s.(w := s.w.(icn := t.w.icn))
      && forall n: Line :: var was, now := s.w.icn[n], t.w.icn[n];
           if 16 * k <= n < 16 * k + |data| && n != PADDING
           then (now / 64 % 2 == 1 <==> data[n - 16 * k]) && now % 64 == was % 64 && now / 128 == was / 128
           else now == was
  {
    forall n: Line ensures var was, now := s.w.icn[n], PutImr(s, k, data).w.icn[n];
           if 16 * k <= n < 16 * k + |data| && n != PADDING
           then (now / 64 % 2 == 1 <==> data[n - 16 * k]) && now % 64 == was % 64 && now / 128 == was / 128
           else now == was
    {
      if 16 * k <= n < 16 * k + |data| { PutMaskSetsOneBit(s.w.icn[n], data[n - 16 * k]); }
      hide PutMask;
    }
  }

  lemma PutMaskSetsOneBit(b: Byte, masked: bool)
    ensures var c := PutMask(b, masked); (c / 64 % 2 == 1 <==> masked) && c % 64 == b % 64 && c / 128 == b / 128
  {
  }

  /** A line covered by the write is held back if and only if its data bit is set. */
  lemma ImrHoldsBack(s: State, k: nat, data: Bits, n: Line)
    requires 16 * k <= n < 16 * k + |data| && n != PADDING && Idle(s) && Waiting(s.w, n)
    ensures n in Pending(PutImr(s, k, data).w) <==> !data[n - 16 * k]
  {
    ImrWritesMasks(s, k, data);
    hide PutImr;
  }

  // ---- after reset -------------------------------------------------------------------------

  ghost predicate AllMasked(w: Work) { forall n: Line :: w.icn[n] / 64 % 2 == 1 }

  /** Steps that write no xxICn and no IMR. */
  predicate LeavesMasks(step: Step) { !step.WriteIcn8? && !step.WriteIcn16? && !step.WriteImr? }

  lemma StaysMasked(s: State, step: Step)
    requires Inv(s.w) && s.w.current == -1 && AllMasked(s.w) && LeavesMasks(step)
    ensures var w := Apply(s, step).w; Inv(w) && w.current == -1 && AllMasked(w)
  {
    ApplyKeepsInv(s, step);
    if step.RequestLine? { RequestLatches(s, step.n); }
    if step.Tick? {
      MostUrgentIsMinimum(s.w);
      assert forall n: Line :: !Eligible(s.w, n);
    }
    hide Request, MostUrgent, Inv;
  }

  lemma {:induction false} RunStaysMasked(s: State, steps: seq<Step>)
    requires Inv(s.w) && s.w.current == -1 && AllMasked(s.w) && forall step <- steps :: LeavesMasks(step)
    ensures Run(s, steps).w.current == -1 && AllMasked(Run(s, steps).w)
    decreases |steps|
  {
    if steps != [] {
      assert steps[0] in steps && forall step <- steps[1..] :: step in steps;
      StaysMasked(s, steps[0]);
      hide Inv, Apply, AllMasked, LeavesMasks;
      RunStaysMasked(Apply(s, steps[0]), steps[1..]);
    }
  }

  /** From reset no maskable handler is entered, whatever is requested or enabled, until a mask is written. */
  lemma MaskedFromReset(steps: seq<Step>)
    requires forall step <- steps :: LeavesMasks(step)
    ensures Run(Initial(), steps).w.current == -1 && AllMasked(Run(Initial(), steps).w)
  {
    InitialInv();
    hide Inv;
    RunStaysMasked(Initial(), steps);
  }
}
