/**
  The interval and free-running timer (src/device/peripheral/timer/timer32.c, CPUEMU_CLOCK_BUG_FIX
  variant): one channel's update, the clock-skip interval, and what both do over whole runs.
 */
module Timer {
  const WORD := 0x1_0000_0000
  const LONG := 0x1_0000_0000_0000_0000

  datatype Status = Stop | Ready | Running
  datatype Mode = Freerun | Interval

  type Word = w: int | 0 <= w < WORD
  type Divider = w: int | 1 <= w < WORD witness 1
  type Long = w: int | 0 <= w < LONG

  datatype Channel = Channel(cnt: Word, status: Status, mode: Mode, compare0: Word, start: Long, fd: Divider)

  datatype Update = Update(c: Channel, fired: bool)

  // ---- one tick --------------------------------------------------------------------------

  /** The state and start_clock part of device_timer_do_update. */
  function Started(c: Channel, clock: Long): Channel {
    match c.status
    case Stop => if c.mode == Freerun && c.start != 0 then c.(start := (c.start + c.fd) % LONG) else c
    case Ready => c.(status := Running, start := if c.start == 0 || c.mode == Interval then clock else c.start)
    case Running => c
  }

  /** The count `clock` gives a channel that started at `start`. */
  function CountAt(clock: Long, start: Long, fd: Divider): Word { (clock - start) % LONG / fd % WORD }

  /** The clocks that `n` ticks of a channel take. */
  function Span(n: int, fd: Divider): int { if n <= 0 then 0 else Span(n - 1, fd) + fd }

  lemma {:induction false} SpanIsProduct(n: nat, fd: Divider)
    ensures Span(n, fd) == n * fd
  {
    if n > 0 {
      SpanIsProduct(n - 1, fd);
      assert n * fd == (n - 1) * fd + fd;
    }
  }

  /** device_timer_do_update; a match in interval mode raises the interrupt and rearms the channel. */
  function DoUpdate(c: Channel, clock: Long): Update {
    var s := Started(c, clock);
    var counted := s.(cnt := CountAt(clock, s.start, s.fd));
    if s.mode == Interval && counted.cnt == s.compare0
    then Update(counted.(status := Ready), true)
    else Update(counted, false)
  }

  lemma WholeMultiple(e: int, d: nat)
    requires d > 0
    ensures e >= 1 ==> e * d >= d
    ensures e <= -1 ==> e * d + d <= 0
  {
  }

  lemma QuotientRemainder(q: int, d: nat, r: nat)
    requires r < d
    ensures (q * d + r) / d == q && (q * d + r) % d == r
  {
    var x := q * d + r;
    var e := x / d - q;
    assert e * d == (x / d) * d - q * d;
    assert e * d == r - x % d;
    WholeMultiple(e, d);
  }

  /** A start q whole periods back gives the count q. */
  lemma CountIs(clock: Long, start: Long, fd: Divider, q: nat)
    requires clock == start + Span(q, fd)
    ensures CountAt(clock, start, fd) == q % WORD
  {
    SpanIsProduct(q, fd);
    hide Span;
    assert (clock - start) % LONG == clock - start;
    QuotientRemainder(q, fd, 0);
  }

  // ---- interval mode ---------------------------------------------------------------------

  /** The channel after the ticks at `clock`, `clock + fd`, ..., `clock + Span(n, fd)`. */
  function AfterTicks(c: Channel, clock: nat, n: nat): Update
    requires clock + Span(n, c.fd) < LONG
    ensures AfterTicks(c, clock, n).c.fd == c.fd
  {
    if n == 0 then DoUpdate(c, clock)
    else
      Before(n, c.fd);
      DoUpdate(AfterTicks(c, clock, n - 1).c, clock + Span(n, c.fd))
  }

  /** Where an interval channel stands `phase` ticks after it last started counting. */
  ghost predicate InPhase(u: Update, compare0: Word, clock: int, phase: nat) {
    && u.c.mode == Interval && u.c.compare0 == compare0
    && phase <= compare0 && u.c.cnt == phase && u.fired == (phase == compare0)
    && u.c.status == (if phase == compare0 then Ready else Running)
    && clock == u.c.start + Span(phase, u.c.fd)
  }

  lemma Restarts(u: Update, compare0: Word, clock: nat)
    requires InPhase(u, compare0, clock, compare0) && clock + u.c.fd < LONG
    ensures InPhase(DoUpdate(u.c, clock + u.c.fd), compare0, clock + u.c.fd, 0)
  {
    Before(1, u.c.fd);
    hide Span, CountAt;
    CountIs(clock + u.c.fd, clock + u.c.fd, u.c.fd, 0);
  }

  lemma CountsOn(u: Update, compare0: Word, clock: nat, phase: nat)
    requires InPhase(u, compare0, clock, phase) && phase < compare0 && clock + u.c.fd < LONG
    ensures InPhase(DoUpdate(u.c, clock + u.c.fd), compare0, clock + u.c.fd, phase + 1)
  {
    Before(phase + 1, u.c.fd);
    hide Span, CountAt;
    CountIs(clock + u.c.fd, u.c.start, u.c.fd, phase + 1);
    assert (phase + 1) % WORD == phase + 1;
  }

  lemma PhaseAdvances(u: Update, compare0: Word, clock: nat, phase: nat)
    requires InPhase(u, compare0, clock, phase) && clock + u.c.fd < LONG
    ensures InPhase(DoUpdate(u.c, clock + u.c.fd), compare0, clock + u.c.fd, if phase == compare0 then 0 else phase + 1)
  {
    hide Span, DoUpdate;
    if phase == compare0 { Restarts(u, compare0, clock); } else { CountsOn(u, compare0, clock, phase); }
  }

  /** How many ticks past its last start an interval channel is at tick `n`. */
  function Phase(n: nat, compare0: nat): nat { n % (compare0 + 1) }

  lemma NextPhase(n: nat, compare0: nat)
    ensures Phase(n + 1, compare0) == if Phase(n, compare0) == compare0 then 0 else Phase(n, compare0) + 1
    ensures Phase(0, compare0) == 0 && Phase(n, compare0) <= compare0
  {
    var period := compare0 + 1;
    SuccessorRemainder(n, n / period, n % period, period);
  }

  lemma SuccessorRemainder(n: nat, q: nat, r: nat, period: nat)
    requires r < period && n == q * period + r
    ensures (n + 1) % period == if r == period - 1 then 0 else r + 1
  {
    if r == period - 1 {
      assert (q + 1) * period == q * period + period;
      QuotientRemainder(q + 1, period, 0);
    } else {
      QuotientRemainder(q, period, r + 1);
    }
  }

  lemma {:induction false} Before(n: nat, fd: Divider)
    requires n > 0
    ensures Span(n - 1, fd) == Span(n, fd) - fd && 0 <= Span(n - 1, fd) && Span(0, fd) == 0
  {
    if n > 1 { Before(n - 1, fd); }
  }

  lemma FirstTick(c: Channel, clock: nat)
    requires c.status == Ready && c.mode == Interval && clock < LONG
    ensures InPhase(DoUpdate(c, clock), c.compare0, clock, 0) && DoUpdate(c, clock).c.fd == c.fd
  {
    Before(1, c.fd);
    hide Span, CountAt;
    CountIs(clock, clock, c.fd, 0);
  }

  lemma {:induction false} AlwaysInPhase(c: Channel, clock: nat, n: nat)
    requires c.status == Ready && c.mode == Interval && clock + Span(n, c.fd) < LONG
    ensures InPhase(AfterTicks(c, clock, n), c.compare0, clock + Span(n, c.fd), Phase(n, c.compare0))
  {
    Before(n + 1, c.fd);
    NextPhase(n, c.compare0);
    if n == 0 {
      FirstTick(c, clock);
      hide InPhase, DoUpdate, Span, Phase;
    } else {
      Before(n, c.fd);
      NextPhase(n - 1, c.compare0);
      hide InPhase, DoUpdate, Span, Phase;
      AlwaysInPhase(c, clock, n - 1);
      PhaseAdvances(AfterTicks(c, clock, n - 1), c.compare0, clock + Span(n - 1, c.fd), Phase(n - 1, c.compare0));
    }
  }

  lemma OncePerPeriod(j: nat, compare0: nat)
    ensures j % (compare0 + 1) == compare0 <==> j >= compare0 && (j - compare0) % (compare0 + 1) == 0
  {
    var period := compare0 + 1;
    var q, r := j / period, j % period;
    if r == compare0 {
      QuotientRemainder(q, period, 0);
      assert j == q * period + compare0;
    } else if j >= compare0 {
      assert (q - 1) * period == q * period - period;
      assert j - compare0 == (q - 1) * period + (r + 1);
      QuotientRemainder(q - 1, period, r + 1);
    }
    if r == compare0 {
      assert q * period >= 0;
    }
  }

  /**
    From a READY tick on, with every tick processed and no register writes, an interval channel counts
    j mod (compare0 + 1) at tick j and interrupts exactly at ticks compare0, 2 * compare0 + 1, and so on for ever.
   */
  lemma FiresPeriodically(c: Channel, clock: nat, j: nat)
    requires c.status == Ready && c.mode == Interval && clock + Span(j, c.fd) < LONG
    ensures var u := AfterTicks(c, clock, j); var period := c.compare0 + 1;
      && u.c.cnt == j % period
      && (u.fired <==> j >= c.compare0 && (j - c.compare0) % period == 0)
  {
    AlwaysInPhase(c, clock, j);
    hide AfterTicks;
    OncePerPeriod(j, c.compare0);
  }

  // ---- free running ----------------------------------------------------------------------

  /** The register writes that may come between two ticks of a free-running channel. */
  datatype Write = StopIt | StartIt | SetCompare(v: Word)

  function Written(c: Channel, write: Write): Channel {
    match write
    case StopIt => c.(status := Stop)
    case StartIt => c.(status := Ready)
    case SetCompare(v) => c.(compare0 := v, status := Ready)
  }

  function WrittenAll(c: Channel, writes: seq<Write>): (r: Channel)
    ensures r == c.(status := r.status, compare0 := r.compare0)
  {
    if writes == [] then c else Written(WrittenAll(c, writes[..|writes| - 1]), writes[|writes| - 1])
  }

  /**
    The first start: a READY tick at a nonzero clock with start_clock still 0; then one batch of writes before
    each further tick.
   */
  function AfterBatches(c: Channel, clock: nat, batches: seq<seq<Write>>): (r: Channel)
    requires clock + Span(|batches|, c.fd) < LONG
    ensures r.fd == c.fd
    decreases |batches|
  {
    var n := |batches|;
    if n == 0 then DoUpdate(c, clock).c
    else
      Before(n, c.fd);
      DoUpdate(WrittenAll(AfterBatches(c, clock, batches[..n - 1]), batches[n - 1]), clock + Span(n, c.fd)).c
  }

  /** How many of those ticks, the first included, found the channel not stopped. */
  function LiveTicks(c: Channel, clock: nat, batches: seq<seq<Write>>): nat
    requires clock + Span(|batches|, c.fd) < LONG
    decreases |batches|
  {
    var n := |batches|;
    if n == 0 then 1
    else
      Before(n, c.fd);
      LiveTicks(c, clock, batches[..n - 1])
      + if WrittenAll(AfterBatches(c, clock, batches[..n - 1]), batches[n - 1]).status == Stop then 0 else 1
  }

  /** A free-running channel that has counted `live` ticks by `clock`. */
  ghost predicate HasCounted(c: Channel, clock: int, live: int) {
    c.mode == Freerun && live >= 1 && c.start > 0 && clock == c.start + Span(live - 1, c.fd)
    && c.cnt == (live - 1) % WORD
  }

  lemma StoppedTickCounts(c: Channel, clock: nat, live: int)
    requires HasCounted(c.(cnt := (live - 1) % WORD), clock, live) && clock + c.fd < LONG && c.status == Stop
    ensures HasCounted(DoUpdate(c, clock + c.fd).c, clock + c.fd, live)
  {
    Before(live, c.fd);
    hide Span, CountAt;
    CountIs(clock + c.fd, c.start + c.fd, c.fd, live - 1);
    assert (c.start + c.fd) % LONG == c.start + c.fd;
  }

  lemma LiveTickCounts(c: Channel, clock: nat, live: int)
    requires HasCounted(c.(cnt := (live - 1) % WORD), clock, live) && clock + c.fd < LONG && c.status != Stop
    ensures HasCounted(DoUpdate(c, clock + c.fd).c, clock + c.fd, live + 1)
  {
    Before(live, c.fd);
    Before(live + 1, c.fd);
    hide Span, CountAt;
    CountIs(clock + c.fd, c.start, c.fd, live);
  }

  /**
    Once started at a nonzero clock a free-running channel counts the ticks that found it not stopped,
    minus one, modulo 2^32, whatever is written to its control and compare registers in between.
   */
  lemma {:induction false} FreerunCountsLiveTicks(c: Channel, clock: nat, batches: seq<seq<Write>>)
    requires c.status == Ready && c.mode == Freerun && c.start == 0 && 0 < clock && clock + Span(|batches|, c.fd) < LONG
    ensures HasCounted(AfterBatches(c, clock, batches), clock + Span(|batches|, c.fd), LiveTicks(c, clock, batches))
    decreases |batches|
  {
    hide *;
    if batches == [] {
      FirstCount(c, clock);
    } else {
      var front := batches[..|batches| - 1];
      LastBatch(c, clock, batches);
      FreerunCountsLiveTicks(c, clock, front);
      var before := AfterBatches(c, clock, front);
      BatchThenTick(before, batches[|front|], clock + Span(|front|, c.fd), LiveTicks(c, clock, front));
    }
  }

  lemma LastBatch(c: Channel, clock: nat, batches: seq<seq<Write>>)
    requires clock + Span(|batches|, c.fd) < LONG && batches != []
    ensures var n := |batches|;
            && Span(n - 1, c.fd) == Span(n, c.fd) - c.fd && Span(n - 1, c.fd) >= 0
            && var written := WrittenAll(AfterBatches(c, clock, batches[..n - 1]), batches[n - 1]);
            && AfterBatches(c, clock, batches) == DoUpdate(written, clock + Span(n - 1, c.fd) + c.fd).c
            && LiveTicks(c, clock, batches) ==
               LiveTicks(c, clock, batches[..n - 1]) + if written.status == Stop then 0 else 1
  {
    Before(|batches|, c.fd);
    hide Span, DoUpdate, WrittenAll;
  }

  lemma FirstCount(c: Channel, clock: nat)
    requires c.status == Ready && c.mode == Freerun && c.start == 0 && 0 < clock && clock + Span(0, c.fd) < LONG
    ensures Span(0, c.fd) == 0
    ensures HasCounted(AfterBatches(c, clock, []), clock + Span(0, c.fd), LiveTicks(c, clock, []))
  {
    Before(1, c.fd);
    hide Span, CountAt;
    CountIs(clock, clock, c.fd, 0);
  }

  lemma BatchThenTick(c: Channel, batch: seq<Write>, clock: nat, live: int)
    requires HasCounted(c, clock, live) && clock + c.fd < LONG
    ensures var written := WrittenAll(c, batch);
            HasCounted(DoUpdate(written, clock + c.fd).c, clock + c.fd, live + if written.status == Stop then 0 else 1)
  {
    var written := WrittenAll(c, batch);
    hide Span, DoUpdate, WrittenAll;
    if written.status == Stop {
      StoppedTickCounts(written, clock, live);
    } else {
      LiveTickCounts(written, clock, live);
    }
  }

  // ---- clock skipping --------------------------------------------------------------------

  /** The ticks that really remain until the channel matches. */
  function Distance(c: Channel): int { (c.compare0 - c.cnt) * c.fd }

  /** device_timer_do_calc_min_interval: the product is a 32-bit one. */
  function CalcMinInterval(min: nat, canSkip: bool, c: Channel): nat {
    if !canSkip || c.cnt >= c.compare0 then min
    else
      var interval := Distance(c) % WORD;
      if 0 < interval < min then interval else min
  }

  datatype Supply = Supply(channels: seq<Channel>, min: nat)

  predicate Due(c: Channel, clock: Long) { clock % c.fd == 0 }

  /** device_supply_clock_timer over the channels it serves, in order. */
  function SupplyClock(channels: seq<Channel>, clock: Long, canSkip: bool, min: nat): Supply {
    if channels == [] then Supply([], min)
    else
      var before := SupplyClock(channels[..|channels| - 1], clock, canSkip, min);
      var c := channels[|channels| - 1];
      if Due(c, clock) then
        var updated := DoUpdate(c, clock).c;
        Supply(before.channels + [updated], CalcMinInterval(before.min, canSkip, updated))
      else Supply(before.channels + [c], before.min)
  }

  /** Channel i was served at this clock and still has ticks to go. */
  predicate Counts(channels: seq<Channel>, served: seq<Channel>, clock: Long, i: nat)
    requires i < |channels| == |served|
  {
    Due(channels[i], clock) && served[i].cnt < served[i].compare0
  }

  lemma {:induction false} MinimumOfProducts(channels: seq<Channel>, clock: Long, canSkip: bool, min: nat)
    ensures var s := SupplyClock(channels, clock, canSkip, min);
      && |s.channels| == |channels| && s.min <= min
      && (s.min < min ==> canSkip && 0 < s.min < WORD)
      && (canSkip ==>
            forall i | 0 <= i < |channels| && Counts(channels, s.channels, clock, i) ::
              Distance(s.channels[i]) % WORD != 0 ==> s.min <= Distance(s.channels[i]) % WORD)
    decreases |channels|
  {
    if channels != [] {
      var k := |channels| - 1;
      MinimumOfProducts(channels[..k], clock, canSkip, min);
      var before := SupplyClock(channels[..k], clock, canSkip, min);
      var s := SupplyClock(channels, clock, canSkip, min);
      hide DoUpdate, Distance;
      forall i | 0 <= i < k && Counts(channels, s.channels, clock, i)
        ensures s.channels[i] == before.channels[i] && Counts(channels[..k], before.channels, clock, i)
      {
      }
    }
  }

  lemma DistancePositive(c: Channel)
    requires c.cnt < c.compare0
    ensures Distance(c) > 0
  {
  }

  lemma WrappedIsShort(x: nat, m: nat)
    requires x > 0
    ensures x % WORD <= x && (x % WORD == 0 ==> x >= WORD)
  {
  }

  /**
    Whenever the update lowers the skip interval, it stays within the true distance of every served
    channel that is still counting, although each product wraps at 32 bits and may wrap to 0.
   */
  lemma SkipNeverOvershoots(channels: seq<Channel>, clock: Long, canSkip: bool, min: nat, i: nat)
    requires var s := SupplyClock(channels, clock, canSkip, min);
      s.min < min && i < |channels| && |s.channels| == |channels| && Counts(channels, s.channels, clock, i)
    ensures var s := SupplyClock(channels, clock, canSkip, min); s.min <= Distance(s.channels[i])
  {
    var s := SupplyClock(channels, clock, canSkip, min);
    MinimumOfProducts(channels, clock, canSkip, min);
    hide SupplyClock, Distance;
    DistancePositive(s.channels[i]);
    WrappedIsShort(Distance(s.channels[i]), s.min);
  }

  /** A channel as this clock leaves it, if the clock serves it. */
  function Updated(c: Channel, clock: Long): Channel { DoUpdate(c, clock).c }

  predicate StillCounts(c: Channel, clock: Long) {
    Due(c, clock) && Updated(c, clock).cnt < Updated(c, clock).compare0
  }

  /** The 32-bit product the code computes for a served channel. */
  function Product(c: Channel, clock: Long): int { Distance(Updated(c, clock)) % WORD }

  /** Every product that bounds the interval at all is longer than `d`. */
  predicate ProductsExceed(channels: seq<Channel>, clock: Long, d: int) {
    forall c <- channels :: StillCounts(c, clock) && Product(c, clock) != 0 ==> Product(c, clock) > d
  }

  lemma ServedOrKept(channels: seq<Channel>, clock: Long, canSkip: bool, min: nat, i: nat)
    requires i < |channels|
    ensures var s := SupplyClock(channels, clock, canSkip, min);
            |s.channels| == |channels|
            && s.channels[i] == if Due(channels[i], clock) then Updated(channels[i], clock) else channels[i]
    decreases |channels|
  {
    var k := |channels| - 1;
    MinimumOfProducts(channels[..k], clock, canSkip, min);
    if i < k { ServedOrKept(channels[..k], clock, canSkip, min, i); }
    hide DoUpdate, CalcMinInterval;
  }

  lemma ExceedSplit(front: seq<Channel>, last: Channel, clock: Long, d: int)
    ensures ProductsExceed(front + [last], clock, d) <==>
            ProductsExceed(front, clock, d)
            && (StillCounts(last, clock) && Product(last, clock) != 0 ==> Product(last, clock) > d)
  {
    hide StillCounts, Product;
    assert last in front + [last];
    assert forall c <- front :: c in front + [last];
    assert forall c <- front + [last] :: c in front || c == last;
  }

  /** The interval is longer than `d` exactly when its start value and all nonzero products are. */
  lemma {:induction false} IntervalExceeds(channels: seq<Channel>, clock: Long, min: nat, d: int)
    ensures SupplyClock(channels, clock, true, min).min > d <==> min > d && ProductsExceed(channels, clock, d)
    decreases |channels|
  {
    hide DoUpdate, Distance, Due;
    if channels != [] {
      var k := |channels| - 1;
      IntervalExceeds(channels[..k], clock, min, d);
      ExceedSplit(channels[..k], channels[k], clock, d);
      assert channels == channels[..k] + [channels[k]];
      hide ProductsExceed;
    }
  }

  /**
    Which channels the new interval overshoots, read off the channels as this clock leaves them: those
    whose distance is shorter than the start value and than every product that is not zero.
   */
  lemma OvershootsExactlyWhenWrappedToZero(channels: seq<Channel>, clock: Long, min: nat, c: Channel)
    requires c in channels && StillCounts(c, clock)
    ensures var d := Distance(Updated(c, clock));
            (SupplyClock(channels, clock, true, min).min > d <==> min > d && ProductsExceed(channels, clock, d))
            && (SupplyClock(channels, clock, true, min).min > d ==> d % WORD == 0 && d >= WORD)
  {
    var u := Updated(c, clock);
    IntervalExceeds(channels, clock, min, Distance(u));
    DistancePositive(u);
    WrappedIsShort(Distance(u), min);
    hide SupplyClock, Distance, Updated;
  }

  /** A channel half way round: 65536 ticks of 65536 clocks to go, a product of exactly 2^32. */
  const HALF_WAY := Channel(0, Running, Freerun, 65536, 65536, 65536)

  /**
    From any start value above 2^32 the wrapped product of this channel bounds nothing and the interval
    passes its match.
   */
  lemma HalfWayOvershoots(min: nat)
    requires min > WORD
    ensures StillCounts(HALF_WAY, 65536)
    ensures SupplyClock([HALF_WAY], 65536, true, min).min > Distance(Updated(HALF_WAY, 65536))
  {
    var u := Updated(HALF_WAY, 65536);
    assert u == HALF_WAY;
    assert Distance(u) == WORD;
    hide SupplyClock, DoUpdate, Distance;
    IntervalExceeds([HALF_WAY], 65536, min, WORD);
  }

  /**
    When skipping is safe: no channel is ever overshot, whatever the channels and the clock, if and only
    if the interval starts at no more than 2^32.
   */
  lemma SkipIsSafeIff(min: nat)
    ensures (forall channels: seq<Channel>, clock: Long, c: Channel | c in channels && StillCounts(c, clock) ::
               SupplyClock(channels, clock, true, min).min <= Distance(Updated(c, clock))) <==> min <= WORD
  {
    hide SupplyClock, Distance, Updated, DoUpdate;
    if min <= WORD {
      forall channels: seq<Channel>, clock: Long, c: Channel | c in channels && StillCounts(c, clock)
        ensures SupplyClock(channels, clock, true, min).min <= Distance(Updated(c, clock))
      {
        OvershootsExactlyWhenWrappedToZero(channels, clock, min, c);
      }
    } else {
      HalfWayOvershoots(min);
      assert HALF_WAY in [HALF_WAY];
    }
  }
}
