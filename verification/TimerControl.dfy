/** From the bytes written to CTL0 and CTL1 to the ticks that follow. */
module TimerControl {
  import opened Timer
  import opened TimerUnit

  /** A CTL0 byte with bit 7 set. */
  predicate Starts(data: nat) { 128 <= data < 256 }

  /** A CTL0 byte with bit 7 clear. */
  predicate Stops(data: nat) { data < 128 }

  /**
    A CTL1 byte whose low three bits are zero and then a start byte: from the next tick on the channel counts
    up to its compare value and interrupts there, over and over.
   */
  lemma StartedIntervalFires(c: Channel, mode: nat, start: nat, clock: nat, j: nat)
    requires mode % 8 == 0 && Starts(start) && clock + Span(j, c.fd) < LONG
    ensures var u := AfterTicks(Control(Control(c, false, mode), true, start), clock, j); var period := c.compare0 + 1;
      && u.c.cnt == j % period
      && (u.fired <==> j >= c.compare0 && (j - c.compare0) % period == 0)
  {
    FiresPeriodically(Control(Control(c, false, mode), true, start), clock, j);
  }

  /** Any other CTL1 byte selects free running: the ticks are counted modulo 2^32 and no interrupt ever comes. */
  lemma StartedFreerunCounts(c: Channel, mode: nat, start: nat, clock: nat, j: nat)
    requires mode % 8 != 0 && Starts(start) && c.start == 0 && 0 < clock && clock + Span(j, c.fd) < LONG
    ensures var u := AfterTicks(Control(Control(c, false, mode), true, start), clock, j);
            u.c.cnt == j % WORD && !u.fired
  {
    RunsOn(Control(Control(c, false, mode), true, start), clock, j);
  }

  lemma {:induction false} RunsOn(c: Channel, clock: nat, j: nat)
    requires c.status == Ready && c.mode == Freerun && c.start == 0 && 0 < clock && clock + Span(j, c.fd) < LONG
    ensures var u := AfterTicks(c, clock, j);
            HasCounted(u.c, clock + Span(j, c.fd), j + 1) && u.c.status == Running && !u.fired
    decreases j
  {
    if j == 0 {
      FirstTickCounts(c, clock);
    } else {
      Before(j, c.fd);
      RunsOn(c, clock, j - 1);
      var before := AfterTicks(c, clock, j - 1).c;
      hide Span, CountAt, AfterTicks;
      LiveTickCounts(before, clock + Span(j - 1, c.fd), j);
      StaysRunning(before, clock + Span(j, c.fd));
      OneMoreTick(c, clock, j);
      hide DoUpdate, HasCounted;
    }
  }

  lemma FirstTickCounts(c: Channel, clock: nat)
    requires c.status == Ready && c.mode == Freerun && c.start == 0 && 0 < clock && clock + Span(0, c.fd) < LONG
    ensures var u := AfterTicks(c, clock, 0);
            HasCounted(u.c, clock + Span(0, c.fd), 1) && u.c.status == Running && !u.fired
  {
    Before(1, c.fd);
    hide Span, CountAt;
    CountIs(clock, clock, c.fd, 0);
  }

  lemma OneMoreTick(c: Channel, clock: nat, j: nat)
    requires j > 0 && clock + Span(j, c.fd) < LONG
    ensures Span(j - 1, c.fd) == Span(j, c.fd) - c.fd && 0 <= Span(j - 1, c.fd)
    ensures AfterTicks(c, clock, j) == DoUpdate(AfterTicks(c, clock, j - 1).c, clock + Span(j, c.fd))
  {
    Before(j, c.fd);
    hide Span, DoUpdate;
  }

  lemma StaysRunning(c: Channel, clock: Long)
    requires c.status == Running && c.mode == Freerun
    ensures DoUpdate(c, clock).c.status == Running && !DoUpdate(c, clock).fired
  {
    hide CountAt;
  }

  /** A free-running channel that was never started stays that way however many stopped ticks it sees. */
  lemma {:induction false} UnstartedStays(c: Channel, clock: nat, n: nat)
    requires c.status == Stop && c.mode == Freerun && c.start == 0 && clock + Span(n, c.fd) < LONG
    ensures var u := AfterTicks(c, clock, n); u.c == c.(cnt := u.c.cnt) && !u.fired
    decreases n
  {
    hide Span, CountAt;
    if n == 0 {
      AtFirst(c, clock);
    } else {
      OneMoreTick(c, clock, n);
      UnstartedStays(c, clock, n - 1);
    }
  }

  /** Written to a free-running channel, a stop byte holds its count however many ticks follow. */
  lemma StoppedFreerunHolds(c: Channel, stop: nat, clock: nat, live: int, n: nat)
    requires HasCounted(c, clock, live) && Stops(stop) && clock + c.fd + Span(n, c.fd) < LONG
    ensures var u := AfterTicks(Control(c, true, stop), clock + c.fd, n);
            && HasCounted(u.c, clock + c.fd + Span(n, c.fd), live) && u.c.status == Stop && !u.fired
            && u.c.cnt == c.cnt
  {
    StopKeepsCount(c, stop, clock, live);
    StaysStopped(Control(c, true, stop), clock, live, n);
    hide *;
  }

  lemma {:induction false} StaysStopped(c: Channel, clock: nat, live: int, n: nat)
    requires HasCounted(c, clock, live) && c.status == Stop && clock + c.fd + Span(n, c.fd) < LONG
    ensures var u := AfterTicks(c, clock + c.fd, n);
            && HasCounted(u.c, clock + c.fd + Span(n, c.fd), live) && u.c.status == Stop && !u.fired
            && u.c.cnt == c.cnt
    decreases n
  {
    if n == 0 {
      StoppedTick(c, clock, live);
      hide DoUpdate, HasCounted, Span;
    } else {
      Before(n, c.fd);
      StaysStopped(c, clock, live, n - 1);
      hide Span, DoUpdate, HasCounted;
      StoppedTick(AfterTicks(c, clock + c.fd, n - 1).c, clock + c.fd + Span(n - 1, c.fd), live);
    }
  }

  lemma StopKeepsCount(c: Channel, stop: nat, clock: int, live: int)
    requires HasCounted(c, clock, live) && Stops(stop)
    ensures var stopped := Control(c, true, stop);
            HasCounted(stopped, clock, live) && stopped.status == Stop && stopped.cnt == c.cnt && stopped.fd == c.fd
  {
  }

  lemma StoppedTick(c: Channel, clock: nat, live: int)
    requires HasCounted(c, clock, live) && c.status == Stop && clock + c.fd < LONG
    ensures var u := DoUpdate(c, clock + c.fd);
            HasCounted(u.c, clock + c.fd, live) && u.c.status == Stop && !u.fired && u.c.cnt == c.cnt && u.c.fd == c.fd
    ensures Span(0, c.fd) == 0
  {
    StoppedTickCounts(c, clock, live);
    Before(1, c.fd);
    hide Span, CountAt;
  }

  /** A start byte after that goes on where the count was left. */
  lemma RestartedFreerunGoesOn(c: Channel, start: nat, clock: nat, live: int)
    requires HasCounted(c, clock, live) && Starts(start) && clock + c.fd < LONG
    ensures DoUpdate(Control(c, true, start), clock + c.fd).c.cnt == live % WORD
  {
    LiveTickCounts(Control(c, true, start), clock, live);
    hide CountAt, Span, DoUpdate;
  }

  /**
    In interval mode a stop byte does nothing to a channel that is counting: it has the same counts and the
    same interrupts at every later tick as if it had not been stopped.
   */
  lemma StopIsIgnoredInIntervalMode(c: Channel, stop: nat, clock: nat, n: nat)
    requires c.mode == Interval && c.status == Running && Stops(stop) && clock + Span(n, c.fd) < LONG
    ensures var u, v := AfterTicks(c, clock, n), AfterTicks(Control(c, true, stop), clock, n);
            v.c.cnt == u.c.cnt && v.fired == u.fired
  {
    BothTicks(c, Control(c, true, stop), clock, n);
  }

  lemma {:induction false} BothTicks(c: Channel, d: Channel, clock: nat, n: nat)
    requires SameButStopped(c, d) && clock + Span(n, c.fd) < LONG
    ensures var u, v := AfterTicks(c, clock, n), AfterTicks(d, clock, n);
            SameButStopped(u.c, v.c) && v.c.cnt == u.c.cnt && v.fired == u.fired
    decreases n
  {
    assert d.fd == c.fd;
    hide *;
    if n == 0 {
      AtFirst(c, clock);
      AtFirst(d, clock);
      BothTick(c, d, clock);
    } else {
      Before(n, c.fd);
      BothTicks(c, d, clock, n - 1);
      BothTickAgain(c, d, clock, n);
    }
  }

  lemma BothTickAgain(c: Channel, d: Channel, clock: nat, n: nat)
    requires n > 0 && d.fd == c.fd && clock + Span(n, c.fd) < LONG && clock + Span(n - 1, c.fd) < LONG
    requires SameButStopped(AfterTicks(c, clock, n - 1).c, AfterTicks(d, clock, n - 1).c)
    ensures var u, v := AfterTicks(c, clock, n), AfterTicks(d, clock, n);
            SameButStopped(u.c, v.c) && v.c.cnt == u.c.cnt && v.fired == u.fired
  {
    Before(n, c.fd);
    hide Span, DoUpdate, SameButStopped;
    var before, stopped, now := AfterTicks(c, clock, n - 1).c, AfterTicks(d, clock, n - 1).c, clock + Span(n, c.fd);
    assert AfterTicks(c, clock, n) == DoUpdate(before, now);
    assert AfterTicks(d, clock, n) == DoUpdate(stopped, now);
    hide AfterTicks;
    BothTick(before, stopped, now);
  }

  lemma AtFirst(c: Channel, clock: nat)
    requires clock + Span(0, c.fd) < LONG
    ensures Span(0, c.fd) == 0 && AfterTicks(c, clock, 0) == DoUpdate(c, clock)
  {
    Before(1, c.fd);
    hide DoUpdate;
  }

  /** The two channels are equal, or one is running and the other stopped in the middle of the same count. */
  predicate SameButStopped(c: Channel, d: Channel) {
    c.mode == Interval && (d == c || (c.status == Running && d == c.(status := Stop)))
  }

  lemma BothTick(c: Channel, d: Channel, clock: Long)
    requires SameButStopped(c, d)
    ensures var u, v := DoUpdate(c, clock), DoUpdate(d, clock);
            SameButStopped(u.c, v.c) && v.c.cnt == u.c.cnt && v.fired == u.fired
  {
    hide CountAt;
  }

  /** Each channel raises an interrupt line of its own, and the controller has all of them. */
  lemma InterruptsAreDistinct(a: nat, b: nat)
    requires a < b < CHANNELS
    ensures 0 <= CompareIntno(a) < CompareIntno(b) < 117
    ensures CompareIntno(a) == [16, 19, 22, 25, 28, 98, 101, 104][a]
  {
  }
}
