/** The eight channels, the clock supply and the register writes, updated in place as the source does. */
module TimerUnit {
  import opened Timer

  const CHANNELS := 8
  const SERVED := 4            // channels from here on get no clock
  const OWN_CTL0 := 4          // channels from here on have no CTL0 address of their own
  const CTL0_BASE := 0xFFFF_F590
  const CTL1_BASE := 0xFFFF_F5A0
  const CCR0_BASE := 0xFFFF_F5C0

  function Ctl0(ch: nat): nat { CTL0_BASE + 4 * ch }
  function Ctl1(ch: nat): nat { CTL1_BASE + 4 * ch }
  function Ccr0(ch: nat): nat { CCR0_BASE + 4 * ch }

  /** compare0_intno as device_init_timer sets it. */
  function CompareIntno(ch: nat): int {
    if ch < 5 then 15 + 3 * ch + 1 else 96 + 3 * (ch - 5) + 1 + 1
  }

  /** The interrupts raised while serving `channels`, the first of which is channel `first`. */
  function RaisedBy(channels: seq<Channel>, clock: Long, first: nat): seq<int> {
    if channels == [] then []
    else
      var k := |channels| - 1;
      RaisedBy(channels[..k], clock, first)
      + if Due(channels[k], clock) && DoUpdate(channels[k], clock).fired then [CompareIntno(first + k)] else []
  }

  /** What an 8-bit write does to channel `ch` when its address selects that channel. */
  function Control(c: Channel, ctl0: bool, data: nat): Channel {
    if ctl0 then c.(status := if data / 128 % 2 == 1 then Ready else Stop)
    else c.(mode := if data % 8 == 0 then Interval else Freerun)
  }

  /** The first channel from `ch` on one of whose control registers lies at `addr`; CHANNELS when there is none. */
  function Selected8(addr: nat, ch: nat): nat
    requires ch <= CHANNELS
    decreases CHANNELS - ch
  {
    if ch == CHANNELS || addr == Ctl0(ch) || addr == Ctl1(ch) then ch else Selected8(addr, ch + 1)
  }

  function Selected32(addr: nat, ch: nat): nat
    requires ch <= CHANNELS
    decreases CHANNELS - ch
  {
    if ch == CHANNELS || addr == Ccr0(ch) then ch else Selected32(addr, ch + 1)
  }

  /**
    CTL0 of channels 4 to 7 coincides with CTL1 of channels 0 to 3, which the search finds first: only channels
    0 to 3 can be stopped, or started through CTL0. A compare write still starts any channel.
   */
  lemma OnlyLowChannelsHaveControl(ch: nat)
    requires ch < CHANNELS
    ensures (exists addr :: Selected8(addr, 0) == ch && addr == Ctl0(ch)) <==> ch < OWN_CTL0
  {
    if ch < OWN_CTL0 {
      SelectedIsFirst(Ctl0(ch), 0, ch);
    } else {
      assert Ctl0(ch) == Ctl1(ch - OWN_CTL0);
      SelectedNotAfter(Ctl0(ch), 0, ch - OWN_CTL0);
    }
  }

  lemma {:induction false} SelectedIsFirst(addr: nat, from: nat, ch: nat)
    requires from <= ch < CHANNELS && addr == Ctl0(ch)
    requires forall k :: from <= k < ch ==> addr != Ctl0(k) && addr != Ctl1(k)
    ensures Selected8(addr, from) == ch
    decreases ch - from
  {
    if from < ch { SelectedIsFirst(addr, from + 1, ch); }
  }

  lemma {:induction false} SelectedNotAfter(addr: nat, from: nat, ch: nat)
    requires from <= ch < CHANNELS && addr == Ctl1(ch)
    ensures Selected8(addr, from) <= ch
    decreases ch - from
  {
    if from < ch { SelectedNotAfter(addr, from + 1, ch); }
  }

  lemma OneMoreServed(before: seq<Channel>, first: nat, ch: nat, clock: Long, canSkip: bool, min: nat)
    requires first <= ch < |before|
    ensures var s := SupplyClock(before[first..ch], clock, canSkip, min);
            var t := SupplyClock(before[first..ch + 1], clock, canSkip, min);
            var u := DoUpdate(before[ch], clock);
            && t == (if Due(before[ch], clock) then Supply(s.channels + [u.c], CalcMinInterval(s.min, canSkip, u.c))
                     else Supply(s.channels + [before[ch]], s.min))
            && RaisedBy(before[first..ch + 1], clock, first) ==
               RaisedBy(before[first..ch], clock, first)
               + if Due(before[ch], clock) && u.fired then [CompareIntno(ch)] else []
  {
    hide DoUpdate, CalcMinInterval;
    assert before[first..ch + 1][..ch - first] == before[first..ch];
  }

  lemma Splice(before: seq<Channel>, first: nat, ch: nat, served: seq<Channel>, c: Channel)
    requires first <= ch < |before| && |served| == ch - first
    ensures (before[..first] + served + before[ch..])[ch := c] == before[..first] + (served + [c]) + before[ch + 1..]
    ensures (before[..first] + served + before[ch..])[ch] == before[ch]
  {
  }

  class Unit {
    const timers: array<Channel>
    var clock: Long
    var canSkipClock: bool
    var minIntrInterval: nat
    var raised: seq<int>  // calls of device_raise_int, in order

    ghost predicate Valid()
      reads this
    {
      timers.Length == CHANNELS
    }

    /** device_timer_do_update */
    method DeviceTimerDoUpdate(ch: nat)
      requires Valid() && ch < CHANNELS
      modifies timers, this`raised
      ensures timers[..] == old(timers[..])[ch := DoUpdate(old(timers[ch]), clock).c]
      ensures raised == old(raised) + if DoUpdate(old(timers[ch]), clock).fired then [CompareIntno(ch)] else []
    {
      var t := timers[ch];
      if t.status == Stop {
        if t.mode == Freerun && t.start != 0 {
          t := t.(start := (t.start + t.fd) % LONG);
        }
      } else if t.status == Ready {
        t := t.(status := Running);
        if t.start == 0 || t.mode == Interval {
          t := t.(start := clock);
        }
      }
      t := t.(cnt := CountAt(clock, t.start, t.fd));
      if t.mode == Interval && t.cnt == t.compare0 {
        raised := raised + [CompareIntno(ch)];
        t := t.(status := Ready);
      }
      timers[ch] := t;
    }

    /** device_timer_do_calc_min_interval */
    method DeviceTimerDoCalcMinInterval(ch: nat)
      requires Valid() && ch < CHANNELS
      modifies this`minIntrInterval
      ensures minIntrInterval == CalcMinInterval(old(minIntrInterval), canSkipClock, timers[ch])
    {
      var t := timers[ch];
      if !canSkipClock {
        return;
      }
      if t.cnt >= t.compare0 {
        return;
      }
      var interval := (t.compare0 - t.cnt) * t.fd % WORD;
      if interval > 0 && interval < minIntrInterval {
        minIntrInterval := interval;
      }
    }

    /** Channels `first` to `next` - 1 of `before` have been served and nothing else has happened. */
    ghost predicate ServedUpTo(before: seq<Channel>, first: nat, next: nat, min: nat, earlier: seq<int>)
      requires first <= next <= |before|
      reads this, timers
    {
      var s := SupplyClock(before[first..next], clock, canSkipClock, min);
      && Valid() && |before| == CHANNELS
      && timers[..] == before[..first] + s.channels + before[next..]
      && minIntrInterval == s.min
      && raised == earlier + RaisedBy(before[first..next], clock, first)
    }

    /** INLINE_device_supply_clock_timer */
    method ServeChannel(ch: nat, ghost before: seq<Channel>, ghost first: nat, ghost min: nat, ghost earlier: seq<int>)
      requires first <= ch < |before| && ServedUpTo(before, first, ch, min, earlier)
      modifies timers, this`raised, this`minIntrInterval
      ensures ServedUpTo(before, first, ch + 1, min, earlier)
    {
      hide DoUpdate, CalcMinInterval, SupplyClock, RaisedBy;
      ghost var served := SupplyClock(before[first..ch], clock, canSkipClock, min).channels;
      MinimumOfProducts(before[first..ch], clock, canSkipClock, min);
      OneMoreServed(before, first, ch, clock, canSkipClock, min);
      Splice(before, first, ch, served, before[ch]);
      assert timers[ch] == before[ch];
      Splice(before, first, ch, served, DoUpdate(before[ch], clock).c);
      if clock % timers[ch].fd == 0 {
        DeviceTimerDoUpdate(ch);
        DeviceTimerDoCalcMinInterval(ch);
      }
    }

    /** device_supply_clock_timer; a minimum device configuration leaves out channels 0 and 1. */
    method DeviceSupplyClockTimer(minimum: bool)
      requires Valid()
      modifies timers, this`raised, this`minIntrInterval
      ensures ServedUpTo(old(timers[..]), if minimum then 2 else 0, SERVED, old(minIntrInterval), old(raised))
    {
      ghost var before, min, earlier := timers[..], minIntrInterval, raised;
      hide SupplyClock, RaisedBy;
      if !minimum {
        NothingServed(0);
        ServeChannel(0, before, 0, min, earlier);
        ServeChannel(1, before, 0, min, earlier);
        ServeChannel(2, before, 0, min, earlier);
        ServeChannel(3, before, 0, min, earlier);
      } else {
        NothingServed(2);
        ServeChannel(2, before, 2, min, earlier);
        ServeChannel(3, before, 2, min, earlier);
      }
    }

    lemma NothingServed(first: nat)
      requires Valid() && first <= CHANNELS
      ensures ServedUpTo(timers[..], first, first, minIntrInterval, raised)
    {
      assert timers[..] == timers[..][..first] + [] + timers[..][first..];
    }

    /** The register part of timer_put_data8. */
    method PutData8(addr: nat, data: nat)
      requires Valid()
      modifies timers
      ensures var ch := Selected8(addr, 0);
        timers[..] == if ch == CHANNELS then old(timers[..])
                      else old(timers[..])[ch := Control(old(timers[..])[ch], addr == Ctl0(ch), data)]
    {
      var ch := 0;
      while ch < CHANNELS
        invariant 0 <= ch <= CHANNELS && Selected8(addr, 0) == Selected8(addr, ch)
        invariant timers[..] == old(timers[..])
      {
        if addr == Ctl0(ch) {
          timers[ch] := timers[ch].(status := if data / 128 % 2 == 1 then Ready else Stop);
          return;
        } else if addr == Ctl1(ch) {
          timers[ch] := timers[ch].(mode := if data % 8 == 0 then Interval else Freerun);
          return;
        }
        ch := ch + 1;
      }
    }

    /** The register part of timer_put_data32: writing the compare value also arms the channel. */
    method PutData32(addr: nat, data: Word)
      requires Valid()
      modifies timers
      ensures var ch := Selected32(addr, 0);
        timers[..] == if ch == CHANNELS then old(timers[..])
                      else old(timers[..])[ch := Written(old(timers[..])[ch], SetCompare(data))]
    {
      var ch := 0;
      while ch < CHANNELS
        invariant 0 <= ch <= CHANNELS && Selected32(addr, 0) == Selected32(addr, ch)
        invariant timers[..] == old(timers[..])
      {
        if addr == Ccr0(ch) {
          timers[ch] := timers[ch].(compare0 := data, status := Ready);
          return;
        }
        ch := ch + 1;
      }
    }
  }
}
