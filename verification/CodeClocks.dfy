/** What whole runs charge to the core's clock, with and without the cache. */
module CodeClocks {
  import opened Results
  import opened CodeCache

  /** Instructions and the fetch check leave the clock count and the charge of the table alone. */
  ghost predicate ChargesByTable<S(!new), C(!new), O(!new), D(!new)>(isa: Isa<S, C, O, D>) {
    && (forall m {:trigger isa.permitted(m)} :: isa.permitted(m).m.elaps == m.elaps)
    && (forall op, f, m {:trigger isa.exec(op, f, m)} ::
          isa.exec(op, f, m).m.elaps == m.elaps && isa.exec(op, f, m).m.realElaps == m.realElaps)
  }

  /** The environment leaves the clock count alone. */
  ghost predicate KeepsClock<S(!new)>(env: seq<Machine<S> -> Machine<S>>) {
    forall i, m {:trigger env[i](m)} :: 0 <= i < |env| ==> env[i](m).elaps == m.elaps
  }

  /** What a clock costs: the entry of its operation if it ran one, and nothing otherwise. */
  function Cost<S, C, O, D>(isa: Isa<S, C, O, D>, o: Outcome<S, O, D>): nat {
    if o.ret.Done? && o.used.Some? then isa.clocks(o.used.value.op) else 0
  }

  function TotalCost<S, C, O, D>(isa: Isa<S, C, O, D>, outcomes: seq<Outcome<S, O, D>>): nat {
    if outcomes == [] then 0 else Cost(isa, outcomes[0]) + TotalCost(isa, outcomes[1..])
  }

  /** A clock that ran an instruction has charged it and left r0 zero. */
  ghost predicate Charged<S, C, O, D>(isa: Isa<S, C, O, D>, m: Machine<S>, o: Outcome<S, O, D>) {
    && o.m.elaps == (m.elaps + Cost(isa, o)) % WRAP64
    && (o.ret.Done? && o.used.Some? ==> o.m.r0 == 0)
  }

  lemma ExecuteCharges<S(!new), C(!new), O(!new), D(!new)>(isa: Isa<S, C, O, D>, i: Instruction<O, D>, m: Machine<S>)
    requires ChargesByTable(isa) && m.elaps < WRAP64
    ensures Charged(isa, m, Execute(isa, i, m)) && Execute(isa, i, m).m.elaps < WRAP64
  {
    var done := isa.exec(i.op, i.fields, m.(realElaps := isa.clocks(i.op)));
    assert done.m.elaps == m.elaps;
  }

  lemma PlainClockCharges<S(!new), C(!new), O(!new), D(!new)>(isa: Isa<S, C, O, D>, m: Machine<S>)
    requires ChargesByTable(isa) && m.elaps < WRAP64
    ensures Charged(isa, m, PlainStep(isa, m)) && PlainStep(isa, m).m.elaps < WRAP64
  {
    if !m.halted {
      var start := m.(r0 := 0);
      var check := isa.permitted(start);
      assert check.m.elaps == m.elaps;
      var i := Decoded(isa, start);
      if i.Some? { ExecuteCharges(isa, i.value, check.m); }
      hide Execute, Decoded;
    }
  }

  lemma CachedClockCharges<S(!new), C(!new), O(!new), D(!new)>(isa: Isa<S, C, O, D>, m: Machine<S>,
        cache: seq<Entry<O, D>>)
    requires ChargesByTable(isa) && m.elaps < WRAP64
    ensures var o := CachedStep(isa, m, cache).outcome; Charged(isa, m, o) && o.m.elaps < WRAP64
  {
    PlainClockCharges(isa, m);
    if !m.halted && isa.slot(m.pc).Some? && isa.slot(m.pc).value < |cache| {
      var entry := cache[isa.slot(m.pc).value];
      var check := isa.permitted(m.(r0 := 0));
      assert check.m.elaps == m.elaps;
      if entry.op.Some? { ExecuteCharges(isa, Instruction(entry.op.value, entry.fields), check.m); }
    }
    hide Execute, PlainStep, ChargesByTable;
  }

  lemma AddCosts(start: nat, first: nat, rest: nat)
    ensures ((start + first) % WRAP64 + rest) % WRAP64 == (start + (first + rest)) % WRAP64
  {
    var x := start + first;
    assert x == x / WRAP64 * WRAP64 + x % WRAP64;
    Turns(x % WRAP64 + rest, x / WRAP64);
  }

  lemma {:induction false} Turns(x: nat, k: nat)
    ensures (x + k * WRAP64) % WRAP64 == x % WRAP64
    decreases k
  {
    if k > 0 { Turns(x, k - 1); }
  }

  /** The trace rose the clock count from `start` by the costs of its outcomes. */
  ghost predicate Sums<S, C, O, D>(isa: Isa<S, C, O, D>, start: nat, t: Trace<S, O, D>) {
    t.m.elaps == (start + TotalCost(isa, t.outcomes)) % WRAP64
  }

  lemma OneClockMore<S, C, O, D>(isa: Isa<S, C, O, D>, m: Machine<S>, o: Outcome<S, O, D>, later: Trace<S, O, D>)
    requires Charged(isa, m, o) && Sums(isa, o.m.elaps, later)
    ensures Sums(isa, m.elaps, Trace(later.m, [o] + later.outcomes))
  {
    assert ([o] + later.outcomes)[1..] == later.outcomes;
    AddCosts(m.elaps, Cost(isa, o), TotalCost(isa, later.outcomes));
    hide Cost;
  }

  lemma FirstPlainClock<S, C, O, D>(isa: Isa<S, C, O, D>, m: Machine<S>, env: seq<Machine<S> -> Machine<S>>)
    requires env != []
    ensures var out := PlainStep(isa, env[0](m)); var later := PlainRun(isa, out.m, env[1..]);
            PlainRun(isa, m, env) == Trace(later.m, [out] + later.outcomes)
  {
    hide PlainStep;
  }

  lemma FirstCachedClock<S, C, O, D>(isa: Isa<S, C, O, D>, m: Machine<S>, cache: seq<Entry<O, D>>,
        env: seq<Machine<S> -> Machine<S>>)
    requires env != []
    ensures var out := CachedStep(isa, env[0](m), cache);
            var later := CachedRun(isa, out.outcome.m, out.cache, env[1..]);
            CachedRun(isa, m, cache, env) == Trace(later.m, [out.outcome] + later.outcomes)
  {
    hide CachedStep;
  }

  lemma LaterEnv<S(!new)>(env: seq<Machine<S> -> Machine<S>>)
    requires env != [] && KeepsClock(env)
    ensures KeepsClock(env[1..]) && forall m {:trigger env[0](m)} :: env[0](m).elaps == m.elaps
  {
    forall i, m | 0 <= i < |env[1..]| ensures env[1..][i](m).elaps == m.elaps { assert env[1..][i] == env[i + 1]; }
  }

  /**
    Over any run without a cache the clock count rises by the table entries of the instructions that
    succeeded, modulo 2^64: failed and halted clocks cost nothing.
   */
  lemma {:induction false} PlainRunCharges<S(!new), C(!new), O(!new), D(!new)>(isa: Isa<S, C, O, D>, m: Machine<S>,
        env: seq<Machine<S> -> Machine<S>>)
    requires ChargesByTable(isa) && KeepsClock(env) && m.elaps < WRAP64
    ensures Sums(isa, m.elaps, PlainRun(isa, m, env))
    decreases |env|
  {
    if env != [] {
      hide *;
      var now := env[0](m);
      var out := PlainStep(isa, now);
      LaterEnv(env);
      PlainClockCharges(isa, now);
      PlainRunCharges(isa, out.m, env[1..]);
      OneClockMore(isa, now, out, PlainRun(isa, out.m, env[1..]));
      FirstPlainClock(isa, m, env);
    }
  }

  /** The same holds with the cache, whatever it holds and whether or not its entries are stale. */
  lemma {:induction false} CachedRunCharges<S(!new), C(!new), O(!new), D(!new)>(isa: Isa<S, C, O, D>, m: Machine<S>,
        cache: seq<Entry<O, D>>, env: seq<Machine<S> -> Machine<S>>)
    requires ChargesByTable(isa) && KeepsClock(env) && m.elaps < WRAP64
    ensures Sums(isa, m.elaps, CachedRun(isa, m, cache, env))
    decreases |env|
  {
    if env != [] {
      hide *;
      var now := env[0](m);
      var out := CachedStep(isa, now, cache);
      LaterEnv(env);
      CachedClockCharges(isa, now, cache);
      CachedRunCharges(isa, out.outcome.m, out.cache, env[1..]);
      OneClockMore(isa, now, out.outcome, CachedRun(isa, out.outcome.m, out.cache, env[1..]));
      FirstCachedClock(isa, m, cache, env);
    }
  }

  // ---- return codes --------------------------------------------------------------------------

  /** Which failure a clock of a running core without the cache reports. */
  lemma PlainReturnCode<S, C, O, D>(isa: Isa<S, C, O, D>, m: Machine<S>)
    requires !m.halted
    ensures var o := PlainStep(isa, m); var start := m.(r0 := 0); var code := isa.fetch(m.rest, m.pc);
      && (o.ret.BusError? <==> code.Err?)
      && (o.ret.DecodeError? <==> code.Ok? && isa.parse(code.value).None?)
      && (o.ret.Segv? <==> Decoded(isa, start).Some? && !isa.permitted(start).allowed)
      && (o.ret.BusError? ==> o.ret.code == code.error)
      && (o.ret.BusError? || o.ret.DecodeError? ==> o.m == start)
      && (o.ret.Segv? ==> o.m == isa.permitted(start).m)
  {
  }

  /** A clock that finds its slot filled neither fetches nor decodes, so it reports neither of the two. */
  lemma HitReturnCode<S, C, O, D>(isa: Isa<S, C, O, D>, m: Machine<S>, i: Instruction<O, D>)
    ensures var o := HitStep(isa, m, i); var check := isa.permitted(m.(r0 := 0));
            && !o.ret.BusError? && !o.ret.DecodeError? && o.used == Some(i)
            && (o.ret.Segv? <==> !check.allowed)
  {
  }
}
