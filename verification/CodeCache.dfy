/**
  One clock of a core with and without the decoded-instruction cache
  (src/cpu/config/cpu_config.c:625-758). The instruction set is a parameter: whatever fetch, parse,
  permission check and execution do, the cache only has to agree with them.
 */
module CodeCache {
  import opened Results

  const WRAP64 := 0x1_0000_0000_0000_0000

  /**
    `rest` is everything the core has that the clock itself does not name: registers, memory, devices, fault
    record.
   */
  datatype Machine<S> = Machine(pc: nat, r0: int, realElaps: nat, elaps: nat, halted: bool, rest: S)

  datatype Ret = Done | BusError(code: int) | DecodeError | Segv | ExecError

  /** An opcode of op_exec_table with the fields decoded for it. */
  datatype Instruction<O, D> = Instruction(op: O, fields: D)

  /** A cache slot: the decoded fields, and the operation once the slot may be used. */
  datatype Entry<O, D> = Entry(fields: D, op: Option<O>)

  datatype Executed<S> = Executed(m: Machine<S>, ok: bool)
  datatype Checked<S> = Checked(m: Machine<S>, allowed: bool)

  /**
    The instruction set and the memory system. `slot` gives the cache slot of an address, if a cached
    region covers it; `permitted` is the fetch check with the fault it may record; `supported` tells
    which operations have an entry in op_exec_table.
   */
  datatype Isa<!S, !C, !O, !D> = Isa(
    slots: nat,
    slot: nat -> Option<nat>,
    fetch: (S, nat) -> Result<C, int>,
    parse: C -> Option<Instruction<O, D>>,
    permitted: Machine<S> -> Checked<S>,
    supported: O -> bool,
    clocks: O -> nat,
    exec: (O, D, Machine<S>) -> Executed<S>)

  /** Cached regions do not overlap, so no two addresses share a slot. */
  ghost predicate SlotsDistinct<S(!new), C(!new), O(!new), D(!new)>(isa: Isa<S, C, O, D>) {
    && (forall a: nat {:trigger isa.slot(a)} :: isa.slot(a).Some? ==> isa.slot(a).value < isa.slots)
    && (forall a: nat, b: nat {:trigger isa.slot(a), isa.slot(b)} ::
          isa.slot(a).Some? && isa.slot(a) == isa.slot(b) ==> a == b)
  }

  /** What a clock left: the machine, the return code and the instruction it settled on, if any. */
  datatype Outcome<S, O, D> = Outcome(m: Machine<S>, ret: Ret, used: Option<Instruction<O, D>>)

  datatype Cached<S, O, D> = Cached(outcome: Outcome<S, O, D>, cache: seq<Entry<O, D>>)

  /** Fetch and decode at `pc`. */
  function Decoded<S, C, O, D>(isa: Isa<S, C, O, D>, m: Machine<S>): Option<Instruction<O, D>> {
    match isa.fetch(m.rest, m.pc)
    case Err(_) => None
    case Ok(code) => isa.parse(code)
  }

  function FetchError<S, C, O, D>(isa: Isa<S, C, O, D>, m: Machine<S>): Ret {
    match isa.fetch(m.rest, m.pc)
    case Err(e) => BusError(e)
    case Ok(_) => DecodeError
  }

  /** Run one operation and charge its clocks; the operation may adjust real_elaps itself. */
  function Execute<S, C, O, D>(isa: Isa<S, C, O, D>, i: Instruction<O, D>, m: Machine<S>): Outcome<S, O, D> {
    var done := isa.exec(i.op, i.fields, m.(realElaps := isa.clocks(i.op)));
    if !done.ok then Outcome(done.m, ExecError, Some(i))
    else Outcome(done.m.(elaps := (done.m.elaps + done.m.realElaps) % WRAP64, r0 := 0), Done, Some(i))
  }

  /** A clock without a cache. */
  function PlainStep<S, C, O, D>(isa: Isa<S, C, O, D>, before: Machine<S>): Outcome<S, O, D> {
    if before.halted then Outcome(before, Done, None)
    else
      var m := before.(r0 := 0);
      var i := Decoded(isa, m);
      if i.None? then Outcome(m, FetchError(isa, m), None)
      else
        var check := isa.permitted(m);
        if !check.allowed then Outcome(check.m, Segv, i)
        else if !isa.supported(i.value.op) then Outcome(check.m, ExecError, i)
        else Execute(isa, i.value, check.m)
  }

  /**
    A clock on an address whose slot is empty: the fields are stored at once, the operation only after it has
    succeeded.
   */
  function MissStep<S, C, O, D>(isa: Isa<S, C, O, D>, m: Machine<S>, cache: seq<Entry<O, D>>, s: nat): Cached<S, O, D>
    requires s < |cache| && !m.halted
  {
    var outcome := PlainStep(isa, m);
    var i := Decoded(isa, m.(r0 := 0));
    if i.None? then Cached(outcome, cache)
    else
      var op := if outcome.ret.Done? then Some(i.value.op) else cache[s].op;
      Cached(outcome, cache[s := Entry(i.value.fields, op)])
  }

  /** A clock on an address whose slot is filled: no fetch, no decode. */
  function HitStep<S, C, O, D>(isa: Isa<S, C, O, D>, m: Machine<S>, i: Instruction<O, D>): Outcome<S, O, D> {
    var check := isa.permitted(m.(r0 := 0));
    if !check.allowed then Outcome(check.m, Segv, Some(i)) else Execute(isa, i, check.m)
  }

  /** cpu_supply_clock */
  function CachedStep<S, C, O, D>(isa: Isa<S, C, O, D>, m: Machine<S>, cache: seq<Entry<O, D>>): Cached<S, O, D> {
    if m.halted then Cached(Outcome(m, Done, None), cache)
    else
      var slot := isa.slot(m.pc);
      if slot.None? || slot.value >= |cache| then Cached(PlainStep(isa, m), cache)
      else
        var entry := cache[slot.value];
        if entry.op.None? then MissStep(isa, m, cache, slot.value)
        else Cached(HitStep(isa, m, Instruction(entry.op.value, entry.fields)), cache)
  }

  // ---- runs ------------------------------------------------------------------------------

  /** A whole run: before every clock the environment (interrupts, devices, other cores) may change the machine. */
  datatype Trace<S, O, D> = Trace(m: Machine<S>, outcomes: seq<Outcome<S, O, D>>)

  function PlainRun<S, C, O, D>(isa: Isa<S, C, O, D>, m: Machine<S>, env: seq<Machine<S> -> Machine<S>>): Trace<S, O, D>
    decreases |env|
  {
    if env == [] then Trace(m, [])
    else
      var out := PlainStep(isa, env[0](m));
      var later := PlainRun(isa, out.m, env[1..]);
      Trace(later.m, [out] + later.outcomes)
  }

  function CachedRun<S, C, O, D>(isa: Isa<S, C, O, D>, m: Machine<S>, cache: seq<Entry<O, D>>,
        env: seq<Machine<S> -> Machine<S>>): Trace<S, O, D>
    decreases |env|
  {
    if env == [] then Trace(m, [])
    else
      var out := CachedStep(isa, env[0](m), cache);
      var later := CachedRun(isa, out.outcome.m, out.cache, env[1..]);
      Trace(later.m, [out.outcome] + later.outcomes)
  }

  /** What each cacheable address decoded to when it was first executed. */
  type History<O, D> = map<nat, Instruction<O, D>>

  function Remember<S, C, O, D>(isa: Isa<S, C, O, D>, m: Machine<S>, known: History<O, D>): History<O, D> {
    var out := PlainStep(isa, m);
    if out.ret.Done? && out.used.Some? && isa.slot(m.pc).Some? && m.pc !in known then known[m.pc := out.used.value]
    else known
  }

  /** The next instruction, if it was executed before, still decodes to what it did then. */
  ghost predicate StillDecodes<S, C, O, D>(isa: Isa<S, C, O, D>, m: Machine<S>, known: History<O, D>) {
    !m.halted && m.pc in known ==> Decoded(isa, m) == Some(known[m.pc])
  }

  /** Along the plain run, no instruction is executed again after the code at its address changed its meaning. */
  ghost predicate CodeIsStable<S, C, O, D>(isa: Isa<S, C, O, D>, m: Machine<S>, known: History<O, D>,
        env: seq<Machine<S> -> Machine<S>>)
    decreases |env|
  {
    env == [] ||
    (var now := env[0](m);
     StillDecodes(isa, now, known)
     && CodeIsStable(isa, PlainStep(isa, now).m, Remember(isa, now, known), env[1..]))
  }

  /** Every filled slot holds exactly what its address decoded to when it was first executed. */
  ghost predicate Mirrors<S(!new), C(!new), O(!new), D(!new)>(isa: Isa<S, C, O, D>, cache: seq<Entry<O, D>>,
        known: History<O, D>) {
    && |cache| == isa.slots
    && (forall a: nat :: a in known ==> isa.slot(a).Some? && isa.supported(known[a].op))
    && (forall a: nat {:trigger isa.slot(a)} :: isa.slot(a).Some? && isa.slot(a).value < |cache| ==>
          var entry := cache[isa.slot(a).value];
          if a in known then entry == Entry(known[a].fields, Some(known[a].op)) else entry.op.None?)
  }

  function EmptyCache<O, D>(slots: nat, blank: D): seq<Entry<O, D>> { seq(slots, _ => Entry(blank, None)) }

  lemma UsedIsDecoded<S, C, O, D>(isa: Isa<S, C, O, D>, m: Machine<S>)
    requires !m.halted
    ensures PlainStep(isa, m).used == Decoded(isa, m)
    ensures PlainStep(isa, m).ret.Done? ==> Decoded(isa, m).Some? && isa.supported(Decoded(isa, m).value.op)
  {
  }

  lemma MissAgrees<S(!new), C(!new), O(!new), D(!new)>(isa: Isa<S, C, O, D>, m: Machine<S>, cache: seq<Entry<O, D>>,
        known: History<O, D>)
    requires SlotsDistinct(isa) && Mirrors(isa, cache, known) && m.pc !in known
    ensures var out := CachedStep(isa, m, cache);
            out.outcome == PlainStep(isa, m) && Mirrors(isa, out.cache, Remember(isa, m, known))
  {
    if !m.halted { UsedIsDecoded(isa, m); }
    assert isa.slot(m.pc).Some? || isa.slot(m.pc).None?;
    hide PlainStep, Decoded;
  }

  lemma HitAgrees<S(!new), C(!new), O(!new), D(!new)>(isa: Isa<S, C, O, D>, m: Machine<S>, cache: seq<Entry<O, D>>,
        known: History<O, D>)
    requires SlotsDistinct(isa) && Mirrors(isa, cache, known) && m.pc in known && StillDecodes(isa, m, known)
    ensures var out := CachedStep(isa, m, cache);
            out.outcome == PlainStep(isa, m) && Mirrors(isa, out.cache, Remember(isa, m, known))
  {
    assert isa.slot(m.pc).Some?;
  }

  /**
    Re-executing code that has changed its meaning makes the cached clock use the old instruction, the plain one
    the new.
   */
  lemma StaleHitDiffers<S(!new), C(!new), O(!new), D(!new)>(isa: Isa<S, C, O, D>, m: Machine<S>,
        cache: seq<Entry<O, D>>, known: History<O, D>)
    requires SlotsDistinct(isa) && Mirrors(isa, cache, known) && !StillDecodes(isa, m, known)
    ensures CachedStep(isa, m, cache).outcome.used == Some(known[m.pc]) != PlainStep(isa, m).used
  {
    UsedIsDecoded(isa, m);
    assert isa.slot(m.pc).Some?;
  }

  lemma {:induction false} Refines<S(!new), C(!new), O(!new), D(!new)>(isa: Isa<S, C, O, D>, m: Machine<S>,
        cache: seq<Entry<O, D>>,
        known: History<O, D>, env: seq<Machine<S> -> Machine<S>>)
    requires SlotsDistinct(isa) && Mirrors(isa, cache, known) && CodeIsStable(isa, m, known, env)
    ensures CachedRun(isa, m, cache, env) == PlainRun(isa, m, env)
    decreases |env|
  {
    if env != [] {
      var now := env[0](m);
      if now.pc in known { HitAgrees(isa, now, cache, known); } else { MissAgrees(isa, now, cache, known); }
      hide PlainStep, CachedStep, SlotsDistinct, Mirrors, Remember, StillDecodes;
      Refines(isa, PlainStep(isa, now).m, CachedStep(isa, now, cache).cache, Remember(isa, now, known), env[1..]);
    }
  }

  lemma {:induction false} DivergesWhenUnstable<S(!new), C(!new), O(!new), D(!new)>(isa: Isa<S, C, O, D>,
        m: Machine<S>, cache: seq<Entry<O, D>>,
        known: History<O, D>, env: seq<Machine<S> -> Machine<S>>) returns (k: nat)
    requires SlotsDistinct(isa) && Mirrors(isa, cache, known) && !CodeIsStable(isa, m, known, env)
    ensures k < |env| == |PlainRun(isa, m, env).outcomes| == |CachedRun(isa, m, cache, env).outcomes|
    ensures CachedRun(isa, m, cache, env).outcomes[k].used != PlainRun(isa, m, env).outcomes[k].used
    decreases |env|
  {
    hide PlainStep, CachedStep, SlotsDistinct, Mirrors, StillDecodes, Remember;
    var now := env[0](m);
    RunLength(isa, m, cache, env);
    if !StillDecodes(isa, now, known) {
      StaleHitDiffers(isa, now, cache, known);
      k := 0;
    } else {
      if now.pc in known { HitAgrees(isa, now, cache, known); } else { MissAgrees(isa, now, cache, known); }
      var next := CachedStep(isa, now, cache).cache;
      var j := DivergesWhenUnstable(isa, PlainStep(isa, now).m, next, Remember(isa, now, known), env[1..]);
      k := j + 1;
    }
  }

  lemma {:induction false} RunLength<S, C, O, D>(isa: Isa<S, C, O, D>, m: Machine<S>, cache: seq<Entry<O, D>>,
        env: seq<Machine<S> -> Machine<S>>)
    ensures |PlainRun(isa, m, env).outcomes| == |CachedRun(isa, m, cache, env).outcomes| == |env|
    decreases |env|
  {
    hide PlainStep, CachedStep;
    if env != [] {
      RunLength(isa, PlainStep(isa, env[0](m)).m, cache, env[1..]);
      RunLength(isa, CachedStep(isa, env[0](m), cache).outcome.m, CachedStep(isa, env[0](m), cache).cache, env[1..]);
    }
  }

  lemma EmptyMirrors<S(!new), C(!new), O(!new), D(!new)>(isa: Isa<S, C, O, D>, blank: D)
    ensures Mirrors(isa, EmptyCache(isa.slots, blank), map[])
  {
  }

  /**
    Started with an empty cache, the cached run is the plain run, clock by clock in machine, return
    code and instruction, if and only if the plain run never executes an address again after what it
    decodes to has changed.
   */
  lemma CacheIsTransparentIffCodeIsStable<S(!new), C(!new), O(!new), D(!new)>(isa: Isa<S, C, O, D>, m: Machine<S>,
        blank: D,
        env: seq<Machine<S> -> Machine<S>>)
    requires SlotsDistinct(isa)
    ensures CachedRun(isa, m, EmptyCache(isa.slots, blank), env) == PlainRun(isa, m, env) <==>
        CodeIsStable(isa, m, map[], env)
  {
    EmptyMirrors(isa, blank);
    if CodeIsStable(isa, m, map[], env) {
      Refines(isa, m, EmptyCache(isa.slots, blank), map[], env);
    } else {
      var k := DivergesWhenUnstable(isa, m, EmptyCache(isa.slots, blank), map[], env);
    }
  }

  // ---- code that nobody writes -----------------------------------------------------------

  /** Neither the environment nor any instruction of the run changes what is fetched at an address executed earlier. */
  ghost predicate KeepsExecutedCode<S, C, O, D>(isa: Isa<S, C, O, D>, m: Machine<S>, known: History<O, D>,
        env: seq<Machine<S> -> Machine<S>>)
    decreases |env|
  {
    env == [] ||
    (var now := env[0](m);
     var next := PlainStep(isa, now).m;
     var more := Remember(isa, now, known);
     && (forall a: nat :: a in known ==> isa.fetch(now.rest, a) == isa.fetch(m.rest, a))
     && (forall a: nat :: a in more ==> isa.fetch(next.rest, a) == isa.fetch(now.rest, a))
     && KeepsExecutedCode(isa, next, more, env[1..]))
  }

  /** Every remembered instruction is the decoding of the memory at its address. */
  ghost predicate DecodesMemory<S, C, O, D>(isa: Isa<S, C, O, D>, rest: S, known: History<O, D>) {
    forall a: nat :: a in known ==> isa.fetch(rest, a).Ok? && isa.parse(isa.fetch(rest, a).value) == Some(known[a])
  }

  lemma {:induction false} UnwrittenCodeIsStable<S, C, O, D>(isa: Isa<S, C, O, D>, m: Machine<S>, known: History<O, D>,
        env: seq<Machine<S> -> Machine<S>>)
    requires DecodesMemory(isa, m.rest, known) && KeepsExecutedCode(isa, m, known, env)
    ensures CodeIsStable(isa, m, known, env)
    decreases |env|
  {
    if env != [] {
      var now := env[0](m);
      if !now.halted { UsedIsDecoded(isa, now); }
      hide PlainStep;
      UnwrittenCodeIsStable(isa, PlainStep(isa, now).m, Remember(isa, now, known), env[1..]);
    }
  }

  /** With code bytes left alone, the cached run and the plain run are the same run. */
  lemma CacheRefinesPlainRun<S(!new), C(!new), O(!new), D(!new)>(isa: Isa<S, C, O, D>, m: Machine<S>, blank: D,
        env: seq<Machine<S> -> Machine<S>>)
    requires SlotsDistinct(isa) && KeepsExecutedCode(isa, m, map[], env)
    ensures CachedRun(isa, m, EmptyCache(isa.slots, blank), env) == PlainRun(isa, m, env)
  {
    UnwrittenCodeIsStable(isa, m, map[], env);
    EmptyMirrors(isa, blank);
    Refines(isa, m, EmptyCache(isa.slots, blank), map[], env);
  }

  function CacheAfter<S, C, O, D>(isa: Isa<S, C, O, D>, m: Machine<S>, cache: seq<Entry<O, D>>,
        env: seq<Machine<S> -> Machine<S>>): seq<Entry<O, D>>
    decreases |env|
  {
    if env == [] then cache
    else
      var out := CachedStep(isa, env[0](m), cache);
      CacheAfter(isa, out.outcome.m, out.cache, env[1..])
  }

  /** Every filled slot of the cache is the decoding of what memory now holds at its address. */
  ghost predicate CacheDecodesMemory<S(!new), C(!new), O(!new), D(!new)>(isa: Isa<S, C, O, D>,
        cache: seq<Entry<O, D>>, rest: S) {
    forall a: nat {:trigger isa.slot(a)} :: isa.slot(a).Some? && isa.slot(a).value < |cache| ==>
      var entry := cache[isa.slot(a).value];
      entry.op.Some? ==>
        isa.fetch(rest, a).Ok?
        && isa.parse(isa.fetch(rest, a).value) == Some(Instruction(entry.op.value, entry.fields))
  }

  lemma MirrorOfMemory<S(!new), C(!new), O(!new), D(!new)>(isa: Isa<S, C, O, D>, cache: seq<Entry<O, D>>, rest: S,
        known: History<O, D>)
    requires Mirrors(isa, cache, known) && DecodesMemory(isa, rest, known)
    ensures CacheDecodesMemory(isa, cache, rest)
  {
  }

  lemma {:induction false} RunKeepsCacheTrue<S(!new), C(!new), O(!new), D(!new)>(isa: Isa<S, C, O, D>,
        m: Machine<S>, cache: seq<Entry<O, D>>,
        known: History<O, D>, env: seq<Machine<S> -> Machine<S>>)
    requires SlotsDistinct(isa) && Mirrors(isa, cache, known)
    requires DecodesMemory(isa, m.rest, known) && KeepsExecutedCode(isa, m, known, env)
    ensures CacheDecodesMemory(isa, CacheAfter(isa, m, cache, env), CachedRun(isa, m, cache, env).m.rest)
    decreases |env|
  {
    if env == [] {
      MirrorOfMemory(isa, cache, m.rest, known);
    } else {
      var now := env[0](m);
      UnwrittenCodeIsStable(isa, m, known, env);
      if now.pc in known { HitAgrees(isa, now, cache, known); } else { MissAgrees(isa, now, cache, known); }
      if !now.halted { UsedIsDecoded(isa, now); }
      hide PlainStep, CachedStep, SlotsDistinct, Mirrors, StillDecodes, CacheDecodesMemory, CodeIsStable;
      var next := CachedStep(isa, now, cache).cache;
      RunKeepsCacheTrue(isa, PlainStep(isa, now).m, next, Remember(isa, now, known), env[1..]);
    }
  }

  /**
    The invariant behind it: at the end of any run that leaves executed code alone, every filled entry decodes
    the memory at its address.
   */
  lemma FilledEntriesDecodeMemory<S(!new), C(!new), O(!new), D(!new)>(isa: Isa<S, C, O, D>, m: Machine<S>, blank: D,
        env: seq<Machine<S> -> Machine<S>>)
    requires SlotsDistinct(isa) && KeepsExecutedCode(isa, m, map[], env)
    ensures var cache := EmptyCache(isa.slots, blank);
            CacheDecodesMemory(isa, CacheAfter(isa, m, cache, env), CachedRun(isa, m, cache, env).m.rest)
  {
    EmptyMirrors(isa, blank);
    RunKeepsCacheTrue(isa, m, EmptyCache(isa.slots, blank), map[], env);
  }
}
