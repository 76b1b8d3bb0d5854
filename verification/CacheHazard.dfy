/** The cache of CodeCache with the decoder of Decode: what exactly makes a cached instruction stale. */
module CacheHazard {
  import opened Results
  import opened OpTable
  import opened Decode
  import opened CodeCache

  /** What a cache slot keeps of op_parse: the operation and the fields, not the format. */
  function AsInstruction(code: Code): Option<Instruction<OpCode, Fields>> {
    match Parse(code)
    case None => None
    case Some(p) => Some(Instruction(p.optype.codeId, p.fields))
  }

  lemma InstructionIsParsed(a: Code, b: Code)
    requires AsInstruction(a).Some?
    ensures AsInstruction(a) == AsInstruction(b) <==> Parse(a) == Parse(b)
  {
    FormatOfDecoded(Parse(a).value.optype.formatId, a);
    if Parse(b).Some? { FormatOfDecoded(Parse(b).value.optype.formatId, b); }
    hide Classify, DecodeFields, FormatOf;
  }

  /**
    An instruction executed when its address held `was` is still right in the cache, now that the
    address holds `now`, exactly when the halfwords of its own format are unchanged. Code behind it may
    have changed freely.
   */
  lemma CachedInstructionIsStaleIffItsHalfwordsChanged<S(!new)>(isa: Isa<S, Code, OpCode, Fields>, m: Machine<S>,
                                                               known: History<OpCode, Fields>, was: Code, now: Code)
    requires isa.parse(now) == AsInstruction(now) && isa.fetch(m.rest, m.pc) == Ok(now)
    requires AsInstruction(was).Some? && !m.halted && m.pc in known && known[m.pc] == AsInstruction(was).value
    ensures StillDecodes(isa, m, known) <==> SameBits(Parse(was).value.optype.formatId, was, now.c0, now.c1, now.c2)
  {
    SameInstructionIffSameHalfwords(was, now);
    InstructionIsParsed(was, now);
    hide Parse, AsInstruction;
  }

  // ---- whole runs ------------------------------------------------------------------------

  /** The isa decodes as op_parse does. */
  ghost predicate ParsesV850<S(!new)>(isa: Isa<S, Code, OpCode, Fields>) {
    forall code: Code {:trigger isa.parse(code)} :: isa.parse(code) == AsInstruction(code)
  }

  /** The code words that were at the cacheable addresses when they were first executed. */
  type CodeHistory = map<nat, Code>

  function RememberCode<S>(isa: Isa<S, Code, OpCode, Fields>, m: Machine<S>, was: CodeHistory): CodeHistory {
    var out := PlainStep(isa, m);
    if out.ret.Done? && out.used.Some? && isa.slot(m.pc).Some? && m.pc !in was && isa.fetch(m.rest, m.pc).Ok?
    then was[m.pc := isa.fetch(m.rest, m.pc).value]
    else was
  }

  /** An address executed before still holds the halfwords that its instruction took. */
  predicate HalfwordsKept<S>(isa: Isa<S, Code, OpCode, Fields>, m: Machine<S>, was: CodeHistory) {
    !m.halted && m.pc in was ==>
      && isa.fetch(m.rest, m.pc).Ok? && Parse(was[m.pc]).Some?
      && var now := isa.fetch(m.rest, m.pc).value;
      SameBits(Parse(was[m.pc]).value.optype.formatId, was[m.pc], now.c0, now.c1, now.c2)
  }

  /** Along the plain run, no address is executed again after a halfword of its instruction was rewritten. */
  ghost predicate NoRewrittenCode<S>(isa: Isa<S, Code, OpCode, Fields>, m: Machine<S>, was: CodeHistory,
        env: seq<Machine<S> -> Machine<S>>)
    decreases |env|
  {
    env == [] ||
    (var now := env[0](m);
     HalfwordsKept(isa, now, was)
     && NoRewrittenCode(isa, PlainStep(isa, now).m, RememberCode(isa, now, was), env[1..]))
  }

  /** The remembered instructions are those of the remembered code words. */
  ghost predicate SameHistory(known: History<OpCode, Fields>, was: CodeHistory) {
    known.Keys == was.Keys && forall a: nat :: a in was ==> AsInstruction(was[a]) == Some(known[a])
  }

  lemma KeptIffStillDecodes<S(!new)>(isa: Isa<S, Code, OpCode, Fields>, m: Machine<S>,
        known: History<OpCode, Fields>, was: CodeHistory)
    requires ParsesV850(isa) && SameHistory(known, was)
    ensures HalfwordsKept(isa, m, was) <==> StillDecodes(isa, m, known)
  {
    if !m.halted && m.pc in was && isa.fetch(m.rest, m.pc).Ok? {
      var now := isa.fetch(m.rest, m.pc).value;
      assert isa.parse(now) == AsInstruction(now);
      assert Parse(was[m.pc]).Some?;
      hide Parse, AsInstruction;
      CachedInstructionIsStaleIffItsHalfwordsChanged(isa, m, known, was[m.pc], now);
    }
    hide Parse;
  }

  lemma RememberSame<S(!new)>(isa: Isa<S, Code, OpCode, Fields>, m: Machine<S>,
        known: History<OpCode, Fields>, was: CodeHistory)
    requires ParsesV850(isa) && SameHistory(known, was)
    ensures SameHistory(Remember(isa, m, known), RememberCode(isa, m, was))
  {
    if !m.halted { UsedIsDecoded(isa, m); }
    if isa.fetch(m.rest, m.pc).Ok? {
      var now := isa.fetch(m.rest, m.pc).value;
      assert isa.parse(now) == AsInstruction(now);
    }
    assert m.halted ==> PlainStep(isa, m).used.None?;
    hide PlainStep, AsInstruction;
  }

  lemma {:induction false} StableIffNotRewritten<S(!new)>(isa: Isa<S, Code, OpCode, Fields>, m: Machine<S>,
        known: History<OpCode, Fields>, was: CodeHistory, env: seq<Machine<S> -> Machine<S>>)
    requires ParsesV850(isa) && SameHistory(known, was)
    ensures CodeIsStable(isa, m, known, env) <==> NoRewrittenCode(isa, m, was, env)
    decreases |env|
  {
    hide PlainStep, Remember, RememberCode, HalfwordsKept, StillDecodes, SameHistory, ParsesV850;
    if env != [] {
      var now := env[0](m);
      KeptIffStillDecodes(isa, now, known, was);
      RememberSame(isa, now, known, was);
      var next := PlainStep(isa, now).m;
      StableIffNotRewritten(isa, next, Remember(isa, now, known), RememberCode(isa, now, was), env[1..]);
    }
  }

  /**
    With the V850E2M decoder and an empty cache, the cached run is the plain run if and only if no
    address is executed again after a halfword of its instruction was rewritten.
   */
  lemma CacheIsTransparentIffNotRewritten<S(!new)>(isa: Isa<S, Code, OpCode, Fields>, m: Machine<S>, blank: Fields,
        env: seq<Machine<S> -> Machine<S>>)
    requires SlotsDistinct(isa) && ParsesV850(isa)
    ensures CachedRun(isa, m, EmptyCache(isa.slots, blank), env) == PlainRun(isa, m, env) <==>
            NoRewrittenCode(isa, m, map[], env)
  {
    CacheIsTransparentIffCodeIsStable(isa, m, blank, env);
    StableIffNotRewritten(isa, m, map[], map[], env);
  }
}
