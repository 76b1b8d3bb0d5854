/** cpu_supply_clock as the source runs it, on a cache updated in place. */
module CodeCacheCore {
  import opened Results
  import opened CodeCache

  class Core<S(!new), C(!new), O(!new), D(!new)> {
    const isa: Isa<S, C, O, D>
    const codes: array<Entry<O, D>>
    var machine: Machine<S>
    /** The instruction decoded_code points at, kept to state which one a clock used. */
    ghost var used: Option<Instruction<O, D>>

    ghost predicate Valid()
      reads this
    {
      SlotsDistinct(isa) && codes.Length == isa.slots
    }

    constructor (isa: Isa<S, C, O, D>, machine: Machine<S>, blank: D)
      requires SlotsDistinct(isa)
      ensures Valid() && fresh(codes) && this.isa == isa && this.machine == machine
      ensures codes[..] == EmptyCache(isa.slots, blank)
    {
      this.isa, this.machine, used := isa, machine, None;
      codes := new Entry<O, D>[isa.slots](_ => Entry(blank, None));
    }

    /** The tail both paths share: charge the clocks, run the operation, add real_elaps. */
    method ExecOp(op: O, fields: D) returns (ret: Ret)
      modifies this`machine, this`used
      ensures Outcome(machine, ret, used) == Execute(isa, Instruction(op, fields), old(machine))
    {
      used := Some(Instruction(op, fields));
      machine := machine.(realElaps := isa.clocks(op));
      var done := isa.exec(op, fields, machine);
      machine := done.m;
      if !done.ok { return ExecError; }
      machine := machine.(elaps := (machine.elaps + machine.realElaps) % WRAP64);
      machine := machine.(r0 := 0);
      return Done;
    }

    /** cpu_supply_clock_not_cached; `inx` is None when no cached region covers the address. */
    method SupplyClockNotCached(inx: Option<nat>) returns (ret: Ret)
      requires Valid() && !machine.halted && machine.r0 == 0
      requires inx.Some? ==> inx.value < codes.Length && codes[inx.value].op.None?
      modifies this`machine, this`used, codes
      ensures Valid()
      ensures inx.None? ==> Outcome(machine, ret, used) == PlainStep(isa, old(machine)) && codes[..] == old(codes[..])
      ensures inx.Some? ==>
          Cached(Outcome(machine, ret, used), codes[..]) == MissStep(isa, old(machine), old(codes[..]), inx.value)
    {
      used := None;
      assert machine == machine.(r0 := 0);
      match isa.fetch(machine.rest, machine.pc) {
        case Err(e) => return BusError(e);
        case Ok(code) =>
          var parsed := isa.parse(code);
          if parsed.None? { return DecodeError; }
          var Instruction(op, fields) := parsed.value;
          used := parsed;
          if inx.Some? { codes[inx.value] := Entry(fields, codes[inx.value].op); }
          var check := isa.permitted(machine);
          machine := check.m;
          if !check.allowed { return Segv; }
          if !isa.supported(op) { return ExecError; }
          ret := ExecOp(op, fields);
          if ret.Done? && inx.Some? { codes[inx.value] := Entry(fields, Some(op)); }
      }
    }

    /** cpu_supply_clock */
    method SupplyClock() returns (ret: Ret)
      requires Valid()
      modifies this`machine, this`used, codes
      ensures Valid()
      ensures Cached(Outcome(machine, ret, used), codes[..]) == CachedStep(isa, old(machine), old(codes[..]))
    {
      used := None;
      if machine.halted { return Done; }
      ghost var before := machine;
      machine := machine.(r0 := 0);
      var slot := isa.slot(machine.pc);
      if slot.None? || codes[slot.value].op.None? {
        ClearedR0(isa, before);
        ret := SupplyClockNotCached(slot);
      } else {
        var entry := codes[slot.value];
        used := Some(Instruction(entry.op.value, entry.fields));
        var check := isa.permitted(machine);
        machine := check.m;
        if !check.allowed { return Segv; }
        ret := ExecOp(entry.op.value, entry.fields);
      }
    }
  }

  lemma ClearedR0<S, C, O, D>(isa: Isa<S, C, O, D>, m: Machine<S>)
    requires !m.halted
    ensures PlainStep(isa, m) == PlainStep(isa, m.(r0 := 0))
  {
  }
}
