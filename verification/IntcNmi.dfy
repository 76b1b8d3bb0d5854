/** NMI requests over bracketed runs: how many are served, and what entering and leaving their handlers does. */
module IntcNmi {
  import opened Psw
  import opened Results
  import opened Intc
  import opened IntcInvariant
  import opened IntcNesting

  /** The NMI requests that arrive in a run, at every depth. */
  function Arrivals(acts: seq<Act>): nat
    decreases acts
  {
    if acts == [] then 0 else ArrivalsOf(acts[0]) + Arrivals(acts[1..])
  }

  function ArrivalsOf(act: Act): nat
    decreases act
  {
    match act
    case ArriveNmi => 1
    case NmiHandler(body) => Arrivals(body)
    case Handler(beforeSave, beforeEnable, body, beforeRestore, beforeEnd, _, beforeReturn) =>
      Arrivals(beforeSave) + Arrivals(beforeEnable) + Arrivals(body) + Arrivals(beforeRestore) + Arrivals(beforeEnd)
      + Arrivals(beforeReturn)
    case _ => 0
  }

  /** The NMI handlers of a run, at every depth. */
  function Handled(acts: seq<Act>): nat
    decreases acts
  {
    if acts == [] then 0 else HandledBy(acts[0]) + Handled(acts[1..])
  }

  function HandledBy(act: Act): nat
    decreases act
  {
    match act
    case NmiHandler(body) => 1 + Handled(body)
    case Handler(beforeSave, beforeEnable, body, beforeRestore, beforeEnd, _, beforeReturn) =>
      Handled(beforeSave) + Handled(beforeEnable) + Handled(body) + Handled(beforeRestore) + Handled(beforeEnd)
      + Handled(beforeReturn)
    case _ => 0
  }

  // ---- entry and return --------------------------------------------------------------------

  /** A clock that enters an NMI handler: where it goes, what it saves and what it leaves alone. */
  lemma NmiEntryIsExact(s: State)
    requires EntersNmi(s)
    ensures var t := Clock(s);
      && t == s.(c := t.c)
      && t.c.pc == 0x10 && t.c.fepc == s.c.pc && t.c.fepsw == s.c.psw
      && t.c.psw == s.c.psw.(np := true, ep := false, id := true)
      && t.c.eipc == s.c.eipc && t.c.eipsw == s.c.eipsw && !t.c.halted
      && t.c.ecr / 0x10_0000 % 2 == 1
      && t.c.ecr == (if s.c.ecr / 0x10_0000 % 2 == 1 then s.c.ecr else s.c.ecr + 0x10_0000)
  {
    BitIsAdded(s.c.ecr);
  }

  lemma BitIsAdded(ecr: int)
    ensures ecr / 0x10_0000 % 2 == 0 ==> (ecr + 0x10_0000) / 0x10_0000 % 2 == 1
  {
  }

  /**
    The gate of the watchdog request as the source has it: nothing is entered until NP is set, and then
    every clock enters again with a return address of zero. While it is pending no other handler is entered.
   */
  lemma WatchdogGate(s: State)
    requires s.wdt
    ensures !s.c.psw.np ==> Clock(s) == s
    ensures s.c.psw.np ==>
              var t := Clock(s);
              && t == s.(c := t.c) && t.c.pc == 0x20 && t.c.fepc == 0 && t.c.fepsw == s.c.psw && !t.c.halted
              && t.c.psw == s.c.psw.(np := true, ep := false, id := true)
              && t.c.eipc == s.c.eipc && t.c.eipsw == s.c.eipsw && t.c.ecr / 0x20_0000 % 2 == 1
  {
    WatchdogBit(s.c.ecr);
  }

  lemma WatchdogBit(ecr: int)
    ensures ecr / 0x20_0000 % 2 == 0 ==> (ecr + 0x20_0000) / 0x20_0000 % 2 == 1
  {
  }

  /** Leaving it takes the FE pair and uses up one request. */
  lemma NmiReturnIsExact(s: State)
    requires !s.wdt && !s.c.psw.ep && s.c.psw.np
    ensures Reti(s) == s.(c := s.c.(pc := s.c.fepc, psw := s.c.fepsw), nmi := s.nmi - 1)
  {
  }

  /** Leaving a maskable handler takes the EI pair and uses up none. */
  lemma MaskableReturnIsExact(s: State)
    requires s.c.psw.ep || !s.c.psw.np
    ensures Reti(s) == s.(c := s.c.(pc := s.c.eipc, psw := s.c.eipsw))
  {
  }

  // ---- counting ----------------------------------------------------------------------------

  /** Over every bracketed run the requests left are those before, plus the arrivals, minus the handlers. */
  lemma {:induction false} NmiCount(s: State, acts: seq<Act>)
    requires Inv(s.w) && !s.wdt && Exec(s, acts).Some?
    ensures Exec(s, acts).value.nmi == s.nmi + Arrivals(acts) - Handled(acts)
    decreases acts, 0
  {
    if acts != [] {
      var t := ExecOne(s, acts[0]).value;
      ActIsFramed(s, acts[0]);
      ActCount(s, acts[0]);
      hide ExecOne, ArrivalsOf, HandledBy, Inv;
      NmiCount(t, acts[1..]);
    }
  }

  lemma {:induction false} ActCount(s: State, act: Act)
    requires Inv(s.w) && !s.wdt && ExecOne(s, act).Some?
    ensures ExecOne(s, act).value.nmi == s.nmi + ArrivalsOf(act) - HandledBy(act)
    decreases act, 1
  {
    if act.NmiHandler? {
      NmiHandlerCount(s, act);
    } else if act.Handler? {
      HandlerCount(s, act);
    } else {
      hide Inv;
    }
  }

  lemma {:induction false} NmiHandlerCount(s: State, act: Act)
    requires Inv(s.w) && !s.wdt && act.NmiHandler? && ExecOne(s, act).Some?
    ensures ExecOne(s, act).value.nmi == s.nmi + ArrivalsOf(act) - HandledBy(act)
    decreases act, 0
  {
    var entered := Clock(s);
    NmiEntryIsExact(s);
    hide Clock, Reti, Inv, Exec;
    RunIsFramed(entered, act.nmiBody);
    NmiCount(entered, act.nmiBody);
    var done := Exec(entered, act.nmiBody).value;
    NmiReturnIsExact(done);
  }

  /** A stage of a maskable handler: its count, and what the next stage needs of the state it ends in. */
  lemma {:induction false} StageCount(s: State, acts: seq<Act>)
    requires Inv(s.w) && !s.wdt && !s.c.psw.np && !s.c.psw.ep && Exec(s, acts).Some?
    ensures var t := Exec(s, acts).value;
            Inv(t.w) && !t.wdt && !t.c.psw.np && !t.c.psw.ep && t.nmi == s.nmi + Arrivals(acts) - Handled(acts)
    decreases acts, 1
  {
    RunIsFramed(s, acts);
    hide Inv, Exec;
    NmiCount(s, acts);
  }

  lemma MaskableEntry(s: State)
    requires Inv(s.w) && EntersMaskable(s)
    ensures var t := Clock(s); Inv(t.w) && !t.wdt && !t.c.psw.np && !t.c.psw.ep && t.nmi == s.nmi
  {
    ClockKeepsInv(s);
    MostUrgentIsMinimum(s.w);
    hide Inv, MostUrgent;
  }

  lemma {:induction false} HandlerCount(s: State, act: Act)
    requires Inv(s.w) && !s.wdt && act.Handler? && ExecOne(s, act).Some?
    ensures ExecOne(s, act).value.nmi == s.nmi + ArrivalsOf(act) - HandledBy(act)
    decreases act, 0
  {
    var entered := Clock(s);
    MaskableEntry(s);
    hide Clock, Reti, Inv, Exec, PutIcn8, EntersMaskable;
    StageCount(entered, act.beforeSave);
    var saving := Exec(entered, act.beforeSave).value;
    StageCount(saving, act.beforeEnable);
    var enabling := Exec(saving, act.beforeEnable).value;
    StageCount(Ei(enabling), act.body);
    var bodyDone := Exec(Ei(enabling), act.body).value;
    StageCount(Di(bodyDone), act.beforeRestore);
    var restoring := Exec(Di(bodyDone), act.beforeRestore).value;
    var restored := restoring.(c := restoring.c.(eipc := saving.c.eipc, eipsw := saving.c.eipsw));
    StageCount(restored, act.beforeEnd);
    var ending := Exec(restored, act.beforeEnd).value;
    EndKeepsCore(ending, act.end.0, act.end.1);
    var ended := PutIcn8(ending, act.end.0, act.end.1);
    StageCount(ended, act.beforeReturn);
    MaskableReturnIsExact(Exec(ended, act.beforeReturn).value);
  }

  lemma EndKeepsCore(s: State, n: Line, b: Byte)
    requires Inv(s.w)
    ensures var t := PutIcn8(s, n, b); Inv(t.w) && t == s.(w := t.w)
  {
    EndCurrentKeepsInv(s.w);
    SameTables(EndCurrent(s.w), PutIcn8(s, n, b).w);
    hide EndCurrent, Inv;
  }

  // ---- what the count says -----------------------------------------------------------------

  /**
    From no request pending and NP clear: after any bracketed run the next clock enters an NMI handler if and
    only if more requests arrived than handlers ran. As many handlers as requests leave none to enter.
   */
  lemma ServedOnceEach(s: State, acts: seq<Act>)
    requires Inv(s.w) && !s.wdt && s.nmi == 0 && !s.c.psw.np && Exec(s, acts).Some?
    ensures EntersNmi(Exec(s, acts).value) <==> Handled(acts) < Arrivals(acts)
  {
    NmiCount(s, acts);
    RunIsFramed(s, acts);
    hide Inv, Exec;
  }

  /** Inside an NMI handler no other one runs: requests that arrive there wait for its return. */
  lemma {:induction false} NoneUnderNp(s: State, acts: seq<Act>)
    requires Inv(s.w) && !s.wdt && s.c.psw.np && Exec(s, acts).Some?
    ensures Handled(acts) == 0
    decreases acts
  {
    if acts != [] {
      ActIsFramed(s, acts[0]);
      assert !acts[0].NmiHandler? && !acts[0].Handler?;
      hide Inv, ExecOne;
      NoneUnderNp(ExecOne(s, acts[0]).value, acts[1..]);
    }
  }

  function Times(n: nat): seq<Act> { if n == 0 then [] else [NmiHandler([])] + Times(n - 1) }

  /** `n` pending requests are entered by n handlers one after the other, and by no more. */
  lemma {:induction false} HandlersRunIffPending(s: State, n: nat)
    requires Inv(s.w) && !s.wdt && s.nmi >= 0 && !s.c.psw.np
    ensures Exec(s, Times(n)).Some? <==> n <= s.nmi
    ensures n <= s.nmi ==> Exec(s, Times(n)).value.nmi == s.nmi - n
    decreases n
  {
    if n > 0 {
      assert Times(n)[1..] == Times(n - 1);
      if s.nmi > 0 {
        OneHandler(s);
        hide Inv, ExecOne;
        HandlersRunIffPending(ExecOne(s, NmiHandler([])).value, n - 1);
      }
    }
  }

  lemma OneHandler(s: State)
    requires Inv(s.w) && EntersNmi(s)
    ensures var r := ExecOne(s, NmiHandler([])); r.Some? && Inv(r.value.w) && !r.value.wdt && r.value.nmi == s.nmi - 1
    ensures ExecOne(s, NmiHandler([])).value.c.psw == s.c.psw
  {
    NmiEntryIsExact(s);
    NmiReturnIsExact(Clock(s));
    hide Clock, Reti, Inv;
    assert Exec(Clock(s), []) == Some(Clock(s));
  }
}
