/**
  Well-bracketed runs: maskable handlers that nest to any depth, with requests, mask and level
  changes, ordinary instructions and NMI handlers anywhere in between.
 */
module IntcNesting {
  import opened Psw
  import opened Results
  import opened Intc
  import opened IntcInvariant

  /**
    A handler saves EIPC and EIPSW, enables interrupts, runs its body, disables them, restores the
    saved pair, ends the interrupt by writing an xxICn byte, and returns. Anything may happen in each gap.
   */
  datatype Act =
    | Arrive(n: Line) | ArriveNmi | QuietTick
    | Instruction(pc: int, flags: Flags)
    | SetIcn(n: Line, b: Byte) | SetImr(k: nat, data: Bits)
    | NmiHandler(nmiBody: seq<Act>)
    | Handler(beforeSave: seq<Act>, beforeEnable: seq<Act>, body: seq<Act>, beforeRestore: seq<Act>,
              beforeEnd: seq<Act>, end: (Line, Byte), beforeReturn: seq<Act>)

  predicate EntersNmi(s: State) {
    !s.wdt && s.nmi > 0 && !s.c.psw.np
  }

  /**
    The state after `acts`, or None when the run is not bracketed this way (a handler that is not accepted, a
    tick that is not quiet).
   */
  function Exec(s: State, acts: seq<Act>): Option<State>
    decreases acts
  {
    if acts == [] then Some(s)
    else
      var next :- ExecOne(s, acts[0]);
      Exec(next, acts[1..])
  }

  function ExecOne(s: State, act: Act): Option<State>
    decreases act
  {
    match act
    case Arrive(n) => Some(Request(s, n))
    case ArriveNmi => Some(s.(nmi := s.nmi + 1))
    case QuietTick => if EntersNmi(s) || EntersMaskable(s) then None else Some(Clock(s))
    case Instruction(pc, flags) => Some(s.(c := s.c.(pc := pc, psw := s.c.psw.(flags := flags))))
    case SetIcn(n, b) => Some(PutIcn16(s, n, b))
    case SetImr(k, data) => Some(PutImr(s, k, data))
    case NmiHandler(body) =>
      if !EntersNmi(s) then None
      else
        var done :- Exec(Clock(s), body);
        Some(Reti(done))
    case Handler(beforeSave, beforeEnable, body, beforeRestore, beforeEnd, end, beforeReturn) =>
      if !EntersMaskable(s) then None
      else
        var saving :- Exec(Clock(s), beforeSave);
        var enabling :- Exec(saving, beforeEnable);
        var bodyDone :- Exec(Ei(enabling), body);
        var restoring :- Exec(Di(bodyDone), beforeRestore);
        var ending :- Exec(restoring.(c := restoring.c.(eipc := saving.c.eipc, eipsw := saving.c.eipsw)), beforeEnd);
        var returning :- Exec(PutIcn8(ending, end.0, end.1), beforeReturn);
        Some(Reti(returning))
  }

  /** What any bracketed run keeps, whatever it contains. */
  ghost predicate Framed(s: State, t: State) {
    && Inv(t.w) && !t.wdt
    && t.w.current == s.w.current && t.w.saved == s.w.saved
    && SameControl(t.c.psw, s.c.psw)
    && (s.c.psw.id || s.c.psw.np ==> t.c.eipc == s.c.eipc && t.c.eipsw == s.c.eipsw)
    && (s.c.psw.np ==> t.c.fepc == s.c.fepc && t.c.fepsw == s.c.fepsw)
  }

  lemma FramedTransitive(s: State, t: State, u: State)
    requires Framed(s, t) && Framed(t, u)
    ensures Framed(s, u)
  {
  }

  lemma {:induction false} RunIsFramed(s: State, acts: seq<Act>)
    requires Inv(s.w) && !s.wdt && Exec(s, acts).Some?
    ensures Framed(s, Exec(s, acts).value)
    decreases acts
  {
    if acts != [] {
      var t := ExecOne(s, acts[0]).value;
      ActIsFramed(s, acts[0]);
      RunIsFramed(t, acts[1..]);
      FramedTransitive(s, t, Exec(s, acts).value);
    }
  }

  lemma {:induction false} ActIsFramed(s: State, act: Act)
    requires Inv(s.w) && !s.wdt && ExecOne(s, act).Some?
    ensures Framed(s, ExecOne(s, act).value)
    decreases act
  {
    match act
    case Arrive(n) => RequestKeepsInv(s, n);
    case ArriveNmi =>
    case QuietTick =>
    case Instruction(pc, flags) =>
    case SetIcn(n, b) => SameTables(s.w, PutIcn16(s, n, b).w);
    case SetImr(k, data) => SameTables(s.w, PutImr(s, k, data).w);
    case NmiHandler(_) => NmiHandlerRestores(s, act);
    case Handler(_, _, _, _, _, _, _) => HandlerRestores(s, act);
  }

  /** An NMI handler leaves PC, PSW and the maskable side exactly as it found them. */
  lemma {:induction false} NmiHandlerRestores(s: State, act: Act)
    requires Inv(s.w) && !s.wdt && act.NmiHandler? && ExecOne(s, act).Some?
    ensures var t := ExecOne(s, act).value;
      && t.c.pc == s.c.pc && t.c.psw == s.c.psw
      && t.c.eipc == s.c.eipc && t.c.eipsw == s.c.eipsw
      && t.w.current == s.w.current && t.w.saved == s.w.saved && Inv(t.w) && !t.wdt
    decreases act, 0
  {
    var entered := Clock(s);
    RunIsFramed(entered, act.nmiBody);
    var done := Exec(entered, act.nmiBody).value;
  }

  /**
    A handler with everything nested in it ends with PC, PSW, the current interrupt and the stack of
    preempted ones exactly as they were before it was accepted.
   */
  lemma {:induction false} HandlerRestores(s: State, act: Act)
    requires Inv(s.w) && !s.wdt && act.Handler? && ExecOne(s, act).Some?
    ensures var t := ExecOne(s, act).value;
      && t.c.pc == s.c.pc && t.c.psw == s.c.psw
      && t.w.current == s.w.current && t.w.saved == s.w.saved && Inv(t.w) && !t.wdt
    decreases act, 0
  {
    var entered := Clock(s);
    AcceptanceIsExact(s);
    MostUrgentIsMinimum(s.w);
    ClockKeepsInv(s);
    RunIsFramed(entered, act.beforeSave);
    var saving := Exec(entered, act.beforeSave).value;
    assert saving.c.eipc == s.c.pc && saving.c.eipsw == s.c.psw;
    RunIsFramed(saving, act.beforeEnable);
    var enabling := Exec(saving, act.beforeEnable).value;
    RunIsFramed(Ei(enabling), act.body);
    var bodyDone := Exec(Ei(enabling), act.body).value;
    RunIsFramed(Di(bodyDone), act.beforeRestore);
    var restoring := Exec(Di(bodyDone), act.beforeRestore).value;
    var restored := restoring.(c := restoring.c.(eipc := saving.c.eipc, eipsw := saving.c.eipsw));
    RunIsFramed(restored, act.beforeEnd);
    var ending := Exec(restored, act.beforeEnd).value;
    var ended := PutIcn8(ending, act.end.0, act.end.1);
    EndCurrentKeepsInv(ending.w);
    SameTables(EndCurrent(ending.w), ended.w);
    RunIsFramed(ended, act.beforeReturn);
    var returning := Exec(ended, act.beforeReturn).value;
    assert s.w.current >= 0 ==> (s.w.saved + [s.w.current])[..|s.w.saved|] == s.w.saved;
  }
}
