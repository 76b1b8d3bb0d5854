/**
  Software exceptions and memory-protection exceptions with their returns
  (src/cpu/cpu_exec/op_exec_spec.c:285-469, src/cpu/config/cpu_config.c:285-366), and what nested
  handlers restore.
 */
module Exceptions {
  import opened Psw
  import opened Results

  const WORD: int := 0x1_0000_0000

  /** The registers entry and return touch; `aue` is MPM.AUE. */
  datatype Core = Core(
    pc: int, psw: Psw, eipc: int, eipsw: Psw, fepc: int, fepsw: Psw, ecr: nat, eiic: nat, feic: nat, aue: bool)

  function WithTrust(psw: Psw, aue: bool): Psw { if aue then psw.(protection := TRUSTED) else psw }

  /** op_exec_trap: the protection bits are cleared before PSW is saved. */
  function Trap(c: Core, vector: nat): Core {
    if vector > 0x1F then c
    else
      var psw := WithTrust(c.psw, c.aue);
      var eicc := if vector <= 0x0F then 0x40 + vector else 0x50 + vector % 0x10;
      c.(pc := if vector <= 0x0F then 0x40 else 0x50, eipc := (c.pc + 4) % WORD, eipsw := psw,
         ecr := c.ecr % 0x1_0000 + 0x1_0000 * eicc, psw := psw.(ep := true, id := true))
  }

  /** op_exec_fetrap_1: PSW is saved first. */
  function Fetrap(c: Core, vector: nat): Core {
    c.(pc := 0x30, fepc := (c.pc + 2) % WORD, fepsw := c.psw, feic := 0x30 + vector,
       ecr := c.ecr % 0x1_0000 + 0x1_0000 * (0x30 + vector),
       psw := WithTrust(c.psw.(ep := true, id := true, np := true), c.aue))
  }

  /** The registers of op_exec_syscall_10 before the table is read: DMP is off for the read. */
  function SyscallSaved(c: Core, vector8: nat): Core {
    var entered := c.psw.(ep := true, id := true);
    c.(eipc := (c.pc + 4) % WORD, eiic := 0x8000 + vector8, eipsw := c.psw,
       ecr := c.ecr / 0x1_0000 * 0x1_0000 + (0x8000 + vector8),
       psw := if c.aue then entered.(protection := TRUSTED)
              else entered.(protection := entered.protection.(dmp := false)))
  }

  datatype Result = Result(c: Core, ok: bool)

  /** Where SYSCALL reads its table: vectors above the size in SCCFG use the first entry. */
  function TableSlot(scbp: nat, sccfg: nat, vector8: nat): int {
    if vector8 <= sccfg % 0x100 then (scbp + 4 * vector8) % WORD else scbp
  }

  /** The word the bus gives there; `words` are those it can give. */
  function TableEntry(words: map<int, nat>, scbp: nat, sccfg: nat, vector8: nat): Option<nat> {
    var a := TableSlot(scbp, sccfg, vector8);
    if a in words then Some(words[a]) else None
  }

  /** op_exec_syscall_10; `entry` is the word of the SCBP table, None if the bus refuses the read. */
  function Syscall(c: Core, vector8: nat, scbp: nat, entry: Option<nat>): Result {
    var saved := SyscallSaved(c, vector8);
    if entry.None? then Result(saved, false)
    else
      var psw := if c.aue then saved.psw
                 else saved.psw.(protection := saved.psw.protection.(dmp := c.psw.protection.dmp));
      Result(saved.(psw := psw, pc := (scbp + entry.value) % WORD), true)
  }

  /** cpu_illegal_access with a recorded fault: FEPC is the address of the instruction itself. */
  function IllegalAccess(c: Core, feic: nat): Core {
    c.(pc := 0x30, fepc := c.pc, fepsw := c.psw, feic := feic, ecr := c.ecr % 0x100 + 0x1_0000 * feic,
       psw := c.psw.(ep := true, np := true, id := true, protection := TRUSTED))
  }

  function Eiret(c: Core): Core { c.(pc := c.eipc, psw := c.eipsw) }

  function Feret(c: Core): Core { c.(pc := c.fepc, psw := c.fepsw) }

  /** op_exec_reti without the controller: EP is tested before NP. */
  function Reti(c: Core): Core {
    if c.psw.ep then Eiret(c) else if c.psw.np then Feret(c) else Eiret(c)
  }

  // ---- nested handlers -------------------------------------------------------------------

  /** What brings a handler in: the exception and the data it reads. */
  datatype Cause =
    | ByTrap(vector: nat)
    | ByFetrap(vector: nat)
    | BySyscall(vector8: nat, scbp: nat, entry: nat)
    | ByIllegalAccess(feic: nat)

  /** Which return pairs a handler stores on entry and puts back before it returns. */
  datatype Saves = Saves(ei: bool, fe: bool)

  /**
    A program with handlers: instructions that leave these registers but for flags and pc alone, and whole
    handlers, each with the pairs it saves.
   */
  datatype Act = Plain(flags: Flags, pc: int) | Handler(cause: Cause, saves: Saves, body: seq<Act>)

  predicate FeLevel(cause: Cause) { cause.ByFetrap? || cause.ByIllegalAccess? }

  function Enter(c: Core, cause: Cause): Core {
    match cause
    case ByTrap(v) => Trap(c, v)
    case ByFetrap(v) => Fetrap(c, v)
    case BySyscall(v, scbp, entry) => Syscall(c, v, scbp, Some(entry)).c
    case ByIllegalAccess(feic) => IllegalAccess(c, feic)
  }

  /** The saved pairs come back as they were right after entry. */
  function Restored(done: Core, entered: Core, saves: Saves): Core {
    done.(eipc := if saves.ei then entered.eipc else done.eipc,
          eipsw := if saves.ei then entered.eipsw else done.eipsw,
          fepc := if saves.fe then entered.fepc else done.fepc,
          fepsw := if saves.fe then entered.fepsw else done.fepsw)
  }

  /** A handler runs its body and ends with the return of its level, EIRET or FERET. */
  function Exec(c: Core, act: Act): Core
    decreases act
  {
    match act
    case Plain(flags, pc) => c.(psw := c.psw.(flags := flags), pc := pc)
    case Handler(cause, saves, body) =>
      var entered := Enter(c, cause);
      var done := Restored(ExecAll(entered, body), entered, saves);
      if FeLevel(cause) then Feret(done) else Eiret(done)
  }

  function ExecAll(c: Core, acts: seq<Act>): Core
    decreases acts
  {
    if acts == [] then c else ExecAll(Exec(c, acts[0]), acts[1..])
  }

  predicate ValidCause(cause: Cause) { cause.ByTrap? ==> cause.vector <= 0x1F }

  predicate ValidAct(act: Act)
    decreases act
  {
    act.Handler? ==> ValidCause(act.cause) && ValidAll(act.body)
  }

  predicate ValidAll(acts: seq<Act>)
    decreases acts
  {
    acts == [] || (ValidAct(acts[0]) && ValidAll(acts[1..]))
  }

  /** The address a handler returns to. */
  function ReturnAddress(c: Core, cause: Cause): int {
    match cause
    case ByIllegalAccess(_) => c.pc
    case ByFetrap(_) => (c.pc + 2) % WORD
    case _ => (c.pc + 4) % WORD
  }

  /** What a handler gives back of PSW: everything, except that TRAP under AUE comes back trusted. */
  function ReturnedPsw(c: Core, cause: Cause): Psw {
    if cause.ByTrap? then WithTrust(c.psw, c.aue) else c.psw
  }

  /** MPM is set by LDSR only, so no handler of this kind changes AUE. */
  lemma {:induction false} AueIsKept(c: Core, acts: seq<Act>)
    ensures ExecAll(c, acts).aue == c.aue
    decreases acts
  {
    if acts != [] {
      if acts[0].Handler? { AueIsKept(Enter(c, acts[0].cause), acts[0].body); }
      AueIsKept(Exec(c, acts[0]), acts[1..]);
    }
  }

  // ---- what a body leaves of the return pairs ----------------------------------------------

  /**
    The act writes EIPC and EIPSW and does not put them back: an EI-level entry, at any depth that nobody
    saves over.
   */
  predicate LeavesEi(act: Act)
    decreases act
  {
    act.Handler? && (!FeLevel(act.cause) || (!act.saves.ei && AnyLeavesEi(act.body)))
  }

  predicate AnyLeavesEi(acts: seq<Act>)
    decreases acts
  {
    acts != [] && (LeavesEi(acts[0]) || AnyLeavesEi(acts[1..]))
  }

  /** The same for FEPC and FEPSW. */
  predicate LeavesFe(act: Act)
    decreases act
  {
    act.Handler? && (FeLevel(act.cause) || (!act.saves.fe && AnyLeavesFe(act.body)))
  }

  predicate AnyLeavesFe(acts: seq<Act>)
    decreases acts
  {
    acts != [] && (LeavesFe(acts[0]) || AnyLeavesFe(acts[1..]))
  }

  /** What happened to the pairs between `c` and `d`: kept, or overwritten by an exception raised under EP. */
  predicate PairsFollow(c: Core, d: Core, leavesEi: bool, leavesFe: bool) {
    && d.psw.ep
    && (if leavesEi then d.eipsw.ep else d.eipc == c.eipc && d.eipsw == c.eipsw)
    && (if leavesFe then d.fepsw.ep else d.fepc == c.fepc && d.fepsw == c.fepsw)
  }

  /**
    Inside a handler EP stays set, whatever nests and however it returns, and the pairs fare as the
    program's text says.
   */
  lemma {:induction false} BodyFrame(c: Core, acts: seq<Act>)
    requires ValidAll(acts) && c.psw.ep
    ensures PairsFollow(c, ExecAll(c, acts), AnyLeavesEi(acts), AnyLeavesFe(acts))
    decreases acts, 1
  {
    if acts != [] {
      ActFrame(c, acts[0]);
      var next := Exec(c, acts[0]);
      BodyFrame(next, acts[1..]);
      hide Exec, LeavesEi, LeavesFe;
    }
  }

  lemma {:induction false} ActFrame(c: Core, act: Act)
    requires ValidAct(act) && c.psw.ep
    ensures PairsFollow(c, Exec(c, act), LeavesEi(act), LeavesFe(act))
    decreases act, 0
  {
    if act.Handler? {
      var entered := Enter(c, act.cause);
      EntryPairs(c, act.cause);
      BodyFrame(entered, act.body);
      hide Enter, ExecAll, AnyLeavesEi, AnyLeavesFe;
    }
  }

  /** What an entry writes: its own pair with the PSW to come back to, and nothing of the other level. */
  lemma EntryPairs(c: Core, cause: Cause)
    requires ValidCause(cause)
    ensures var e := Enter(c, cause);
            && e.psw.ep
            && (if FeLevel(cause)
                then e.fepc == ReturnAddress(c, cause) && e.fepsw == ReturnedPsw(c, cause)
                     && e.eipc == c.eipc && e.eipsw == c.eipsw
                else e.eipc == ReturnAddress(c, cause) && e.eipsw == ReturnedPsw(c, cause)
                     && e.fepc == c.fepc && e.fepsw == c.fepsw)
    ensures ReturnedPsw(c, cause).ep == c.psw.ep
  {
  }

  // ---- which handlers must save ------------------------------------------------------------

  /** The handler saves its own pair, or its body leaves that pair alone. */
  predicate PairSafe(cause: Cause, saves: Saves, body: seq<Act>) {
    if FeLevel(cause) then saves.fe || !AnyLeavesFe(body) else saves.ei || !AnyLeavesEi(body)
  }

  /** Back at the interrupted program: behind the instruction that raised the exception, with its PSW. */
  predicate Returns(c: Core, cause: Cause, saves: Saves, body: seq<Act>) {
    var after := Exec(c, Handler(cause, saves, body));
    after.pc == ReturnAddress(c, cause) && after.psw == ReturnedPsw(c, cause)
  }

  /** The pair the return takes: the one of entry if it is safe, and otherwise one saved under EP. */
  lemma ReturnPair(c: Core, cause: Cause, saves: Saves, body: seq<Act>)
    requires ValidCause(cause) && ValidAll(body)
    ensures PairSafe(cause, saves, body) ==> Returns(c, cause, saves, body)
    ensures !PairSafe(cause, saves, body) ==> Exec(c, Handler(cause, saves, body)).psw.ep
  {
    EntryPairs(c, cause);
    BodyFrame(Enter(c, cause), body);
    hide Enter, ExecAll, AnyLeavesEi, AnyLeavesFe, ReturnAddress, ReturnedPsw;
  }

  /**
    A handler whose pair is safe returns right from every core. With EP clear, as outside all handlers,
    safety is also necessary: a handler that does not save and whose body raises an exception of its level
    comes back somewhere else or with another PSW.
   */
  lemma HandlerReturns(c: Core, cause: Cause, saves: Saves, body: seq<Act>)
    requires ValidCause(cause) && ValidAll(body)
    ensures PairSafe(cause, saves, body) ==> Returns(c, cause, saves, body)
    ensures !c.psw.ep ==> (Returns(c, cause, saves, body) <==> PairSafe(cause, saves, body))
  {
    ReturnPair(c, cause, saves, body);
    EntryPairs(c, cause);
    hide Enter, Exec, PairSafe, ReturnedPsw;
  }

  /** So a handler is right on every core if and only if it saves its pair or its body leaves it alone. */
  lemma MustSaveIff(cause: Cause, saves: Saves, body: seq<Act>)
    requires ValidCause(cause) && ValidAll(body)
    ensures (forall c: Core :: Returns(c, cause, saves, body)) <==> PairSafe(cause, saves, body)
  {
    hide Returns, PairSafe;
    forall c: Core ensures PairSafe(cause, saves, body) ==> Returns(c, cause, saves, body) {
      HandlerReturns(c, cause, saves, body);
    }
    var outside := Core(0, ZERO_PSW, 0, ZERO_PSW, 0, ZERO_PSW, 0, 0, 0, false);
    HandlerReturns(outside, cause, saves, body);
  }

  /**
    The pair of the other level survives a handler that saves it or whose body leaves it alone; and only
    then, if it was saved outside all handlers.
   */
  lemma OtherPairSurvives(c: Core, act: Act)
    requires ValidAct(act) && act.Handler?
    ensures !LeavesEi(act) ==> Exec(c, act).eipc == c.eipc && Exec(c, act).eipsw == c.eipsw
    ensures !LeavesFe(act) ==> Exec(c, act).fepc == c.fepc && Exec(c, act).fepsw == c.fepsw
    ensures FeLevel(act.cause) && !c.eipsw.ep && LeavesEi(act) ==> Exec(c, act).eipsw != c.eipsw
    ensures !FeLevel(act.cause) && !c.fepsw.ep && LeavesFe(act) ==> Exec(c, act).fepsw != c.fepsw
  {
    EntryPairs(c, act.cause);
    BodyFrame(Enter(c, act.cause), act.body);
    hide Enter, ExecAll, AnyLeavesEi, AnyLeavesFe, ReturnAddress, ReturnedPsw;
  }

  /**
    RETI at the end of a handler of any level, after any body, leaves through EIPC: EP is still set and is
    tested before NP.
   */
  lemma RetiLeavesThroughEipc(c: Core, cause: Cause, body: seq<Act>)
    requires ValidCause(cause) && ValidAll(body)
    ensures var done := ExecAll(Enter(c, cause), body); Reti(done) == Eiret(done)
  {
    EntryPairs(c, cause);
    BodyFrame(Enter(c, cause), body);
    hide Enter, ExecAll;
  }

  // ---- protection --------------------------------------------------------------------------

  /** Every handler at the outer level returns right. */
  predicate OuterSafe(acts: seq<Act>) {
    forall a <- acts :: a.Handler? ==> PairSafe(a.cause, a.saves, a.body)
  }

  /** No TRAP stands at the outer level of the program. */
  predicate NoOuterTrap(acts: seq<Act>) { forall a <- acts :: a.Handler? ==> !a.cause.ByTrap? }

  /**
    Whatever handlers nest, as long as the outer ones return right, the protection bits after a program are
    those before it if and only if AUE is off, the core was trusted, or no TRAP stands at the outer level: a
    TRAP inside a handler already runs trusted under AUE and loses nothing. The other control bits always
    come back.
   */
  lemma {:induction false} ProtectionSurvivesIff(c: Core, acts: seq<Act>)
    requires ValidAll(acts) && OuterSafe(acts)
    ensures SameControl(ExecAll(c, acts).psw, c.psw) <==> !c.aue || c.psw.protection == TRUSTED || NoOuterTrap(acts)
    ensures SameControl(WithTrust(ExecAll(c, acts).psw, true), WithTrust(c.psw, true))
    decreases |acts|
  {
    if acts != [] {
      var a := acts[0];
      OuterSplit(acts);
      ActPsw(c, a);
      var next := Exec(c, a);
      hide Exec, OuterSafe, NoOuterTrap, PairSafe;
      ProtectionSurvivesIff(next, acts[1..]);
      if c.psw.protection != TRUSTED && next.psw.protection == TRUSTED { StaysTrusted(next, acts[1..]); }
    }
  }

  lemma OuterSplit(acts: seq<Act>)
    requires acts != []
    ensures OuterSafe(acts) <==> OuterSafe([acts[0]]) && OuterSafe(acts[1..])
    ensures NoOuterTrap(acts) <==> NoOuterTrap([acts[0]]) && NoOuterTrap(acts[1..])
  {
    hide PairSafe;
    assert acts == [acts[0]] + acts[1..];
  }

  /** What one outer act does to PSW and AUE. */
  lemma ActPsw(c: Core, a: Act)
    requires ValidAct(a) && OuterSafe([a])
    ensures Exec(c, a).aue == c.aue
    ensures if a.Handler? then Exec(c, a).psw == ReturnedPsw(c, a.cause) else SameControl(Exec(c, a).psw, c.psw)
    ensures NoOuterTrap([a]) <==> (a.Handler? ==> !a.cause.ByTrap?)
  {
    assert a in [a];
    if a.Handler? {
      HandlerReturns(c, a.cause, a.saves, a.body);
      AueIsKept(Enter(c, a.cause), a.body);
      hide ExecAll, PairSafe, AnyLeavesEi, AnyLeavesFe;
    }
  }

  lemma {:induction false} StaysTrusted(c: Core, acts: seq<Act>)
    requires ValidAll(acts) && OuterSafe(acts) && c.psw.protection == TRUSTED
    ensures ExecAll(c, acts).psw.protection == TRUSTED
    decreases |acts|
  {
    if acts != [] {
      OuterSplit(acts);
      ActPsw(c, acts[0]);
      hide Exec, OuterSafe, NoOuterTrap;
      StaysTrusted(Exec(c, acts[0]), acts[1..]);
    }
  }

  // ---- exception codes -------------------------------------------------------------------

  /** Causes the decoder and the protection check can raise; FETRAP is vector 1 to 15. */
  predicate Raisable(cause: Cause) {
    match cause
    case ByTrap(v) => v <= 0x1F
    case ByFetrap(v) => 1 <= v <= 0x0F
    case BySyscall(v, _, _) => v <= 0xFF
    case ByIllegalAccess(feic) => 0x430 <= feic <= 0x432
  }

  /** The half of ECR an entry writes; the other half, for SYSCALL and the traps, is kept. */
  function Code(c: Core, cause: Cause): nat {
    if cause.BySyscall? then Enter(c, cause).ecr % 0x1_0000 else Enter(c, cause).ecr / 0x1_0000
  }

  lemma CodeOf(c: Core, cause: Cause)
    requires Raisable(cause)
    ensures Code(c, cause) == match cause
                              case ByTrap(v) => 0x40 + v
                              case ByFetrap(v) => 0x30 + v
                              case BySyscall(v, _, _) => 0x8000 + v
                              case ByIllegalAccess(feic) => feic
    ensures cause.BySyscall? ==> Enter(c, cause).ecr / 0x1_0000 == c.ecr / 0x1_0000
    ensures cause.ByTrap? || cause.ByFetrap? ==> Enter(c, cause).ecr % 0x1_0000 == c.ecr % 0x1_0000
    ensures cause.ByIllegalAccess? ==> Enter(c, cause).ecr % 0x1_0000 == c.ecr % 0x100
    ensures Enter(c, cause).eiic == if cause.BySyscall? then Code(c, cause) else c.eiic
    ensures Enter(c, cause).feic == if FeLevel(cause) then Code(c, cause) else c.feic
  {
    match cause {
      case ByTrap(v) => EcrHalves(c.ecr % 0x1_0000, 0x40 + v);
      case ByFetrap(v) => EcrHalves(c.ecr % 0x1_0000, 0x30 + v);
      case BySyscall(v, _, _) => EcrHalves(0x8000 + v, c.ecr / 0x1_0000);
      case ByIllegalAccess(feic) => EcrHalves(c.ecr % 0x100, feic);
    }
  }

  lemma EcrHalves(low: nat, high: nat)
    requires low < 0x1_0000
    ensures (low + 0x1_0000 * high) / 0x1_0000 == high && (low + 0x1_0000 * high) % 0x1_0000 == low
  {
  }

  /** The code left in ECR tells which exception was raised and with which vector, for every pair of causes. */
  lemma CodeIdentifiesCause(c: Core, a: Cause, b: Cause)
    requires Raisable(a) && Raisable(b) && Code(c, a) == Code(c, b)
    ensures a == b || (a.BySyscall? && b.BySyscall? && a.vector8 == b.vector8)
  {
    CodeOf(c, a);
    CodeOf(c, b);
    hide Code;
  }

  // ---- odd ends --------------------------------------------------------------------------

  /**
    RETI at the end of an FE-level handler leaves through EIPC, because entry set EP; it is right exactly when
    both pairs agree.
   */
  lemma RetiAfterFetrap(c: Core, vector: nat)
    ensures Reti(Fetrap(c, vector)) == Feret(Fetrap(c, vector)) <==> c.eipc == (c.pc + 2) % WORD && c.eipsw == c.psw
  {
  }

  /** A SYSCALL whose table read fails has already saved its return pair and, without AUE, leaves DMP off. */
  lemma FailedSyscall(c: Core, vector8: nat, scbp: nat)
    ensures var r := Syscall(c, vector8, scbp, None);
            && !r.ok && r.c.pc == c.pc && r.c.eipsw == c.psw
            && (r.c.psw.protection == c.psw.protection <==>
                if c.aue then c.psw.protection == TRUSTED else !c.psw.protection.dmp)
  {
  }
}
