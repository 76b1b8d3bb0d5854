/**
  One core of the interrupt controller (src/device/intc/intc.c) with the exception entry and
  return state it updates. Every step of the source is a function from state to state;
  IntcController.dfy holds the in-place form and proves it against these functions.
 */
module Intc {
  import opened Psw

  const LINES := 117       // INTC_NUM
  const PADDING := 54      // INTC_PINTNO_NOUSE
  const NO_LEVEL := 8      // INTC_NUM_INTLVL: nothing waits on this line
  const NO_LIMIT := 0xFFFF_FFFF

  type Byte = b: int | 0 <= b < 256
  type Ispr = s: seq<bool> | |s| == NO_LEVEL witness seq(NO_LEVEL, _ => false)
  type Line = n: int | 0 <= n < LINES
  type Current = n: int | -1 <= n < LINES
  type Counts = s: seq<nat> | |s| == LINES witness seq(LINES, _ => 0)
  type IcFile = s: seq<Byte> | |s| == LINES witness seq(LINES, _ => 0)

  /** IntcControlWorkType together with the xxICn and ISPR bytes. `saved` is the live part of saved_intno_stack. */
  datatype Work = Work(
    lvl: Counts,        // is_waiting_lvl
    num: Counts,        // waiting_lvl_num
    total: int,         // waiting_int_num
    current: Current,   // current_intno
    saved: seq<Line>,   // saved_intno_stack[..saved_intno_off]
    icn: IcFile,        // xxICn
    ispr: Ispr)         // bit l is level l

  /** The core registers that interrupt entry and return read or write. */
  datatype Core = Core(pc: int, psw: Psw, eipc: int, eipsw: Psw, fepc: int, fepsw: Psw, ecr: int, halted: bool)

  datatype State = State(w: Work, c: Core, nmi: int, wdt: bool)

  // ---- xxICn fields -------------------------------------------------------------------

  function Priority(b: Byte): nat { b % 8 }

  predicate Masked(b: Byte) { b / 64 % 2 == 1 }

  function SetRequest(b: Byte): Byte { if b < 128 then b + 128 else b }

  function ClearRequest(b: Byte): Byte { if b < 128 then b else b - 128 }

  function PutMask(b: Byte, masked: bool): Byte {
    if Masked(b) == masked then b else if masked then b + 64 else b - 64
  }

  /** `ispr | 1 << lvl` and `ispr & ~(1 << lvl)` in eight bits. */
  function PutLevel(ispr: Ispr, lvl: nat, on: bool): Ispr {
    if lvl < NO_LEVEL then ispr[lvl := on] else ispr
  }

  // ---- waiting table ------------------------------------------------------------------

  predicate Waiting(w: Work, n: Line) { w.lvl[n] != NO_LEVEL }

  /** The latched level in the high half and the line number in the low half; smaller means more urgent. */
  function Key(w: Work, n: Line): nat { w.lvl[n] * 65536 + n }

  function SetWait(w: Work, n: Line, level: nat): Work {
    if Waiting(w, n) then w
    else w.(lvl := w.lvl[n := level], num := w.num[n := 1], total := w.total + 1)
  }

  function ClearWait(w: Work, n: Line): Work {
    if w.num[n] == 0 then w
    else
      var left := w.num[n] - 1;
      w.(num := w.num[n := left], lvl := if left == 0 then w.lvl[n := NO_LEVEL] else w.lvl, total := w.total - 1)
  }

  /** What get_maxpri_itno does not skip. */
  predicate Candidate(w: Work, n: Line) {
    Waiting(w, n) && !(w.current > 0 && w.current == n) && !Masked(w.icn[n])
  }

  function Limit(w: Work): nat {
    if w.current >= 0 then Key(w, w.current) else NO_LIMIT
  }

  /** The search loop of get_maxpri_itno from line i on. */
  function Scan(w: Work, i: nat, limit: nat, best: Current): Current
    requires i <= LINES
    decreases LINES - i
  {
    if i == LINES then best
    else if Candidate(w, i) && Key(w, i) < limit then Scan(w, i + 1, Key(w, i), i)
    else Scan(w, i + 1, limit, best)
  }

  function MostUrgent(w: Work): Current {
    if w.total == 0 then -1 else Scan(w, 0, Limit(w), -1)
  }

  // ---- requests, acceptance and end of interrupt ----------------------------------------

  function Request(s: State, n: Line): State {
    var icn: IcFile := s.w.icn[n := SetRequest(s.w.icn[n])];
    s.(w := SetWait(s.w.(icn := icn), n, Priority(icn[n])), c := s.c.(halted := false))
  }

  function HandlerAddress(n: Line): nat { 0x80 + 16 * n }

  /** intc_raise */
  function Raise(s: State, n: Line): State {
    if s.c.psw.np || s.c.psw.id then s
    else
      State(
        s.w.(saved := if s.w.current == -1 then s.w.saved else s.w.saved + [s.w.current],
             current := n,
             ispr := PutLevel(s.w.ispr, s.w.lvl[n], true)),
        s.c.(eipc := s.c.pc, eipsw := s.c.psw,
             ecr := s.c.ecr / 0x1_0000 * 0x1_0000 + HandlerAddress(n),
             psw := s.c.psw.(id := true, ep := false),
             pc := HandlerAddress(n),
             halted := false),
        s.nmi, s.wdt)
  }

  function RaiseNmi(s: State): State {
    if s.c.psw.np then s
    else
      s.(c := s.c.(halted := false, fepc := s.c.pc, fepsw := s.c.psw,
                   ecr := if s.c.ecr / 0x10_0000 % 2 == 1 then s.c.ecr else s.c.ecr + 0x10_0000,
                   psw := s.c.psw.(np := true, ep := false, id := true), pc := 0x10))
  }

  function RaiseWatchdog(s: State): State {
    s.(c := s.c.(halted := false, fepc := 0, fepsw := s.c.psw,
                 ecr := if s.c.ecr / 0x20_0000 % 2 == 1 then s.c.ecr else s.c.ecr + 0x20_0000,
                 psw := s.c.psw.(np := true, ep := false, id := true), pc := 0x20))
  }

  /** intc_raise_pending_intr: what one device clock does to this core. */
  function Clock(s: State): State {
    if s.wdt then (if s.c.psw.np then RaiseWatchdog(s) else s)
    else if s.nmi > 0 then RaiseNmi(s)
    else
      var n := MostUrgent(s.w);
      if n < 0 || n == s.w.current then s else Raise(s, n)
  }

  /** intc_clr_currlvl_ispr: the end of the current interrupt. */
  function EndCurrent(w: Work): Work {
    if w.current == -1 then w
    else
      var n := w.current;
      var cleared := ClearWait(w.(ispr := PutLevel(w.ispr, w.lvl[n], false),
                                  icn := w.icn[n := ClearRequest(w.icn[n])]), n);
      if |w.saved| > 0 then cleared.(saved := w.saved[..|w.saved| - 1], current := w.saved[|w.saved| - 1])
      else cleared.(current := -1)
  }

  /** An 8-bit write to any xxICn ends the current interrupt before the byte is stored. */
  function PutIcn8(s: State, n: Line, b: Byte): State {
    var w := EndCurrent(s.w);
    s.(w := w.(icn := w.icn[n := b]))
  }

  /** A 16-bit write stores the byte without the end-of-interrupt hook. */
  function PutIcn16(s: State, n: Line, b: Byte): State {
    s.(w := s.w.(icn := s.w.icn[n := b]))
  }

  type Bits = d: seq<bool> | |d| == 8 || |d| == 16 witness seq(8, _ => false)

  /** The mask bits after a write of `data` (8 or 16 bits, lowest first) to IMR `k`. */
  function MaskedFile(icn: IcFile, k: nat, data: Bits): IcFile {
    seq(LINES, n requires 0 <= n < LINES =>
      if 16 * k <= n < 16 * k + |data| && n != PADDING then PutMask(icn[n], data[n - 16 * k]) else icn[n])
  }

  function PutImr(s: State, k: nat, data: Bits): State {
    s.(w := s.w.(icn := MaskedFile(s.w.icn, k, data)))
  }

  // ---- instructions ---------------------------------------------------------------------

  function Ei(s: State): State {
    s.(c := s.c.(psw := s.c.psw.(id := false), pc := (s.c.pc + 4) % 0x1_0000_0000))
  }

  function Di(s: State): State {
    s.(c := s.c.(psw := s.c.psw.(id := true), pc := (s.c.pc + 4) % 0x1_0000_0000))
  }

  /** cpu_reset as far as it touches this state. */
  function ResetCore(): Core {
    Core(0, AFTER_RESET, 0, ZERO_PSW, 0, ZERO_PSW, 0, false)
  }

  /** op_exec_reti */
  function Reti(s: State): State {
    if !s.c.psw.ep && s.c.psw.np then
      var c := s.c.(pc := s.c.fepc, psw := s.c.fepsw);
      if s.wdt then s.(c := ResetCore()) else s.(c := c, nmi := s.nmi - 1)
    else s.(c := s.c.(pc := s.c.eipc, psw := s.c.eipsw))
  }

  function Initial(): State {
    State(
      Work(seq(LINES, _ => NO_LEVEL), seq(LINES, _ => 0), 0, -1, [], seq(LINES, _ => 0x47), seq(NO_LEVEL, _ => false)),
      Core(0, AFTER_RESET, 0, ZERO_PSW, 0, ZERO_PSW, 0, false), 0, false)
  }

  // ---- runs -----------------------------------------------------------------------------

  /**
    Anything that can happen to the core. `Execute` stands for any other instruction: it may leave any core
    registers.
   */
  datatype Step =
    | RequestLine(n: Line) | RequestNmi | RequestWatchdog | Tick
    | WriteIcn8(n: Line, b: Byte) | WriteIcn16(n: Line, b: Byte) | WriteImr(k: nat, data: Bits)
    | Execute(c: Core) | EnableInterrupts | DisableInterrupts | ReturnFromInterrupt

  function Apply(s: State, step: Step): State {
    match step
    case RequestLine(n) => Request(s, n)
    case RequestNmi => s.(nmi := s.nmi + 1)
    case RequestWatchdog => s.(wdt := true)
    case Tick => Clock(s)
    case WriteIcn8(n, b) => PutIcn8(s, n, b)
    case WriteIcn16(n, b) => PutIcn16(s, n, b)
    case WriteImr(k, data) => PutImr(s, k, data)
    case Execute(c) => s.(c := c)
    case EnableInterrupts => Ei(s)
    case DisableInterrupts => Di(s)
    case ReturnFromInterrupt => Reti(s)
  }

  function Run(s: State, steps: seq<Step>): State
    decreases |steps|
  {
    if steps == [] then s else Run(Apply(s, steps[0]), steps[1..])
  }

  lemma {:induction false} RunAppend(s: State, a: seq<Step>, b: seq<Step>)
    ensures Run(s, a + b) == Run(Run(s, a), b)
    decreases |a|
  {
    if a == [] {
      assert a + b == b;
    } else {
      assert (a + b)[1..] == a[1..] + b;
      RunAppend(Apply(s, a[0]), a[1..], b);
    }
  }
}
