/** Where the core goes when it enters a handler of any kind. */
module EntryPoints {
  import opened Psw
  import opened Results
  import E = Exceptions
  import opened Intc
  import opened IntcInvariant
  import opened IntcNesting
  import opened IntcNmi

  /** What the handler at an address was entered for. */
  datatype Source = FromNmi | FromWatchdog | FromFe | FromLowTrap | FromHighTrap | FromLine(n: Line)

  /** Read off the address alone. */
  function SourceAt(pc: int): Option<Source> {
    if pc == 0x10 then Some(FromNmi)
    else if pc == 0x20 then Some(FromWatchdog)
    else if pc == 0x30 then Some(FromFe)
    else if pc == 0x40 then Some(FromLowTrap)
    else if pc == 0x50 then Some(FromHighTrap)
    else if pc % 16 == 0 && 0 <= pc / 16 - 8 < LINES then Some(FromLine(pc / 16 - 8))
    else None
  }

  /** A clock that enters a handler leaves an address that names the NMI or the line it entered. */
  lemma ClockEntryNamesItsSource(s: State)
    requires Counted(s.w) && !s.wdt
    ensures EntersNmi(s) ==> SourceAt(Clock(s).c.pc) == Some(FromNmi)
    ensures EntersMaskable(s) ==> SourceAt(Clock(s).c.pc) == Some(FromLine(Clock(s).w.current))
    ensures !EntersNmi(s) && !EntersMaskable(s) ==> Clock(s) == s
  {
    if EntersNmi(s) { NmiEntryIsExact(s); }
    if EntersMaskable(s) {
      MostUrgentIsMinimum(s.w);
      EntryAddress(s, MostUrgent(s.w));
    }
    hide MostUrgent, Counted;
  }

  lemma EntryAddress(s: State, n: Line)
    requires !s.c.psw.np && !s.c.psw.id
    ensures Raise(s, n).w.current == n && SourceAt(Raise(s, n).c.pc) == Some(FromLine(n))
  {
    var pc := 0x80 + 16 * n;
    assert Raise(s, n).c.pc == pc && pc % 16 == 0 && pc / 16 - 8 == n;
  }

  /** So do FETRAP and illegal access, which share one address, and the two halves of the TRAP vectors. */
  lemma ExceptionEntryNamesItsSource(c: E.Core, cause: E.Cause)
    requires E.Raisable(cause) && !cause.BySyscall?
    ensures SourceAt(E.Enter(c, cause).pc) ==
            match cause
            case ByTrap(v) => Some(if v < 16 then FromLowTrap else FromHighTrap)
            case _ => Some(FromFe)
  {
  }

  /**
    SYSCALL goes to the table's base plus the word at its slot, modulo 2^32. Vectors up to the size in SCCFG
    have slots of their own, one word apart; all others use the slot of vector 0.
   */
  lemma SyscallGoesThroughItsSlot(c: E.Core, words: map<int, nat>, scbp: nat, sccfg: nat, v: nat)
    requires scbp < 0x1_0000_0000 && v <= 0xFF
    ensures var slot := if v <= sccfg % 0x100 then (scbp + 4 * v) % 0x1_0000_0000 else scbp;
            var r := E.Syscall(c, v, scbp, E.TableEntry(words, scbp, sccfg, v));
            && (r.ok <==> slot in words)
            && (r.ok ==> r.c.pc == (scbp + words[slot]) % 0x1_0000_0000)
  {
  }

  lemma SlotsAreDistinct(scbp: nat, sccfg: nat, v: nat, w: nat)
    requires scbp < 0x1_0000_0000 && v < w <= 0xFF
    ensures E.TableSlot(scbp, sccfg, v) == E.TableSlot(scbp, sccfg, w) <==>
            w > sccfg % 0x100 && (v == 0 || v > sccfg % 0x100)
  {
    SlotsApart(scbp, 4 * v, 4 * w);
    SlotsApart(scbp, 0, 4 * v);
    assert (scbp + 0) % 0x1_0000_0000 == scbp;
  }

  lemma SlotsApart(base: nat, a: nat, b: nat)
    requires a <= b < 0x1_0000_0000
    ensures (base + a) % 0x1_0000_0000 == (base + b) % 0x1_0000_0000 <==> a == b
  {
  }
}
