/**
  Memory protection regions and the permission checks of src/cpu/config/cpu_config.c. Words are
  integers below 2^32; the bitwise operators are defined bit by bit.
 */
module Mpu {
  import opened Psw

  const SPACE := 0x1_0000_0000

  type Word = w: int | 0 <= w < SPACE

  datatype Access = NoAccess | ReadAccess | WriteAccess | ExecAccess

  /** TargetCoreMpuConfigType */
  datatype Common = Common(enable: bool, mask: bool, au: Word, al: Word)

  datatype ExecRegion = ExecRegion(common: Common, read: bool, exec: bool)
  datatype DataRegion = DataRegion(common: Common, read: bool, write: bool)

  // ---- bitwise operators -----------------------------------------------------------------

  /** a & ~b */
  function AndNot(a: nat, b: nat): nat {
    if a == 0 then 0 else (if a % 2 == 1 && b % 2 == 0 then 1 else 0) + 2 * AndNot(a / 2, b / 2)
  }

  /** a | b */
  function Or(a: nat, b: nat): nat {
    if a == 0 then b else (if a % 2 == 1 || b % 2 == 1 then 1 else 0) + 2 * Or(a / 2, b / 2)
  }

  /** The ones of b are contiguous from bit 0, as the register layout asks of a mask. */
  predicate LowMask(b: nat) { b == 0 || (b % 2 == 1 && LowMask(b / 2)) }

  /** The address block a mask region is meant to cover: the addresses that agree with `al` outside the mask. */
  predicate InBlock(x: nat, al: nat, au: nat) { AndNot(x, au) == AndNot(al, au) }

  /** The interval that is_overlap uses for it. */
  predicate InInterval(x: nat, al: nat, au: nat) { AndNot(al, au) <= x <= Or(al, au) }

  lemma {:induction false} OrIsAndNotPlus(a: nat, b: nat)
    ensures Or(a, b) == AndNot(a, b) + b
    decreases a
  {
    if a != 0 { OrIsAndNotPlus(a / 2, b / 2); }
  }

  lemma {:induction false} AndNotBounds(x: nat, b: nat)
    ensures AndNot(x, b) <= x <= AndNot(x, b) + b
    decreases x
  {
    if x != 0 { AndNotBounds(x / 2, b / 2); }
  }

  /** Every address of the block lies in the interval, whatever the mask. */
  lemma BlockInsideInterval(x: nat, al: nat, au: nat)
    requires InBlock(x, al, au)
    ensures InInterval(x, al, au)
  {
    OrIsAndNotPlus(al, au);
    AndNotBounds(x, au);
  }

  lemma {:induction false} IntervalInsideBlock(x: nat, al: nat, au: nat)
    requires LowMask(au) && InInterval(x, al, au)
    ensures InBlock(x, al, au)
    decreases x + al + au
  {
    OrIsAndNotPlus(al, au);
    if au == 0 {
      AndNotBounds(x, 0);
      AndNotBounds(al, 0);
    } else {
      OrIsAndNotPlus(al / 2, au / 2);
      AndNotHalf(x, au);
      AndNotHalf(al, au);
      IntervalInsideBlock(x / 2, al / 2, au / 2);
    }
  }

  lemma AndNotHalf(a: nat, b: nat)
    requires b % 2 == 1
    ensures AndNot(a, b) == 2 * AndNot(a / 2, b / 2)
  {
  }

  /** For a mask with a gap, an address that the interval covers and the block does not. */
  lemma {:induction false} StrayAddress(al: nat, au: nat) returns (x: nat)
    requires !LowMask(au)
    ensures InInterval(x, al, au) && !InBlock(x, al, au)
    decreases au
  {
    OrIsAndNotPlus(al, au);
    if au % 2 == 1 {
      var half := StrayAddress(al / 2, au / 2);
      OrIsAndNotPlus(al / 2, au / 2);
      x := 2 * half;
      AndNotHalf(x, au);
      AndNotHalf(al, au);
    } else {
      Parity(al, au);
      x := if al % 2 == 0 then AndNot(al, au) + 1 else AndNot(al, au) + au - 1;
      Parity(x, au);
    }
  }

  lemma Parity(a: nat, b: nat)
    requires b % 2 == 0
    ensures AndNot(a, b) % 2 == a % 2
  {
    var half := AndNot(a / 2, b / 2);
    if a != 0 { assert AndNot(a, b) == a % 2 + 2 * half; } else { assert AndNot(a, b) == 0; }
    LowBit(a, half);
    hide AndNot;
  }

  lemma LowBit(a: nat, half: nat)
    ensures (a % 2 + 2 * half) % 2 == a % 2
  {
  }

  /**
    The interval is_overlap uses is exactly the block of the mask region if and only if the mask is contiguous
    from bit 0.
   */
  lemma IntervalIsBlockIffLowMask(al: nat, au: nat)
    ensures (forall x: nat :: InInterval(x, al, au) <==> InBlock(x, al, au)) <==> LowMask(au)
  {
    if LowMask(au) {
      forall x: nat ensures InInterval(x, al, au) <==> InBlock(x, al, au) {
        if InInterval(x, al, au) { IntervalInsideBlock(x, al, au); }
        if InBlock(x, al, au) { BlockInsideInterval(x, al, au); }
      }
    } else {
      var x := StrayAddress(al, au);
    }
  }

  // ---- regions ---------------------------------------------------------------------------

  function RegionStart(c: Common): nat { if c.mask then AndNot(c.al, c.au) else c.al }

  function RegionEnd(c: Common): nat { if c.mask then Or(c.al, c.au) else c.au }

  /** is_overlap */
  predicate Overlaps(c: Common, start: Word, end: Word) {
    !(RegionStart(c) > end || RegionEnd(c) < start)
  }

  /** The addresses a region is meant to cover. */
  predicate Covers(c: Common, x: nat) {
    if c.mask then InBlock(x, c.al, c.au) else c.al <= x <= c.au
  }

  /**
    An access that does not wrap overlaps a region exactly when some byte of it is covered, as long as
    the region is not empty and its mask is contiguous.
   */
  lemma OverlapMeansSharedByte(c: Common, start: Word, end: Word)
    requires start <= end && (if c.mask then LowMask(c.au) else c.al <= c.au)
    ensures Overlaps(c, start, end) <==> exists x: nat :: start <= x <= end && Covers(c, x)
  {
    OrIsAndNotPlus(c.al, c.au);
    var first: nat := if start < RegionStart(c) then RegionStart(c) else start;
    forall x: nat ensures Covers(c, x) <==> RegionStart(c) <= x <= RegionEnd(c) {
      if c.mask { IntervalIsBlockIffLowMask(c.al, c.au); }
      if c.mask { assert InInterval(x, c.al, c.au) <==> InBlock(x, c.al, c.au); }
    }
    assert Overlaps(c, start, end) ==> start <= first <= end && Covers(c, first);
  }

  /** dip_object_filter */
  predicate ExecRegionAllows(r: ExecRegion, access: Access, start: Word, end: Word) {
    r.common.enable && Overlaps(r.common, start, end)
    && match access { case ExecAccess => r.exec case ReadAccess => r.read case _ => false }
  }

  /** dmp_object_filter */
  predicate DataRegionAllows(r: DataRegion, access: Access, start: Word, end: Word) {
    r.common.enable && Overlaps(r.common, start, end)
    && match access { case ReadAccess => r.read case WriteAccess => r.write case _ => false }
  }

  /** addr + (size - 1) in 32 bits */
  function LastByte(addr: Word, size: Word): Word { (addr + size - 1) % SPACE }

  predicate ImpAllows(table: seq<ExecRegion>, access: Access, addr: Word, size: Word) {
    exists i :: 0 <= i < |table| && ExecRegionAllows(table[i], access, addr, LastByte(addr, size))
  }

  predicate DmpAllows(table: seq<DataRegion>, access: Access, addr: Word, size: Word) {
    exists i :: 0 <= i < |table| && DataRegionAllows(table[i], access, addr, LastByte(addr, size))
  }

  // ---- permission checks -----------------------------------------------------------------

  datatype Zone = GlobalMemory | ReadonlyMemory | DeviceZone

  datatype ErrorCode = NoError | MIP | MDP | PPI

  datatype Fault = Fault(code: ErrorCode, address: Word, access: Access)

  datatype Verdict = Verdict(allowed: bool, fault: Fault)

  /** cpu_has_permission, with the fault record it leaves when the access is refused. */
  function HasPermission(p: Protection, execs: seq<ExecRegion>, datas: seq<DataRegion>, zone: Zone, access: Access,
                         addr: Word, size: Word, pc: Word, before: Fault): Verdict {
    match zone
    case DeviceZone => if !p.pp then Verdict(true, before) else Verdict(false, Fault(PPI, addr, access))
    case _ =>
      var imp := access == WriteAccess || !p.imp || ImpAllows(execs, access, addr, size);
      var dmp := access == ExecAccess || !p.dmp || DmpAllows(datas, access, addr, size);
      if (if access == ReadAccess then dmp || imp else dmp && imp) then Verdict(true, before)
      else if !dmp then Verdict(false, Fault(MDP, addr, access))
      else Verdict(false, Fault(MIP, pc, access))
  }

  /** cpu_has_permission_for_clock_supply: its dmp flag is never raised, so a refusal always ends as MDP. */
  function HasPermissionForClock(p: Protection, execs: seq<ExecRegion>, access: Access, addr: Word, size: Word,
        before: Fault): Verdict {
    if !p.imp then Verdict(true, before)
    else if ImpAllows(execs, access, addr, size) then Verdict(true, before)
    else Verdict(false, Fault(MDP, addr, access))
  }

  /**
    On instruction fetch the fast check allows exactly what the general one allows. The fault records
    agree if and only if IMP is off or some region allows the fetch; otherwise the general check reports
    MIP at PC and the fast one MDP at the fetched address.
   */
  lemma FastCheckAgrees(p: Protection, execs: seq<ExecRegion>, datas: seq<DataRegion>, addr: Word, size: Word, pc: Word,
        before: Fault)
    ensures var general := HasPermission(p, execs, datas, ReadonlyMemory, ExecAccess, addr, size, pc, before);
            var fast := HasPermissionForClock(p, execs, ExecAccess, addr, size, before);
            var granted := !p.imp || ImpAllows(execs, ExecAccess, addr, size);
            && general.allowed == granted && fast.allowed == granted
            && (fast.fault == general.fault <==> granted)
            && (granted ==> general.fault == before)
            && (!granted ==> general.fault == Fault(MIP, pc, ExecAccess) && fast.fault == Fault(MDP, addr, ExecAccess))
  {
  }
}
