/**
  From LDSR to an access: the registers a program wrote decide what the core may execute, read and
  write. Regions are read here in the manual's terms, as sets of 16-byte granules, without the tables
  in between.
 */
module Protection {
  import opened Psw
  import opened Mpu
  import opened SysRegs

  /** The granule number an IPAnL, IPAnU, DPAnL or DPAnU value holds: bits 27 to 4. */
  function Granule(w: Word): nat { w % 0x1000_0000 / 16 }

  /** Granule `g` belongs to the region the register pair describes. */
  predicate CoversGranule(al: Word, au: Word, g: nat) {
    if al / 4 % 2 == 1 then AndNot(g, Granule(au)) == AndNot(Granule(al), Granule(au))
    else Granule(al) <= g <= Granule(au)
  }

  /** The pair describes a region as the manual asks: a contiguous mask, or bounds in order. */
  predicate Proper(al: Word, au: Word) {
    if al / 4 % 2 == 1 then LowMask(Granule(au)) else Granule(al) <= Granule(au)
  }

  lemma OneBitDown(x: nat, m: nat)
    ensures AndNot(x, 2 * m + 1) == 2 * AndNot(x / 2, m) && LowMask(2 * m + 1) == LowMask(m)
  {
    AndNotHalf(x, 2 * m + 1);
    assert (2 * m + 1) / 2 == m;
  }

  lemma MaskOfGranules(x: nat, m: nat)
    ensures AndNot(x, 16 * m + 15) == 16 * AndNot(x / 16, m)
    ensures LowMask(16 * m + 15) == LowMask(m)
  {
    hide AndNot, LowMask;
    OneBitDown(x, 8 * m + 7);
    OneBitDown(x / 2, 4 * m + 3);
    OneBitDown(x / 2 / 2, 2 * m + 1);
    OneBitDown(x / 2 / 2 / 2, m);
    assert x / 2 / 2 / 2 / 2 == x / 16;
  }

  /** A table entry covers exactly the bytes of the granules its registers cover. */
  lemma RegionCoversItsGranules(al: Word, au: Word, x: nat)
    ensures Covers(CommonOf(al, au), x) <==> CoversGranule(al, au, x / 16)
    ensures var c := CommonOf(al, au);
            Proper(al, au) <==> if c.mask then LowMask(c.au) else c.al <= c.au
  {
    var a, m := Granule(al), Granule(au);
    MaskOfGranules(x, m);
    MaskOfGranules(16 * a, m);
    assert 16 * a / 16 == a;
    hide AndNot, LowMask;
  }

  /** The access bits of an instruction region's upper register: 1 read, 0 execute. */
  predicate InstructionRight(access: Access, au: Word) {
    match access
    case ExecAccess => au % 2 == 1
    case ReadAccess => au / 2 % 2 == 1
    case _ => false
  }

  /** Those of a data region: 2 write, 1 read. */
  predicate DataRight(access: Access, au: Word) {
    match access
    case WriteAccess => au / 4 % 2 == 1
    case ReadAccess => au / 2 % 2 == 1
    case _ => false
  }

  /** Enabled instruction region `i` of the registers opens the byte at `x`. */
  predicate InstructionByte(regs: Registers, access: Access, i: nat, x: nat) {
    var al, au := Setting(regs, 6 + 2 * i), Setting(regs, 7 + 2 * i);
    al % 2 == 1 && InstructionRight(access, au) && CoversGranule(al, au, x / 16)
  }

  predicate DataByte(regs: Registers, access: Access, i: nat, x: nat) {
    var al, au := Setting(regs, 16 + 2 * i), Setting(regs, 17 + 2 * i);
    al % 2 == 1 && DataRight(access, au) && CoversGranule(al, au, x / 16)
  }

  /** Some byte of the access is open to it in some instruction region, or in some data region. */
  ghost predicate InstructionOpens(regs: Registers, access: Access, addr: Word, size: Word) {
    exists i: nat, x: nat :: i < EXEC_REGIONS && addr <= x < addr + size && InstructionByte(regs, access, i, x)
  }

  ghost predicate DataOpens(regs: Registers, access: Access, addr: Word, size: Word) {
    exists i: nat, x: nat :: i < DATA_REGIONS && addr <= x < addr + size && DataByte(regs, access, i, x)
  }

  /** Every enabled region is proper. */
  ghost predicate ProperRegions(regs: Registers) {
    forall i: nat :: i < EXEC_REGIONS + DATA_REGIONS ==>
      Setting(regs, 6 + 2 * i) % 2 == 1 ==> Proper(Setting(regs, 6 + 2 * i), Setting(regs, 7 + 2 * i))
  }

  /** An enabled region of the table overlaps the access exactly when its registers cover some byte of it. */
  lemma RegionOverlaps(al: Word, au: Word, start: Word, end: Word)
    requires start <= end && Proper(al, au)
    ensures Overlaps(CommonOf(al, au), start, end) <==>
            exists x: nat :: start <= x <= end && CoversGranule(al, au, x / 16)
  {
    var c := CommonOf(al, au);
    RegionCoversItsGranules(al, au, start);
    forall x: nat ensures Covers(c, x) <==> CoversGranule(al, au, x / 16) { RegionCoversItsGranules(al, au, x); }
    hide Covers, CoversGranule, Overlaps, CommonOf, LowMask, Proper;
    OverlapMeansSharedByte(c, start, end);
    assert (exists x: nat :: start <= x <= end && Covers(c, x)) <==>
           exists x: nat :: start <= x <= end && CoversGranule(al, au, x / 16);
  }

  lemma InstructionRegionGrants(regs: Registers, access: Access, i: nat, start: Word, end: Word)
    requires start <= end && i < EXEC_REGIONS && ProperRegions(regs)
    ensures ExecRegionAllows(TablesOf(regs).execs[i], access, start, end) <==>
            exists x: nat :: start <= x <= end && InstructionByte(regs, access, i, x)
  {
    var al: Word, au: Word := Setting(regs, 6 + 2 * i), Setting(regs, 7 + 2 * i);
    assert TablesOf(regs).execs[i] == ExecRegionOf(al, au);
    if al % 2 == 1 {
      assert Proper(al, au);
      hide Proper;
      RegionOverlaps(al, au, start, end);
      hide Overlaps, CoversGranule, TablesOf, ProperRegions, Setting;
      if InstructionRight(access, au) {
        assert forall x: nat :: InstructionByte(regs, access, i, x) == CoversGranule(al, au, x / 16);
      }
    }
  }

  lemma DataRegionGrants(regs: Registers, access: Access, i: nat, start: Word, end: Word)
    requires start <= end && i < DATA_REGIONS && ProperRegions(regs)
    ensures DataRegionAllows(TablesOf(regs).datas[i], access, start, end) <==>
            exists x: nat :: start <= x <= end && DataByte(regs, access, i, x)
  {
    var al: Word, au: Word := Setting(regs, 16 + 2 * i), Setting(regs, 17 + 2 * i);
    assert TablesOf(regs).datas[i] == DataRegionOf(al, au);
    if al % 2 == 1 {
      assert Setting(regs, 6 + 2 * (i + EXEC_REGIONS)) == al && Setting(regs, 7 + 2 * (i + EXEC_REGIONS)) == au;
      assert Proper(al, au);
      hide Proper;
      RegionOverlaps(al, au, start, end);
      hide Overlaps, CoversGranule, TablesOf, ProperRegions, Setting;
      if DataRight(access, au) {
        assert forall x: nat :: DataByte(regs, access, i, x) == CoversGranule(al, au, x / 16);
      }
    }
  }

  lemma TablesGrant(regs: Registers, access: Access, addr: Word, size: Word)
    requires ProperRegions(regs) && 0 < size && addr + size <= SPACE
    ensures ImpAllows(TablesOf(regs).execs, access, addr, size) <==> InstructionOpens(regs, access, addr, size)
    ensures DmpAllows(TablesOf(regs).datas, access, addr, size) <==> DataOpens(regs, access, addr, size)
  {
    var end: int := addr + size - 1;
    assert LastByte(addr, size) == end;
    InstructionsGrant(regs, access, addr, size, end);
    DataGrant(regs, access, addr, size, end);
  }

  lemma InstructionsGrant(regs: Registers, access: Access, addr: Word, size: Word, end: Word)
    requires ProperRegions(regs) && 0 < size && addr + size <= SPACE && end == LastByte(addr, size) == addr + size - 1
    ensures ImpAllows(TablesOf(regs).execs, access, addr, size) <==> InstructionOpens(regs, access, addr, size)
  {
    var table := TablesOf(regs).execs;
    forall i: nat | i < EXEC_REGIONS
      ensures ExecRegionAllows(table[i], access, addr, end) <==>
              exists x: nat :: addr <= x <= end && InstructionByte(regs, access, i, x)
    {
      InstructionRegionGrants(regs, access, i, addr, end);
    }
    hide ExecRegionAllows, InstructionByte, TablesOf, ProperRegions, LastByte;
    if ImpAllows(table, access, addr, size) {
      var i :| 0 <= i < |table| && ExecRegionAllows(table[i], access, addr, end);
      var x: nat :| addr <= x <= end && InstructionByte(regs, access, i, x);
    }
    if i: nat, x: nat :| i < EXEC_REGIONS && addr <= x < addr + size && InstructionByte(regs, access, i, x) {
      assert ExecRegionAllows(table[i], access, addr, end);
    }
  }

  lemma DataGrant(regs: Registers, access: Access, addr: Word, size: Word, end: Word)
    requires ProperRegions(regs) && 0 < size && addr + size <= SPACE && end == LastByte(addr, size) == addr + size - 1
    ensures DmpAllows(TablesOf(regs).datas, access, addr, size) <==> DataOpens(regs, access, addr, size)
  {
    var table := TablesOf(regs).datas;
    forall i: nat | i < DATA_REGIONS
      ensures DataRegionAllows(table[i], access, addr, end) <==>
              exists x: nat :: addr <= x <= end && DataByte(regs, access, i, x)
    {
      DataRegionGrants(regs, access, i, addr, end);
    }
    hide DataRegionAllows, DataByte, TablesOf, ProperRegions, LastByte;
    if DmpAllows(table, access, addr, size) {
      var i :| 0 <= i < |table| && DataRegionAllows(table[i], access, addr, end);
      var x: nat :| addr <= x <= end && DataByte(regs, access, i, x);
    }
    if i: nat, x: nat :| i < DATA_REGIONS && addr <= x < addr + size && DataByte(regs, access, i, x) {
      assert DataRegionAllows(table[i], access, addr, end);
    }
  }

  /** The protection bits the core runs under. */
  function ProtectionNow(cpu: Cpu): Protection { ProtectionOf(At(cpu.regs, PSW_REG) / 0x1_0000 % 0x10) }

  /**
    After any LDSR run from reset that writes BSEL with a zero upper half, the clock path lets an
    instruction be fetched if and only if IMP is off or some byte of the fetch lies in an enabled
    executable region of the registers as they are now.
   */
  lemma FetchFollowsRegisters(cpu: Cpu, steps: seq<Ldsr>, addr: Word, size: Word, before: Fault)
    requires UpperHalf(steps, 0) && ProperRegions(Run(Reset(cpu), steps).regs)
    requires 0 < size && addr + size <= SPACE
    ensures var now := Run(Reset(cpu), steps);
            var p := ProtectionNow(now);
            HasPermissionForClock(p, now.tables.execs, ExecAccess, addr, size, before).allowed <==>
              !p.imp || InstructionOpens(now.regs, ExecAccess, addr, size)
  {
    var now := Run(Reset(cpu), steps);
    ReachableInSync(cpu, steps);
    hide Run, Reset;
    TablesGrant(now.regs, ExecAccess, addr, size);
    hide ImpAllows, InstructionOpens, TablesOf;
  }

  /**
    After any such run the general check allows an execution if and only if IMP is off or an instruction
    region opens some byte to it, a write if and only if DMP is off or a data region does, and a read if
    either kind of region does or its bit is off.
   */
  lemma AccessFollowsRegisters(cpu: Cpu, steps: seq<Ldsr>, zone: Zone, access: Access, addr: Word, size: Word, pc: Word,
        before: Fault)
    requires UpperHalf(steps, 0) && ProperRegions(Run(Reset(cpu), steps).regs)
    requires 0 < size && addr + size <= SPACE && !access.NoAccess?
    ensures var now := Run(Reset(cpu), steps);
            var p := ProtectionNow(now);
            var instruction := !p.imp || InstructionOpens(now.regs, access, addr, size);
            var data := !p.dmp || DataOpens(now.regs, access, addr, size);
            HasPermission(p, now.tables.execs, now.tables.datas, zone, access, addr, size, pc, before).allowed <==>
              if zone.DeviceZone? then !p.pp
              else match access
                   case ExecAccess => instruction
                   case WriteAccess => data
                   case _ => instruction || data
  {
    var now := Run(Reset(cpu), steps);
    ReachableInSync(cpu, steps);
    hide Run, Reset;
    TablesGrant(now.regs, access, addr, size);
    hide ImpAllows, DmpAllows, InstructionOpens, DataOpens, TablesOf;
  }

  /**
    A refused access leaves exactly one record: PPI for a device, MDP at the address when the data regions
    refuse it, and MIP at the program counter when only the instruction regions do. An allowed one leaves the
    record alone. Neither table has a say over devices.
   */
  lemma RecordNamesTheRefusal(p: Protection, execs: seq<ExecRegion>, datas: seq<DataRegion>, zone: Zone,
        access: Access, addr: Word, size: Word, pc: Word, before: Fault)
    requires !access.NoAccess?
    ensures var v := HasPermission(p, execs, datas, zone, access, addr, size, pc, before);
            var dataRefuses := access != ExecAccess && p.dmp && !DmpAllows(datas, access, addr, size);
            && (v.allowed ==> v.fault == before)
            && (!v.allowed ==> v.fault == if zone.DeviceZone? then Fault(PPI, addr, access)
                                          else if dataRefuses then Fault(MDP, addr, access)
                                          else Fault(MIP, pc, access))
            && (zone.DeviceZone? ==> v.allowed == !p.pp)
  {
  }
}
