/**
  System-register banks, LDSR and the protection tables derived from the MPU setting bank
  (src/cpu/cpu_exec/op_exec_spec.c:8-226, src/cpu/config/cpu_config.c:367-598).
 */
module SysRegs {
  import P = Psw
  import opened Mpu

  const BANK_REGS: nat := 28
  const REGIDS: nat := 32
  const BSEL: nat := 31
  const PSW: nat := 5
  const CPU: nat := 0
  const PROCESSOR: nat := 1
  const PMU: nat := 2
  const FPU: nat := 3
  const USER: nat := 4
  const MPU_SETTING := 0x1001
  const FPU_SETTING := 0x2000
  const EXEC_REGIONS: nat := 5
  const DATA_REGIONS: nat := 6

  datatype Reg = Banked(grp: nat, bnk: nat, index: nat) | Shared(index: nat)

  type Registers = map<Reg, Word>

  datatype Tables = Tables(execs: seq<ExecRegion>, datas: seq<DataRegion>)

  datatype Cpu = Cpu(pc: Word, grp: nat, bnk: nat, regs: Registers, tables: Tables)

  /**
    The two words fpu_sync_sysreg stores: the written register and FPSR. Floating point is not modelled, so they
    are arbitrary.
   */
  datatype Sync = Sync(written: Word, fpsr: Word)

  /** One LDSR executed at address `at`, writing `value` to `regid`. */
  datatype Ldsr = Ldsr(at: Word, regid: nat, value: Word, sync: Sync)

  /** Registers start as zeroed static storage. */
  function At(regs: Registers, reg: Reg): (v: int)
    ensures 0 <= v < SPACE
  {
    if reg in regs then regs[reg] else 0
  }

  function Setting(regs: Registers, i: nat): int { At(regs, Banked(PROCESSOR, 1, i)) }

  /** cpu_get_sysreg */
  function Slot(grp: nat, bnk: nat, regid: nat): Reg {
    if regid < BANK_REGS then Banked(grp, bnk, regid) else Shared(regid - BANK_REGS)
  }

  const PSW_REG := Banked(CPU, 0, PSW)
  const BSEL_REG := Shared(3)
  const VSECR := Banked(PROCESSOR, 0, 0)
  const VSTID := Banked(PROCESSOR, 0, 1)
  const VSADR := Banked(PROCESSOR, 0, 2)
  const TID := Banked(PROCESSOR, 1, 2)

  // ---- bank selection --------------------------------------------------------------------

  datatype Bank = NoBank | Bank(grp: nat, bnk: nat)

  /** The ten selections of BSEL, by group byte and bank byte. */
  const BANKS: map<nat, Bank> := map[
    0x0000 := Bank(CPU, 0), 0x0010 := Bank(CPU, 1), 0x0011 := Bank(CPU, 2),
    0x1000 := Bank(PROCESSOR, 0), 0x1001 := Bank(PROCESSOR, 1), 0x1010 := Bank(PROCESSOR, 2),
    0x1100 := Bank(PMU, 0), 0x2000 := Bank(FPU, 0), 0xFF00 := Bank(USER, 0), 0xFFFF := Bank(USER, 1)]

  /** set_sysreg_grp_bnk: only the low 16 bits select. */
  function BankOf(bsel: nat): Bank { if bsel % 0x1_0000 in BANKS then BANKS[bsel % 0x1_0000] else NoBank }

  lemma BankOfLowHalf(bsel: nat)
    ensures BankOf(bsel) == BankOf(bsel % 0x1_0000)
    ensures BankOf(bsel) == Bank(PROCESSOR, 1) <==> bsel % 0x1_0000 == MPU_SETTING
    ensures BankOf(bsel) == Bank(CPU, 0) <==> bsel % 0x1_0000 == 0
  {
  }

  lemma BytesOfLowHalf(bsel: nat)
    ensures bsel % 0x1_0000 == 0x100 * (bsel / 0x100 % 0x100) + bsel % 0x100
  {
    assert bsel / 0x100 / 0x100 == bsel / 0x1_0000;
  }

  // ---- tables ----------------------------------------------------------------------------

  function CommonOf(al: Word, au: Word): Common {
    Common(al % 2 == 1, al / 4 % 2 == 1, au % 0x1000_0000 / 16 * 16 + 15, al % 0x1000_0000 / 16 * 16)
  }

  function ExecRegionOf(al: Word, au: Word): ExecRegion {
    ExecRegion(CommonOf(al, au), au / 2 % 2 == 1, au % 2 == 1)
  }

  function DataRegionOf(al: Word, au: Word): DataRegion {
    DataRegion(CommonOf(al, au), au / 2 % 2 == 1, au / 4 % 2 == 1)
  }

  /** private_cpu_mpu_construct_containers: IPA0L is setting register 6, DPA0L is 16. */
  function TablesOf(regs: Registers): Tables {
    Tables(seq(EXEC_REGIONS, i requires 0 <= i < EXEC_REGIONS =>
             ExecRegionOf(Setting(regs, 6 + 2 * i), Setting(regs, 7 + 2 * i))),
           seq(DATA_REGIONS, i requires 0 <= i < DATA_REGIONS =>
             DataRegionOf(Setting(regs, 16 + 2 * i), Setting(regs, 17 + 2 * i))))
  }

  // ---- LDSR ------------------------------------------------------------------------------

  predicate TrustedNpv(psw: int) { psw / 0x4_0000 % 2 == 0 }

  /** ldsr_has_permission */
  predicate Permitted(cpu: Cpu, regid: nat, value: Word) {
    var psw := At(cpu.regs, PSW_REG);
    TrustedNpv(psw) || (cpu.grp == CPU && cpu.bnk == 0 && regid == PSW && psw / 0x40 == value / 0x40)
  }

  /** The NPV field of PSW: system registers are protected. */
  predicate NpvSet(regs: Registers) { P.ProtectionOf(At(regs, PSW_REG) / 0x1_0000 % 0x10).npv }

  /** PSW, seen in CPU bank 0, with bits 31 to 6 as they are: what may be written even then. */
  predicate KeepsPswControl(cpu: Cpu, regid: nat, value: Word) {
    cpu.grp == CPU && cpu.bnk == 0 && regid == PSW && At(cpu.regs, PSW_REG) / 0x40 == value / 0x40
  }

  lemma NpvIsBitEighteen(psw: nat)
    ensures P.ProtectionOf(psw / 0x1_0000 % 0x10).npv <==> psw / 0x4_0000 % 2 == 1
  {
    P.ProtectionPositions(psw / 0x1_0000);
    assert psw / 0x1_0000 / 4 == psw / 0x4_0000;
  }

  lemma PermittedIff(cpu: Cpu, regid: nat, value: Word)
    ensures Permitted(cpu, regid, value) <==> !NpvSet(cpu.regs) || KeepsPswControl(cpu, regid, value)
  {
    NpvIsBitEighteen(At(cpu.regs, PSW_REG));
  }

  function Denied(cpu: Cpu): Cpu {
    var first := At(cpu.regs, VSECR) == 0;
    var recorded := if first then cpu.regs[VSTID := At(cpu.regs, TID)][VSADR := cpu.pc] else cpu.regs;
    cpu.(regs := recorded[VSECR := (At(cpu.regs, VSECR) + 1) % SPACE])
  }

  /** fpu_sync_sysreg: FPST, FPCC and FPCFG are copied into FPSR. */
  function FpuSynced(cpu: Cpu, regid: nat, sync: Sync): Cpu {
    if cpu.grp == FPU && 8 <= regid <= 10 then
      cpu.(regs := cpu.regs[Banked(FPU, cpu.bnk, regid) := sync.written][Banked(FPU, cpu.bnk, 6) := sync.fpsr])
    else cpu
  }

  /** The store and what follows it; the register was looked up before BSEL switched the bank. */
  function Stored(cpu: Cpu, regid: nat, value: Word, bank: Bank, sync: Sync): Cpu
    requires bank.Bank?
  {
    var regs := cpu.regs[Slot(cpu.grp, cpu.bnk, regid) := value];
    var next := cpu.(grp := bank.grp, bnk := bank.bnk, regs := regs);
    if At(regs, BSEL_REG) == MPU_SETTING then next.(tables := TablesOf(regs))
    else if At(regs, BSEL_REG) == FPU_SETTING then FpuSynced(next, regid, sync)
    else next
  }

  predicate Faults(cpu: Cpu, st: Ldsr) {
    || st.regid >= REGIDS
    || (Permitted(cpu, st.regid, st.value) && st.regid == BSEL && BankOf(st.value).NoBank?)
  }

  function BankAfter(cpu: Cpu, st: Ldsr): Bank {
    if st.regid == BSEL then BankOf(st.value) else Bank(cpu.grp, cpu.bnk)
  }

  /** op_exec_ldsr; a faulting instruction (-1) leaves everything as it is. */
  function Step(before: Cpu, st: Ldsr): Cpu {
    var cpu := before.(pc := st.at);
    if Faults(cpu, st) then cpu
    else
      var done := if Permitted(cpu, st.regid, st.value)
                  then Stored(cpu, st.regid, st.value, BankAfter(cpu, st), st.sync)
                  else Denied(cpu);
      done.(pc := (st.at + 4) % SPACE)
  }

  function Run(cpu: Cpu, steps: seq<Ldsr>): Cpu
    decreases |steps|
  {
    if steps == [] then cpu else Step(Run(cpu, steps[..|steps| - 1]), steps[|steps| - 1])
  }

  // ---- reset -----------------------------------------------------------------------------

  /** The reset loop: registers of CPU bank 0 and the shared ones. */
  function Cleared(regs: Registers, n: nat): Registers {
    if n == 0 then regs else Cleared(regs, n - 1)[Slot(CPU, 0, n - 1) := 0]
  }

  const SETTINGS_AT_RESET: seq<Word> := [2, 0, 2, 0, 2, 0, 2, 0, 2, 0, 2, 6, 2, 0, 2, 0, 2, 0, 2, 0, 6, 0]

  function WithSettings(regs: Registers, n: nat): Registers
    requires n <= |SETTINGS_AT_RESET|
  {
    if n == 0 then regs else WithSettings(regs, n - 1)[Banked(PROCESSOR, 1, 5 + n) := SETTINGS_AT_RESET[n - 1]]
  }

  function ResetRegisters(regs: Registers): Registers {
    WithSettings(Cleared(regs, REGIDS)[PSW_REG := 0x20], |SETTINGS_AT_RESET|)
  }

  /** cpu_reset, from any earlier state. */
  function Reset(cpu: Cpu): Cpu {
    var regs := ResetRegisters(cpu.regs);
    Cpu(0, CPU, 0, regs, TablesOf(regs))
  }

  lemma {:induction false} ClearedAt(regs: Registers, n: nat, reg: Reg)
    ensures (exists k: nat :: k < n && reg == Slot(CPU, 0, k)) ==> At(Cleared(regs, n), reg) == 0
    ensures (forall k: nat :: k < n ==> reg != Slot(CPU, 0, k)) ==> At(Cleared(regs, n), reg) == At(regs, reg)
  {
    if n != 0 { ClearedAt(regs, n - 1, reg); }
  }

  lemma {:induction false} WithSettingsAt(regs: Registers, n: nat, reg: Reg)
    requires n <= |SETTINGS_AT_RESET|
    ensures At(WithSettings(regs, n), reg) ==
            if reg.Banked? && reg.grp == PROCESSOR && reg.bnk == 1 && 6 <= reg.index < 6 + n
            then SETTINGS_AT_RESET[reg.index - 6] else At(regs, reg)
  {
    if n != 0 { WithSettingsAt(regs, n - 1, reg); }
  }

  /** Reset sets PSW and the MPU settings, clears CPU bank 0 and the shared registers, and keeps every other bank. */
  lemma ResetAt(regs: Registers, reg: Reg)
    ensures At(ResetRegisters(regs), reg) ==
            match reg
            case Shared(i) => if i < 4 then 0 else At(regs, reg)
            case Banked(grp, bnk, i) =>
              if grp == CPU && bnk == 0 && i < BANK_REGS then (if i == PSW then 0x20 else 0)
              else if grp == PROCESSOR && bnk == 1 && 6 <= i < 28 then
                (if i == 17 || i == 26 then 6 else if i % 2 == 0 then 2 else 0)
              else At(regs, reg)
  {
    WithSettingsAt(Cleared(regs, REGIDS)[PSW_REG := 0x20], |SETTINGS_AT_RESET|, reg);
    ClearedAt(regs, REGIDS, reg);
    match reg
    case Shared(i) => if i < 4 { assert reg == Slot(CPU, 0, i + BANK_REGS); }
    case Banked(grp, bnk, i) => if grp == CPU && bnk == 0 && i < BANK_REGS { assert reg == Slot(CPU, 0, i); }
  }

  // ---- the derived state follows its source registers -------------------------------------

  /** The selected bank is the one BSEL names. */
  predicate Coherent(cpu: Cpu) { BankOf(At(cpu.regs, BSEL_REG)) == Bank(cpu.grp, cpu.bnk) }

  /** The tables are those the setting registers describe. */
  predicate InSync(cpu: Cpu) { cpu.tables == TablesOf(cpu.regs) }

  lemma TablesDependOnSettings(a: Registers, b: Registers)
    requires forall i: nat :: 6 <= i < 28 ==> Setting(a, i) == Setting(b, i)
    ensures TablesOf(a) == TablesOf(b)
  {
  }

  lemma BselIsThirtyOne(grp: nat, bnk: nat, regid: nat)
    requires regid < REGIDS
    ensures Slot(grp, bnk, regid) == BSEL_REG <==> regid == BSEL
  {
  }

  /** Any LDSR keeps the selected bank the one BSEL names, in every state. */
  lemma StepKeepsCoherent(cpu: Cpu, st: Ldsr)
    requires Coherent(cpu)
    ensures Coherent(Step(cpu, st))
  {
    hide BankOf, TablesOf;
    if st.regid < REGIDS { BselIsThirtyOne(cpu.grp, cpu.bnk, st.regid); }
  }

  predicate WritesSetting(cpu: Cpu, st: Ldsr) {
    st.regid < BANK_REGS && cpu.grp == PROCESSOR && cpu.bnk == 1 && Permitted(cpu, st.regid, st.value)
  }

  /** The setting registers change only by a permitted write made while their bank is selected. */
  lemma OthersKeepSettings(cpu: Cpu, st: Ldsr)
    requires !WritesSetting(cpu, st)
    ensures forall i: nat :: i < BANK_REGS ==> Setting(Step(cpu, st).regs, i) == Setting(cpu.regs, i)
  {
    hide BankOf, TablesOf;
  }

  /** Tables after one step: rebuilt exactly when a permitted write leaves all 32 bits of BSEL at 0x1001. */
  lemma StepTables(cpu: Cpu, st: Ldsr)
    ensures var next := Step(cpu, st);
            var rebuilt := !Faults(cpu, st) && Permitted(cpu, st.regid, st.value)
                           && At(next.regs, BSEL_REG) == MPU_SETTING;
            next.tables == if rebuilt then TablesOf(next.regs) else cpu.tables
  {
    hide BankOf, TablesOf;
  }

  /**
    The bits of setting register `i` that the tables take: 27 to 4 of every bound; 2 (mask method) and 0
    (enable) of a lower one; 1 (read) and 0 (execute) of an instruction upper one; 2 (write) and 1 (read)
    of a data upper one.
   */
  predicate SameTableBits(i: nat, a: Word, b: Word) {
    && a % 0x1000_0000 / 16 == b % 0x1000_0000 / 16
    && (if i % 2 == 0 then a / 4 % 2 == b / 4 % 2 && a % 2 == b % 2
        else if i < 16 then a / 2 % 2 == b / 2 % 2 && a % 2 == b % 2
        else a / 4 % 2 == b / 4 % 2 && a / 2 % 2 == b / 2 % 2)
  }

  lemma BitIs(a: int, b: int)
    requires (a % 2 == 1) == (b % 2 == 1)
    ensures a % 2 == b % 2
  {
  }

  lemma ExecRegionSees(al: Word, au: Word, al': Word, au': Word)
    ensures ExecRegionOf(al', au) == ExecRegionOf(al, au) <==> SameTableBits(6, al', al)
    ensures ExecRegionOf(al, au') == ExecRegionOf(al, au) <==> SameTableBits(7, au', au)
  {
    if (al' % 2 == 1) == (al % 2 == 1) { BitIs(al', al); }
    if (al' / 4 % 2 == 1) == (al / 4 % 2 == 1) { BitIs(al' / 4, al / 4); }
    if (au' % 2 == 1) == (au % 2 == 1) { BitIs(au', au); }
    if (au' / 2 % 2 == 1) == (au / 2 % 2 == 1) { BitIs(au' / 2, au / 2); }
  }

  lemma DataRegionSees(al: Word, au: Word, al': Word, au': Word)
    ensures DataRegionOf(al', au) == DataRegionOf(al, au) <==> SameTableBits(16, al', al)
    ensures DataRegionOf(al, au') == DataRegionOf(al, au) <==> SameTableBits(17, au', au)
  {
    if (al' % 2 == 1) == (al % 2 == 1) { BitIs(al', al); }
    if (al' / 4 % 2 == 1) == (al / 4 % 2 == 1) { BitIs(al' / 4, al / 4); }
    if (au' / 2 % 2 == 1) == (au / 2 % 2 == 1) { BitIs(au' / 2, au / 2); }
    if (au' / 4 % 2 == 1) == (au / 4 % 2 == 1) { BitIs(au' / 4, au / 4); }
  }

  lemma SettingAfter(regs: Registers, i: nat, v: Word, j: nat)
    ensures Setting(regs[Banked(PROCESSOR, 1, i) := v], j) == if i == j then v else Setting(regs, j)
  {
  }

  lemma BitsByKind(i: nat, a: Word, b: Word)
    requires 6 <= i < BANK_REGS
    ensures SameTableBits(i, a, b) == SameTableBits(if i < 16 then 6 + i % 2 else 16 + i % 2, a, b)
  {
  }

  /**
    The instruction region that register `i` belongs to changes exactly when those bits do, and no other
    one changes.
   */
  lemma ExecWrite(regs: Registers, i: nat, v: Word, j: nat)
    requires 6 <= i < 16 && j < EXEC_REGIONS
    ensures var now := regs[Banked(PROCESSOR, 1, i) := v];
            var same := ExecRegionOf(Setting(now, 6 + 2 * j), Setting(now, 7 + 2 * j)) ==
                        ExecRegionOf(Setting(regs, 6 + 2 * j), Setting(regs, 7 + 2 * j));
            if j == (i - 6) / 2 then same <==> SameTableBits(i, v, Setting(regs, i)) else same
  {
    SettingAfter(regs, i, v, 6 + 2 * j);
    SettingAfter(regs, i, v, 7 + 2 * j);
    BitsByKind(i, v, Setting(regs, i));
    ExecRegionSees(Setting(regs, 6 + 2 * j), Setting(regs, 7 + 2 * j), v, v);
    hide Setting, SameTableBits, ExecRegionOf;
  }

  lemma DataWrite(regs: Registers, i: nat, v: Word, j: nat)
    requires 16 <= i < 28 && j < DATA_REGIONS
    ensures var now := regs[Banked(PROCESSOR, 1, i) := v];
            var same := DataRegionOf(Setting(now, 16 + 2 * j), Setting(now, 17 + 2 * j)) ==
                        DataRegionOf(Setting(regs, 16 + 2 * j), Setting(regs, 17 + 2 * j));
            if j == (i - 16) / 2 then same <==> SameTableBits(i, v, Setting(regs, i)) else same
  {
    SettingAfter(regs, i, v, 16 + 2 * j);
    SettingAfter(regs, i, v, 17 + 2 * j);
    BitsByKind(i, v, Setting(regs, i));
    DataRegionSees(Setting(regs, 16 + 2 * j), Setting(regs, 17 + 2 * j), v, v);
    hide Setting, SameTableBits, DataRegionOf;
  }

  lemma OtherTable(regs: Registers, i: nat, v: Word)
    ensures var now := regs[Banked(PROCESSOR, 1, i) := v];
            && (i < 16 ==> TablesOf(now).datas == TablesOf(regs).datas)
            && (!(6 <= i < 16) ==> TablesOf(now).execs == TablesOf(regs).execs)
  {
    hide ExecRegionOf, DataRegionOf;
  }

  lemma ExecTableSeesBits(regs: Registers, i: nat, v: Word)
    requires 6 <= i < 16
    ensures TablesOf(regs[Banked(PROCESSOR, 1, i) := v]).execs == TablesOf(regs).execs <==>
            SameTableBits(i, v, Setting(regs, i))
  {
    var now := regs[Banked(PROCESSOR, 1, i) := v];
    var was := TablesOf(regs).execs;
    forall j: nat | j < EXEC_REGIONS
      ensures TablesOf(now).execs[j] == was[j] <==> j != (i - 6) / 2 || SameTableBits(i, v, Setting(regs, i))
    {
      ExecWrite(regs, i, v, j);
    }
    hide ExecRegionOf, DataRegionOf, SameTableBits, Setting;
    var k := (i - 6) / 2;
    assert TablesOf(now).execs[k] == was[k] <==> SameTableBits(i, v, Setting(regs, i));
    hide TablesOf;
  }

  lemma DataTableSeesBits(regs: Registers, i: nat, v: Word)
    requires 16 <= i < BANK_REGS
    ensures TablesOf(regs[Banked(PROCESSOR, 1, i) := v]).datas == TablesOf(regs).datas <==>
            SameTableBits(i, v, Setting(regs, i))
  {
    var now := regs[Banked(PROCESSOR, 1, i) := v];
    var was := TablesOf(regs).datas;
    forall j: nat | j < DATA_REGIONS
      ensures TablesOf(now).datas[j] == was[j] <==> j != (i - 16) / 2 || SameTableBits(i, v, Setting(regs, i))
    {
      DataWrite(regs, i, v, j);
    }
    hide ExecRegionOf, DataRegionOf, SameTableBits, Setting;
    var k := (i - 16) / 2;
    assert TablesOf(now).datas[k] == was[k] <==> SameTableBits(i, v, Setting(regs, i));
    hide TablesOf;
  }

  /**
    A write to one setting register leaves the rebuilt tables the same exactly when it leaves those bits
    the same.
   */
  lemma TablesSeeBits(regs: Registers, i: nat, v: Word)
    requires i < BANK_REGS
    ensures TablesOf(regs[Banked(PROCESSOR, 1, i) := v]) == TablesOf(regs) <==>
            i < 6 || SameTableBits(i, v, Setting(regs, i))
  {
    OtherTable(regs, i, v);
    if 6 <= i < 16 { ExecTableSeesBits(regs, i, v); }
    if 16 <= i { DataTableSeesBits(regs, i, v); }
    hide *;
  }

  /**
    The exact condition for one step: from tables in step with their registers, LDSR leaves them so
    if and only if it is not a permitted write to the setting bank made under a BSEL with a nonzero upper
    half, or it changes no bit that the tables take.
   */
  lemma StaleExactlyWhen(cpu: Cpu, st: Ldsr)
    requires Coherent(cpu) && InSync(cpu)
    ensures InSync(Step(cpu, st)) <==>
            (WritesSetting(cpu, st) && At(cpu.regs, BSEL_REG) >= 0x1_0000 ==>
               st.regid < 6 || SameTableBits(st.regid, st.value, Setting(cpu.regs, st.regid)))
  {
    hide TablesOf, SameTableBits, Step, BankOf, Faults, Permitted, At;
    StepTables(cpu, st);
    var bsel := At(cpu.regs, BSEL_REG);
    BankOfLowHalf(bsel);
    if WritesSetting(cpu, st) {
      WriteOfSetting(cpu, st);
      TablesSeeBits(cpu.regs, st.regid, st.value);
    } else {
      OthersKeepSettings(cpu, st);
      TablesDependOnSettings(Step(cpu, st).regs, cpu.regs);
    }
  }

  lemma WriteOfSetting(cpu: Cpu, st: Ldsr)
    requires WritesSetting(cpu, st)
    ensures var regs := cpu.regs[Banked(PROCESSOR, 1, st.regid) := st.value];
            Step(cpu, st).regs == regs && At(regs, BSEL_REG) == At(cpu.regs, BSEL_REG)
    ensures !Faults(cpu, st)
  {
    hide BankOf, TablesOf;
  }

  /** Every BSEL write of the run has this upper half. */
  predicate UpperHalf(steps: seq<Ldsr>, hi: nat) {
    forall st <- steps :: st.regid == BSEL ==> st.value / 0x1_0000 == hi
  }

  lemma StepKeepsBselUpper(cpu: Cpu, st: Ldsr)
    requires At(cpu.regs, BSEL_REG) < 0x1_0000
    requires st.regid == BSEL ==> st.value / 0x1_0000 == 0
    ensures At(Step(cpu, st).regs, BSEL_REG) < 0x1_0000
  {
    hide BankOf, TablesOf;
    if st.regid < REGIDS { BselIsThirtyOne(cpu.grp, cpu.bnk, st.regid); }
  }

  lemma ResetIsCoherent(cpu: Cpu)
    ensures At(Reset(cpu).regs, BSEL_REG) == 0 && Coherent(Reset(cpu)) && InSync(Reset(cpu))
  {
    ResetAt(cpu.regs, BSEL_REG);
    BankOfLowHalf(0);
    hide ResetRegisters, BankOf;
  }

  /** From reset, whatever LDSR instructions run, the selected bank is the one BSEL names. */
  lemma {:induction false} ReachableCoherent(cpu: Cpu, steps: seq<Ldsr>)
    ensures Coherent(Run(Reset(cpu), steps))
    decreases |steps|
  {
    hide Step, Coherent, Reset;
    if steps == [] {
      ResetIsCoherent(cpu);
    } else {
      ReachableCoherent(cpu, steps[..|steps| - 1]);
      StepKeepsCoherent(Run(Reset(cpu), steps[..|steps| - 1]), steps[|steps| - 1]);
    }
  }

  /** From reset, if every BSEL value written has a zero upper half, the tables follow the setting registers. */
  lemma {:induction false} ReachableInSync(cpu: Cpu, steps: seq<Ldsr>)
    requires UpperHalf(steps, 0)
    ensures InSync(Run(Reset(cpu), steps)) && At(Run(Reset(cpu), steps).regs, BSEL_REG) < 0x1_0000
    decreases |steps|
  {
    hide Step, Coherent, InSync, Reset, WritesSetting, TablesOf, SameTableBits;
    if steps == [] {
      ResetIsCoherent(cpu);
    } else {
      var front, last := steps[..|steps| - 1], steps[|steps| - 1];
      assert last in steps;
      ReachableInSync(cpu, front);
      ReachableCoherent(cpu, front);
      StaleExactlyWhen(Run(Reset(cpu), front), last);
      StepKeepsBselUpper(Run(Reset(cpu), front), last);
    }
  }

  const NO_SYNC := Sync(0, 0)

  /** Select the setting bank through upper half `hi`, then enable region 0. */
  function StaleRun(hi: nat): seq<Ldsr>
    requires 0 < hi < 0x1_0000
  {
    [Ldsr(0, BSEL, hi * 0x1_0000 + MPU_SETTING, NO_SYNC), Ldsr(4, 6, 1, NO_SYNC)]
  }

  lemma StaleRunHasUpperHalf(hi: nat)
    requires 0 < hi < 0x1_0000
    ensures UpperHalf(StaleRun(hi), hi)
    ensures var bsel := hi * 0x1_0000 + MPU_SETTING;
            bsel % 0x1_0000 == MPU_SETTING && bsel / 0x1_0000 == hi && bsel >= 0x1_0000
  {
  }

  lemma StaleRunGoesStale(start: Cpu, hi: nat)
    requires 0 < hi < 0x1_0000
    requires InSync(start) && TrustedNpv(At(start.regs, PSW_REG)) && Setting(start.regs, 6) == 2
    ensures !InSync(Run(start, StaleRun(hi)))
  {
    var select, enable := StaleRun(hi)[0], StaleRun(hi)[1];
    StaleRunHasUpperHalf(hi);
    RunOfTwo(start, StaleRun(hi));
    SelectsSettings(start, select);
    hide Step, TablesOf, BankOf, Run;
    TablesDependOnSettings(start.regs, Step(start, select).regs);
    EnablesRegion(Step(start, select), enable);
  }

  /** Region 0 was disabled, is enabled in its register, and stays disabled in the table. */
  lemma EnablesRegion(cpu: Cpu, st: Ldsr)
    requires InSync(cpu) && WritesSetting(cpu, st) && At(cpu.regs, BSEL_REG) >= 0x1_0000
    requires Setting(cpu.regs, 6) == 2 && st.regid == 6 && st.value == 1
    ensures !InSync(Step(cpu, st))
  {
    StepTables(cpu, st);
    WriteOfSetting(cpu, st);
    assert !TablesOf(cpu.regs).execs[0].common.enable;
    assert TablesOf(Step(cpu, st).regs).execs[0].common.enable;
  }

  lemma SelectsSettings(cpu: Cpu, st: Ldsr)
    requires TrustedNpv(At(cpu.regs, PSW_REG)) && st.regid == BSEL
    requires st.value % 0x1_0000 == MPU_SETTING && st.value >= 0x1_0000
    ensures var next := Step(cpu, st);
            next == cpu.(pc := (st.at + 4) % SPACE, grp := PROCESSOR, bnk := 1, regs := cpu.regs[BSEL_REG := st.value])
  {
    BankOfLowHalf(st.value);
    hide BankOf, TablesOf;
  }

  lemma RunOfTwo(cpu: Cpu, steps: seq<Ldsr>)
    requires |steps| == 2
    ensures Run(cpu, steps) == Step(Step(cpu, steps[0]), steps[1])
  {
    hide Step;
    var first := steps[..1];
    assert first == [steps[0]] && first[..0] == [];
    assert Run(cpu, first) == Step(Run(cpu, first[..0]), first[0]);
  }

  /**
    Which upper halves are safe: every run from reset that writes BSEL with upper half `hi` keeps
    the tables in step, if and only if `hi` is zero. The bank is selected by 16 bits of BSEL but
    the rebuild is decided by all 32.
   */
  lemma InSyncIffUpperHalfIsZero(cpu: Cpu, hi: nat)
    requires hi < 0x1_0000
    ensures (forall steps | UpperHalf(steps, hi) :: InSync(Run(Reset(cpu), steps))) <==> hi == 0
  {
    if hi == 0 {
      forall steps | UpperHalf(steps, 0) ensures InSync(Run(Reset(cpu), steps)) { ReachableInSync(cpu, steps); }
    } else {
      ResetIsCoherent(cpu);
      ResetAt(cpu.regs, PSW_REG);
      ResetAt(cpu.regs, Banked(PROCESSOR, 1, 6));
      hide ResetRegisters, TablesOf, Step;
      StaleRunGoesStale(Reset(cpu), hi);
      StaleRunHasUpperHalf(hi);
    }
  }

  // ---- write protection ------------------------------------------------------------------

  /** The registers an untrusted run may change. */
  predicate Open(reg: Reg) { reg in {PSW_REG, VSECR, VSTID, VSADR} }

  /** Everything LDSR must not change without permission. */
  ghost predicate SameProtected(a: Cpu, b: Cpu) {
    && At(a.regs, PSW_REG) / 0x40 == At(b.regs, PSW_REG) / 0x40
    && (forall reg: Reg :: !Open(reg) ==> At(a.regs, reg) == At(b.regs, reg))
    && a.grp == b.grp && a.bnk == b.bnk && a.tables == b.tables
  }

  lemma NpvIsAboveBitSix(a: nat, b: nat)
    requires a / 0x40 == b / 0x40
    ensures P.ProtectionOf(a / 0x1_0000 % 0x10).npv == P.ProtectionOf(b / 0x1_0000 % 0x10).npv
  {
    assert a / 0x1_0000 == a / 0x40 / 0x400 && b / 0x1_0000 == b / 0x40 / 0x400;
  }

  /**
    What one LDSR that names an existing register and bank does: it stores if and only if NPV is clear or it
    writes PSW in CPU bank 0 and keeps bits 31 to 6; otherwise the register keeps its value and VSECR counts
    the denial.
   */
  lemma LdsrStoresIff(cpu: Cpu, st: Ldsr)
    requires st.regid < REGIDS && (st.regid == BSEL ==> BankOf(st.value).Bank?)
    ensures var next := Step(cpu, st);
            if !NpvSet(cpu.regs) || KeepsPswControl(cpu, st.regid, st.value)
            then next == Stored(cpu, st.regid, st.value, BankAfter(cpu, st), st.sync).(pc := (st.at + 4) % SPACE)
                 && var regs := cpu.regs[Slot(cpu.grp, cpu.bnk, st.regid) := st.value];
                    next.regs == if At(regs, BSEL_REG) == 0x2000 && next.grp == FPU && 8 <= st.regid <= 10
                                 then regs[Banked(FPU, next.bnk, st.regid) := st.sync.written]
                                          [Banked(FPU, next.bnk, 6) := st.sync.fpsr]
                                 else regs
            else At(next.regs, VSECR) == (At(cpu.regs, VSECR) + 1) % SPACE
                 && (forall reg: Reg :: reg !in {VSECR, VSTID, VSADR} ==> At(next.regs, reg) == At(cpu.regs, reg))
                 && next.grp == cpu.grp && next.bnk == cpu.bnk && next.tables == cpu.tables
  {
    PermittedIff(cpu.(pc := st.at), st.regid, st.value);
    hide BankOf, TablesOf, NpvSet, Permitted;
  }

  /** NPV refuses the store. */
  predicate IsDenied(cpu: Cpu, st: Ldsr) {
    st.regid < REGIDS && NpvSet(cpu.regs) && !KeepsPswControl(cpu, st.regid, st.value)
  }

  lemma PermittedWhenUntrusted(cpu: Cpu, st: Ldsr)
    requires NpvSet(cpu.regs) && Coherent(cpu) && st.regid < REGIDS && !IsDenied(cpu, st)
    ensures Step(cpu, st) == cpu.(pc := (st.at + 4) % SPACE, regs := cpu.regs[PSW_REG := st.value])
    ensures At(cpu.regs, PSW_REG) / 0x40 == st.value / 0x40
  {
    BankOfLowHalf(At(cpu.regs, BSEL_REG));
    PermittedIff(cpu, st.regid, st.value);
    hide BankOf, TablesOf, NpvSet;
  }

  lemma UntrustedStep(cpu: Cpu, st: Ldsr)
    requires NpvSet(cpu.regs) && Coherent(cpu)
    ensures SameProtected(cpu, Step(cpu, st)) && NpvSet(Step(cpu, st).regs) && Coherent(Step(cpu, st))
  {
    var next := Step(cpu, st);
    StepKeepsCoherent(cpu, st);
    if st.regid < REGIDS && !IsDenied(cpu, st) {
      PermittedWhenUntrusted(cpu, st);
      NpvIsAboveBitSix(At(cpu.regs, PSW_REG), st.value);
    } else {
      DeniedKeepsProtected(cpu, st);
    }
  }

  lemma DeniedKeepsProtected(cpu: Cpu, st: Ldsr)
    requires NpvSet(cpu.regs) && (st.regid >= REGIDS || IsDenied(cpu, st))
    ensures SameProtected(cpu, Step(cpu, st)) && At(Step(cpu, st).regs, PSW_REG) == At(cpu.regs, PSW_REG)
  {
    PermittedIff(cpu.(pc := st.at), st.regid, st.value);
    hide BankOf, TablesOf, NpvSet, Permitted;
  }

  /**
    Once NPV is set, no run of LDSR instructions changes PSW bits 31 to 6, BSEL, the bank, the tables or any
    register outside the violation record.
   */
  lemma {:induction false} UntrustedRunKeepsProtected(cpu: Cpu, steps: seq<Ldsr>)
    requires NpvSet(cpu.regs) && Coherent(cpu)
    ensures SameProtected(cpu, Run(cpu, steps)) && NpvSet(Run(cpu, steps).regs) && Coherent(Run(cpu, steps))
    decreases |steps|
  {
    hide Step, Coherent, NpvSet;
    if steps != [] {
      UntrustedRunKeepsProtected(cpu, steps[..|steps| - 1]);
      UntrustedStep(Run(cpu, steps[..|steps| - 1]), steps[|steps| - 1]);
    }
  }

  /** The addresses of the denied instructions of a run, oldest first. */
  function Denials(cpu: Cpu, steps: seq<Ldsr>): seq<Word>
    decreases |steps|
  {
    if steps == [] then []
    else
      var front, last := steps[..|steps| - 1], steps[|steps| - 1];
      if IsDenied(Run(cpu, front), last) then Denials(cpu, front) + [last.at] else Denials(cpu, front)
  }

  /** What a run that began with an empty record holds after the denials `pcs`. */
  predicate RecordShows(regs: Registers, tid: int, pcs: seq<Word>) {
    && At(regs, VSECR) == |pcs| % SPACE
    && (pcs != [] ==> At(regs, VSTID) == tid && At(regs, VSADR) == pcs[(|pcs| - 1) / SPACE * SPACE])
  }

  lemma StepRecords(cpu: Cpu, st: Ldsr, pcs: seq<Word>)
    requires NpvSet(cpu.regs) && Coherent(cpu) && RecordShows(cpu.regs, At(cpu.regs, TID), pcs)
    ensures RecordShows(Step(cpu, st).regs, At(cpu.regs, TID), if IsDenied(cpu, st) then pcs + [st.at] else pcs)
  {
    if IsDenied(cpu, st) {
      hide Step;
      NextSlot(|pcs|);
      DeniedRecords(cpu, st);
    } else if st.regid < REGIDS {
      PermittedWhenUntrusted(cpu, st);
    }
  }

  lemma NextSlot(n: nat)
    ensures n % SPACE == 0 ==> n / SPACE * SPACE == n
    ensures n % SPACE != 0 ==> n / SPACE * SPACE == (n - 1) / SPACE * SPACE < n
    ensures (n + 1) % SPACE == (n % SPACE + 1) % SPACE
  {
  }

  lemma DeniedRecords(cpu: Cpu, st: Ldsr)
    requires IsDenied(cpu, st)
    ensures var v := At(cpu.regs, VSECR);
            var next := Step(cpu, st).regs;
            && At(next, VSECR) == (v + 1) % SPACE
            && At(next, VSTID) == (if v == 0 then At(cpu.regs, TID) else At(cpu.regs, VSTID))
            && At(next, VSADR) == (if v == 0 then st.at else At(cpu.regs, VSADR))
  {
    PermittedIff(cpu.(pc := st.at), st.regid, st.value);
    hide BankOf, TablesOf, NpvSet, Permitted;
  }

  /**
    Over every run begun with NPV set and an empty violation record, VSECR is the number of denied
    writes modulo 2^32, and VSADR and VSTID hold the address and task of the first denial, replaced
    only when the counter has wrapped to zero.
   */
  lemma {:induction false} FirstDenialIsKept(cpu: Cpu, steps: seq<Ldsr>)
    requires NpvSet(cpu.regs) && Coherent(cpu) && At(cpu.regs, VSECR) == 0
    ensures RecordShows(Run(cpu, steps).regs, At(cpu.regs, TID), Denials(cpu, steps))
    decreases |steps|
  {
    if steps != [] {
      hide Step, Coherent, NpvSet, RecordShows;
      var front, last := steps[..|steps| - 1], steps[|steps| - 1];
      FirstDenialIsKept(cpu, front);
      UntrustedRunKeepsProtected(cpu, front);
      assert !Open(TID);
      StepRecords(Run(cpu, front), last, Denials(cpu, front));
    }
  }

  // ---- regions after reset -----------------------------------------------------------------

  /** After reset every region is disabled, so a core that switches IMP and DMP on may do nothing. */
  lemma NothingIsOpenAfterReset(cpu: Cpu, access: Access, addr: Word, size: Word)
    ensures var t := Reset(cpu).tables;
            && |t.execs| == EXEC_REGIONS && |t.datas| == DATA_REGIONS
            && !ImpAllows(t.execs, access, addr, size) && !DmpAllows(t.datas, access, addr, size)
  {
    var regs := ResetRegisters(cpu.regs);
    forall i: nat | i < EXEC_REGIONS ensures !TablesOf(regs).execs[i].common.enable {
      ResetAt(cpu.regs, Banked(PROCESSOR, 1, 6 + 2 * i));
    }
    forall i: nat | i < DATA_REGIONS ensures !TablesOf(regs).datas[i].common.enable {
      ResetAt(cpu.regs, Banked(PROCESSOR, 1, 16 + 2 * i));
    }
    hide ResetRegisters, TablesOf, Overlaps;
  }
}
