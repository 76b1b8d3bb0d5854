/** LDSR, reset and the table construction as the source runs them, proved against SysRegs. */
module SysRegCore {
  import opened Mpu
  import opened SysRegs

  lemma TableEntries(regs: Registers)
    ensures var t := TablesOf(regs); |t.execs| == EXEC_REGIONS && |t.datas| == DATA_REGIONS
    ensures forall i: nat :: i < EXEC_REGIONS ==>
              TablesOf(regs).execs[i] == ExecRegionOf(Setting(regs, 6 + 2 * i), Setting(regs, 7 + 2 * i))
    ensures forall i: nat :: i < DATA_REGIONS ==>
              TablesOf(regs).datas[i] == DataRegionOf(Setting(regs, 16 + 2 * i), Setting(regs, 17 + 2 * i))
  {
    hide ExecRegionOf, DataRegionOf, Setting;
  }

  class Core {
    var pc: Word
    var currentGrp: nat
    var currentBnk: nat
    var regs: Registers
    var execs: seq<ExecRegion>
    var datas: seq<DataRegion>

    ghost function View(): Cpu
      reads this
    {
      Cpu(pc, currentGrp, currentBnk, regs, Tables(execs, datas))
    }

    constructor ()
      ensures InSync(View()) && Coherent(View()) && At(regs, PSW_REG) == 0x20 && pc == 0
    {
      regs := map[];
      new;
      CpuReset();
      ResetIsCoherent(Cpu(pc, currentGrp, currentBnk, map[], Tables(execs, datas)));
      ResetAt(map[], PSW_REG);
    }

    /** set_sysreg_grp_bnk */
    method SetSysregGrpBnk(sysreg: Word) returns (ok: bool)
      modifies this`currentGrp, this`currentBnk
      ensures ok == BankOf(sysreg).Bank?
      ensures Bank(currentGrp, currentBnk) == if ok then BankOf(sysreg) else Bank(old(currentGrp), old(currentBnk))
    {
      var bnk := sysreg % 0x100;
      var grp := sysreg / 0x100 % 0x100;
      var regGrp, regBnk := 0, 0;
      BytesOfLowHalf(sysreg);
      if grp == 0x00 {
        regGrp := CPU;
        if bnk == 0x00 { regBnk := 0; } else if bnk == 0x10 { regBnk := 1; } else if bnk == 0x11 { regBnk := 2; }
        else { return false; }
      } else if grp == 0x10 {
        regGrp := PROCESSOR;
        if bnk == 0x00 { regBnk := 0; } else if bnk == 0x01 { regBnk := 1; } else if bnk == 0x10 { regBnk := 2; }
        else { return false; }
      } else if grp == 0x11 {
        regGrp := PMU;
        if bnk == 0x00 { regBnk := 0; } else { return false; }
      } else if grp == 0x20 {
        regGrp := FPU;
        if bnk == 0x00 { regBnk := 0; } else { return false; }
      } else if grp == 0xFF {
        regGrp := USER;
        if bnk == 0x00 { regBnk := 0; } else if bnk == 0xFF { regBnk := 1; } else { return false; }
      } else {
        return false;
      }
      currentGrp, currentBnk := regGrp, regBnk;
      return true;
    }

    /** private_cpu_mpu_construct_containers: new containers, filled in register order. */
    method ConstructContainers()
      modifies this`execs, this`datas
      ensures View() == old(View()).(tables := TablesOf(regs))
    {
      execs, datas := [], [];
      TableEntries(regs);
      hide TablesOf, CommonOf, Setting;
      var i := 0;
      while i < EXEC_REGIONS
        invariant 0 <= i <= EXEC_REGIONS && execs == TablesOf(regs).execs[..i] && datas == []
      {
        var al, au := Setting(regs, 6 + 2 * i), Setting(regs, 7 + 2 * i);
        execs := execs + [ExecRegion(CommonOf(al, au), au / 2 % 2 == 1, au % 2 == 1)];
        i := i + 1;
      }
      i := 0;
      while i < DATA_REGIONS
        invariant 0 <= i <= DATA_REGIONS && execs == TablesOf(regs).execs && datas == TablesOf(regs).datas[..i]
      {
        var al, au := Setting(regs, 16 + 2 * i), Setting(regs, 17 + 2 * i);
        datas := datas + [DataRegion(CommonOf(al, au), au / 2 % 2 == 1, au / 4 % 2 == 1)];
        i := i + 1;
      }
    }

    /** private_cpu_reset, private_cpu_mpu_init */
    method CpuReset()
      modifies this
      ensures View() == Reset(old(View()))
    {
      pc, currentGrp, currentBnk := 0, CPU, 0;
      var regId: nat := 0;
      while regId < REGIDS
        invariant regId <= REGIDS && regs == Cleared(old(regs), regId)
        invariant pc == 0 && currentGrp == CPU && currentBnk == 0
      {
        regs := regs[Slot(currentGrp, currentBnk, regId) := 0];
        regId := regId + 1;
      }
      regs := regs[PSW_REG := 0x20];
      regs := WithSettings(regs, |SETTINGS_AT_RESET|);
      ConstructContainers();
    }

    /** The violation record of a refused LDSR. */
    method RecordViolation()
      modifies this`regs
      ensures View() == Denied(old(View()))
    {
      if At(regs, VSECR) == 0 {
        regs := regs[VSTID := At(regs, TID)];
        regs := regs[VSADR := pc];
      }
      regs := regs[VSECR := (At(regs, VSECR) + 1) % SPACE];
    }

    /** fpu_sync_sysreg */
    method FpuSyncSysreg(regid: nat, sync: Sync)
      modifies this`regs
      ensures View() == FpuSynced(old(View()), regid, sync)
    {
      if currentGrp == FPU && 8 <= regid <= 10 {
        regs := regs[Banked(FPU, currentBnk, regid) := sync.written];
        regs := regs[Banked(FPU, currentBnk, 6) := sync.fpsr];
      }
    }

    /** op_exec_ldsr */
    method OpExecLdsr(regid: nat, value: Word, sync: Sync) returns (ok: bool)
      modifies this
      ensures ok == !Faults(old(View()), Ldsr(old(pc), regid, value, sync))
      ensures View() == Step(old(View()), Ldsr(old(pc), regid, value, sync))
    {
      hide BankOf, TablesOf;
      if regid >= REGIDS { return false; }
      var sysreg := Slot(currentGrp, currentBnk, regid);
      var psw := At(regs, PSW_REG);
      if !(TrustedNpv(psw) || (currentGrp == CPU && currentBnk == 0 && regid == PSW && psw / 0x40 == value / 0x40)) {
        RecordViolation();
        pc := (pc + 4) % SPACE;
        return true;
      }
      if regid == BSEL {
        ok := SetSysregGrpBnk(value);
        if !ok { return false; }
      }
      regs := regs[sysreg := value];
      if At(regs, BSEL_REG) == MPU_SETTING {
        ConstructContainers();
      } else if At(regs, BSEL_REG) == FPU_SETTING {
        FpuSyncSysreg(regid, sync);
      }
      pc := (pc + 4) % SPACE;
      return true;
    }
  }
}
