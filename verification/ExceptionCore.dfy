/** Exception entry and return as the source runs them, one register at a time. */
module ExceptionCore {
  import opened Psw
  import opened Results
  import E = Exceptions

  class Core {
    var pc: int
    var psw: Psw
    var eipc: int
    var eipsw: Psw
    var fepc: int
    var fepsw: Psw
    var ecr: nat
    var eiic: nat
    var feic: nat
    var aue: bool

    ghost function View(): E.Core
      reads this
    {
      E.Core(pc, psw, eipc, eipsw, fepc, fepsw, ecr, eiic, feic, aue)
    }

    /** CPU_CLR_IMP, CPU_CLR_DMP, CPU_CLR_NPV, CPU_CLR_PP */
    method ClearProtection()
      modifies this`psw
      ensures psw == old(psw).(protection := TRUSTED)
    {
      psw := psw.(protection := psw.protection.(imp := false));
      psw := psw.(protection := psw.protection.(dmp := false));
      psw := psw.(protection := psw.protection.(npv := false));
      psw := psw.(protection := psw.protection.(pp := false));
    }

    /** op_exec_trap */
    method OpExecTrap(vector: nat)
      modifies this
      ensures View() == E.Trap(old(View()), vector)
    {
      var entry, eicc;
      if vector <= 0x0F {
        entry, eicc := 0x40, 0x40 + vector;
      } else if vector <= 0x1F {
        entry, eicc := 0x50, 0x50 + vector % 0x10;
      } else {
        return;
      }
      if aue { ClearProtection(); }
      eipc := (pc + 4) % E.WORD;
      eipsw := psw;
      ecr := ecr % 0x1_0000 + 0x1_0000 * eicc;
      psw := psw.(ep := true);
      psw := psw.(id := true);
      pc := entry;
    }

    /** op_exec_fetrap_1 */
    method OpExecFetrap(vector: nat)
      modifies this
      ensures View() == E.Fetrap(old(View()), vector)
    {
      var word := psw;
      fepc := (pc + 2) % E.WORD;
      feic := 0x30 + vector;
      fepsw := word;
      ecr := ecr % 0x1_0000 + 0x1_0000 * (0x30 + vector);
      psw := psw.(ep := true);
      psw := psw.(id := true);
      psw := psw.(np := true);
      if aue { ClearProtection(); }
      pc := 0x30;
    }

    /** The first part of op_exec_syscall_10: the return pair is saved and DMP is off for the table read. */
    method SyscallSave(vector8: nat)
      modifies this
      ensures View() == E.SyscallSaved(old(View()), vector8)
    {
      var word := psw;
      eipc := (pc + 4) % E.WORD;
      eiic := 0x8000 + vector8;
      eipsw := word;
      ecr := ecr / 0x1_0000 * 0x1_0000 + (0x8000 + vector8);
      psw := psw.(ep := true);
      psw := psw.(id := true);
      if aue { ClearProtection(); } else { psw := psw.(protection := psw.protection.(dmp := false)); }
    }

    /** op_exec_syscall_10 */
    method OpExecSyscall(vector8: nat, scbp: nat, sccfg: nat, words: map<int, nat>) returns (ok: bool)
      modifies this
      ensures E.Result(View(), ok) ==
              E.Syscall(old(View()), vector8, scbp, E.TableEntry(words, scbp, sccfg, vector8))
    {
      var backupDmp, dmpIsTrusted := !aue, !psw.protection.dmp;
      SyscallSave(vector8);
      hide E.SyscallSaved;
      var addr := if vector8 <= sccfg % 0x100 then (scbp + 4 * vector8) % E.WORD else scbp;
      if addr !in words { return false; }
      if backupDmp { psw := psw.(protection := psw.protection.(dmp := !dmpIsTrusted)); }
      pc := (scbp + words[addr]) % E.WORD;
      return true;
    }

    /** cpu_illegal_access */
    method IllegalAccess(code: nat)
      modifies this
      ensures View() == E.IllegalAccess(old(View()), code)
    {
      var fepcWas, fepswWas := pc, psw;
      psw := psw.(ep := true);
      psw := psw.(np := true);
      psw := psw.(id := true);
      ClearProtection();
      feic := code;
      fepsw := fepswWas;
      fepc := fepcWas;
      ecr := ecr % 0x100 + 0x1_0000 * code;
      pc := 0x30;
    }

    /** op_exec_eiret_10, op_exec_feret_10, op_exec_reti */
    method OpExecEiret()
      modifies this
      ensures View() == E.Eiret(old(View()))
    {
      pc := eipc;
      psw := eipsw;
    }

    method OpExecFeret()
      modifies this
      ensures View() == E.Feret(old(View()))
    {
      pc := fepc;
      psw := fepsw;
    }

    method OpExecReti()
      modifies this
      ensures View() == E.Reti(old(View()))
    {
      if psw.ep { OpExecEiret(); } else if psw.np { OpExecFeret(); } else { OpExecEiret(); }
    }
  }
}
