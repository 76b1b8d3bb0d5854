/**
  The controller of one core as the source has it: arrays and fields updated in place. Each method
  is proved to move the abstract state exactly as the corresponding function of Intc does.
 */
module IntcController {
  import opened Psw
  import opened Intc
  import opened IntcInvariant
  import opened IntcLevels
  import opened IntcStack

  class Controller {
    const isWaitingLvl: array<nat>
    const waitingLvlNum: array<nat>
    var waitingIntNum: int
    var currentIntno: Current
    var savedIntnoOff: nat
    const savedIntnoStack: array<Line>
    const icn: array<Byte>
    var ispr: Ispr
    var nmiReqnum: int
    var intwdt2HasReq: bool
    var core: Core

    ghost predicate Valid()
      reads this
    {
      && isWaitingLvl.Length == LINES && waitingLvlNum.Length == LINES && icn.Length == LINES
      && savedIntnoStack.Length == SLOTS && savedIntnoOff <= SLOTS
      && isWaitingLvl != waitingLvlNum
    }

    /** The state these fields stand for; only the live part of the stack counts. */
    ghost function Tables(): Work
      requires Valid()
      reads this, isWaitingLvl, waitingLvlNum, savedIntnoStack, icn
    {
      Work(isWaitingLvl[..], waitingLvlNum[..], waitingIntNum, currentIntno, savedIntnoStack[..savedIntnoOff],
           icn[..], ispr)
    }

    ghost function Model(): State
      requires Valid()
      reads this, isWaitingLvl, waitingLvlNum, savedIntnoStack, icn
    {
      State(Tables(), core, nmiReqnum, intwdt2HasReq)
    }

    /** device_init_intc, with the core as cpu_reset leaves it. */
    constructor ()
      ensures Valid() && fresh(isWaitingLvl) && fresh(waitingLvlNum) && fresh(savedIntnoStack) && fresh(icn)
      ensures Model() == Initial()
    {
      isWaitingLvl := new nat[LINES](_ => NO_LEVEL);
      waitingLvlNum := new nat[LINES](_ => 0);
      savedIntnoStack := new Line[SLOTS](_ => 0);
      icn := new Byte[LINES](_ => 0x47);
      waitingIntNum, currentIntno, savedIntnoOff := 0, -1, 0;
      ispr := seq(NO_LEVEL, _ => false);
      nmiReqnum, intwdt2HasReq := 0, false;
      core := Initial().c;
      new;
      assert isWaitingLvl[..] == seq(LINES, _ => NO_LEVEL);
      assert waitingLvlNum[..] == seq(LINES, _ => 0);
      assert icn[..] == seq(LINES, _ => 0x47);
    }

    method SetWaitIntno(n: Line, lvl: nat)
      requires Valid()
      modifies this`waitingIntNum, isWaitingLvl, waitingLvlNum
      ensures Valid() && Tables() == SetWait(old(Tables()), n, lvl)
    {
      if isWaitingLvl[n] == NO_LEVEL {
        isWaitingLvl[n] := lvl;
        waitingLvlNum[n] := 1;
        waitingIntNum := waitingIntNum + 1;
      }
    }

    method ClrWaitIntno(n: Line)
      requires Valid()
      modifies this`waitingIntNum, isWaitingLvl, waitingLvlNum
      ensures Valid() && Tables() == ClearWait(old(Tables()), n)
    {
      if waitingLvlNum[n] > 0 {
        waitingLvlNum[n] := waitingLvlNum[n] - 1;
        if waitingLvlNum[n] == 0 {
          isWaitingLvl[n] := NO_LEVEL;
        }
        waitingIntNum := waitingIntNum - 1;
      }
    }

    method GetMaxpriIntno() returns (next: Current)
      requires Valid()
      ensures next == MostUrgent(Tables())
    {
      next := -1;
      if waitingIntNum == 0 {
        return;
      }
      var minlvl: nat := NO_LIMIT;
      if currentIntno >= 0 {
        minlvl := isWaitingLvl[currentIntno] * 65536 + currentIntno;
      }
      var i := 0;
      while i < LINES
        invariant 0 <= i <= LINES
        invariant Scan(Tables(), 0, Limit(Tables()), -1) == Scan(Tables(), i, minlvl, next)
      {
        if isWaitingLvl[i] != NO_LEVEL && !(currentIntno > 0 && currentIntno == i) && !Masked(icn[i]) {
          var lvl := isWaitingLvl[i] * 65536 + i;
          if lvl < minlvl {
            minlvl := lvl;
            next := i;
          }
        }
        i := i + 1;
      }
    }

    /** common_raise_intr */
    method RaiseIntr(n: Line)
      requires Valid()
      modifies this`waitingIntNum, this`core, isWaitingLvl, waitingLvlNum, icn
      ensures Valid() && Model() == Request(old(Model()), n)
    {
      icn[n] := SetRequest(icn[n]);
      SetWaitIntno(n, Priority(icn[n]));
      core := core.(halted := false);
    }

    /** The push is the one access the source does not bound; the caller owes it a free slot. */
    ghost predicate HasRoom()
      reads this
    {
      currentIntno == -1 || savedIntnoOff < SLOTS
    }

    /** Requests that wait together with distinct levels always leave that slot free. */
    lemma DistinctLevelsLeaveRoom()
      requires Valid() && Inv(Tables()) && DistinctLevels(Tables())
      ensures HasRoom()
    {
      StackHasRoom(Tables());
    }

    /** While at most nine lines wait, a clock that enters a handler finds a slot, whatever the levels are. */
    lemma NineLinesLeaveRoom()
      requires Valid() && Inv(Tables()) && |WaitingLines(Tables())| <= SLOTS + 1 && EntersMaskable(Model())
      ensures HasRoom()
    {
      if currentIntno >= 0 { EntryNeedsOneMore(Model()); }
    }

    /** intc_raise */
    method IntcRaise(n: Line)
      requires Valid() && (!core.psw.np && !core.psw.id ==> HasRoom())
      modifies this, savedIntnoStack
      ensures Valid() && Model() == Raise(old(Model()), n)
    {
      if core.psw.np {
        return;
      }
      if core.psw.id {
        return;
      }
      if currentIntno != -1 {
        savedIntnoStack[savedIntnoOff] := currentIntno;
        savedIntnoOff := savedIntnoOff + 1;
      }
      currentIntno := n;
      core := core.(eipc := core.pc, eipsw := core.psw,
                    ecr := core.ecr / 0x1_0000 * 0x1_0000 + HandlerAddress(n));
      core := core.(psw := core.psw.(id := true));
      core := core.(psw := core.psw.(ep := false));
      ispr := PutLevel(ispr, isWaitingLvl[n], true);
      core := core.(pc := HandlerAddress(n), halted := false);
    }

    /** raise_nmi */
    method RaiseNmiRequest()
      requires Valid()
      modifies this`core
      ensures Valid() && Model() == RaiseNmi(old(Model()))
    {
      if core.psw.np {
        return;
      }
      core := core.(halted := false, fepc := core.pc, fepsw := core.psw,
                    ecr := if core.ecr / 0x10_0000 % 2 == 1 then core.ecr else core.ecr + 0x10_0000);
      core := core.(psw := core.psw.(np := true));
      core := core.(psw := core.psw.(ep := false));
      core := core.(psw := core.psw.(id := true));
      core := core.(pc := 0x10);
    }

    /** raise_intwdt2 */
    method RaiseIntwdt2()
      requires Valid()
      modifies this`core
      ensures Valid() && Model() == RaiseWatchdog(old(Model()))
    {
      core := core.(halted := false, fepc := 0, fepsw := core.psw,
                    ecr := if core.ecr / 0x20_0000 % 2 == 1 then core.ecr else core.ecr + 0x20_0000);
      core := core.(psw := core.psw.(np := true));
      core := core.(psw := core.psw.(ep := false));
      core := core.(psw := core.psw.(id := true));
      core := core.(pc := 0x20);
    }

    /** intc_raise_pending_intr */
    method RaisePendingIntr()
      requires Valid() && (EntersMaskable(Model()) ==> HasRoom())
      modifies this, savedIntnoStack
      ensures Valid() && Model() == Clock(old(Model()))
    {
      if intwdt2HasReq {
        if !core.psw.np {
          return;
        }
        RaiseIntwdt2();
        return;
      }
      if nmiReqnum > 0 {
        RaiseNmiRequest();
        return;
      }
      var n := GetMaxpriIntno();
      if n < 0 {
        return;
      }
      if n == currentIntno {
        return;
      }
      IntcRaise(n);
    }

    /** intc_clr_currlvl_ispr */
    method ClrCurrlvlIspr()
      requires Valid()
      modifies this, isWaitingLvl, waitingLvlNum, icn
      ensures Valid() && Tables() == EndCurrent(old(Tables())) && core == old(core)
      ensures nmiReqnum == old(nmiReqnum) && intwdt2HasReq == old(intwdt2HasReq)
    {
      if currentIntno == -1 {
        return;
      }
      ispr := PutLevel(ispr, isWaitingLvl[currentIntno], false);
      icn[currentIntno] := ClearRequest(icn[currentIntno]);
      ClrWaitIntno(currentIntno);
      if savedIntnoOff > 0 {
        savedIntnoOff := savedIntnoOff - 1;
        currentIntno := savedIntnoStack[savedIntnoOff];
      } else {
        currentIntno := -1;
      }
    }

    /** intc_put_data8 on an xxICn register */
    method PutData8Icn(n: Line, b: Byte)
      requires Valid()
      modifies this, isWaitingLvl, waitingLvlNum, icn
      ensures Valid() && Model() == PutIcn8(old(Model()), n, b)
    {
      ClrCurrlvlIspr();
      icn[n] := b;
    }

    /** The bit loop of intc_hook_update_reg8 and intc_hook_update_reg16. */
    method HookUpdateImr(k: nat, data: Bits)
      requires Valid()
      modifies icn
      ensures Valid() && Model() == PutImr(old(Model()), k, data)
    {
      var i := 0;
      while i < |data|
        invariant 0 <= i <= |data|
        invariant forall m :: 0 <= m < LINES ==>
          icn[m] == old(if 16 * k <= m < 16 * k + i && m != PADDING then PutMask(icn[m], data[m - 16 * k]) else icn[m])
      {
        var n := 16 * k + i;
        if n != PADDING && n < LINES {
          icn[n] := PutMask(icn[n], data[i]);
        }
        i := i + 1;
      }
      assert icn[..] == MaskedFile(old(icn[..]), k, data);
    }

    /** op_exec_diei: `gen1` 4 is EI, anything else DI. */
    method ExecDiei(gen1: nat)
      requires Valid()
      modifies this`core
      ensures Valid() && Model() == if gen1 == 4 then Ei(old(Model())) else Di(old(Model()))
      ensures core == old(core).(psw := old(core.psw).(id := gen1 != 4), pc := (old(core.pc) + 4) % 0x1_0000_0000)
    {
      core := core.(psw := core.psw.(id := gen1 != 4));
      core := core.(pc := (core.pc + 4) % 0x1_0000_0000);
    }

    /** op_exec_reti with intc_clr_nmi */
    method ExecReti()
      requires Valid()
      modifies this
      ensures Valid() && Model() == Reti(old(Model()))
    {
      if core.psw.ep {
        core := core.(pc := core.eipc, psw := core.eipsw);
      } else if core.psw.np {
        core := core.(pc := core.fepc, psw := core.fepsw);
        if intwdt2HasReq {
          core := ResetCore();
        } else {
          nmiReqnum := nmiReqnum - 1;
        }
      } else {
        core := core.(pc := core.eipc, psw := core.eipsw);
      }
    }
  }
}
