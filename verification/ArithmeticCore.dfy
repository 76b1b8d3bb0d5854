/** ADD, SUB, CMP, ADF and SBF as the source runs them, one field at a time. */
module ArithmeticCore {
  import opened Psw
  import opened Arithmetic

  class Core {
    const r: array<Word>
    var psw: Psw
    var pc: Word

    ghost predicate Valid()
      reads this
    {
      r.Length == REGS
    }

    function Operand(i: nat): int
      requires Valid() && i < REGS
      reads this, r
    {
      r[i]
    }

    /** op_chk_and_set_carry, op_chk_and_set_carry3 */
    method ChkAndSetCarry(sum: int)
      modifies this`psw
      ensures psw == old(psw).(flags := old(psw).flags.(cy := Carry(sum)))
    {
      psw := psw.(flags := psw.flags.(cy := sum > 0xFFFF_FFFF));
    }

    /** op_chk_and_set_borrow, op_chk_and_set_borrow3 */
    method ChkAndSetBorrow(difference: int)
      modifies this`psw
      ensures psw == old(psw).(flags := old(psw).flags.(cy := Borrow(difference)))
    {
      psw := psw.(flags := psw.flags.(cy := difference % 0x1_0000_0000_0000_0000 / BASE % 2 == 1));
    }

    /** op_chk_and_set_overflow, op_chk_and_set_overflow3, then op_chk_and_set_zero and op_chk_and_set_sign */
    method ChkOverflowZeroSign(exact: int, result: Word)
      modifies this`psw
      ensures psw == old(psw).(flags := WithResult(old(psw).flags, old(psw).flags.cy, Overflow(exact), result))
    {
      psw := psw.(flags := psw.flags.(ov := exact > 0x7FFF_FFFF || exact < -0x8000_0000));
      psw := psw.(flags := psw.flags.(z := result == 0));
      psw := psw.(flags := psw.flags.(s := Signed(result) < 0));
    }

    /** What a two-register operation leaves: reg2, the flags and the next instruction. */
    twostate predicate Did(reg: nat, result: Result, size: nat)
      requires old(Valid()) && Valid() && reg < REGS
      reads this, r
    {
      r[..] == old(r[..])[reg := result.value] && psw == old(psw).(flags := result.flags) && pc == Low(old(pc) + size)
    }

    twostate predicate DidNothing()
      reads this, r
    {
      r[..] == old(r[..]) && psw == old(psw) && pc == old(pc)
    }

    method ExecSub(reg1: nat, reg2: nat) returns (ok: bool)
      requires Valid()
      modifies this, r
      ensures Valid() && ok == (reg1 < REGS && reg2 < REGS)
      ensures if ok then Did(reg2, Subtract(old(psw).flags, old(Operand(reg2)), old(Operand(reg1))), 2)
              else DidNothing()
    {
      if reg1 >= REGS || reg2 >= REGS {
        return false;
      }
      var b, a := Operand(reg2), Operand(reg1);
      var result := Low(b - a);
      r[reg2] := result;
      ChkAndSetBorrow(b - a);
      ChkOverflowZeroSign(Signed(b) - Signed(a), result);
      pc := Low(pc + 2);
      ok := true;
    }

    method ExecCmp1(reg1: nat, reg2: nat) returns (ok: bool)
      requires Valid()
      modifies this
      ensures Valid() && ok == (reg1 < REGS && reg2 < REGS)
      ensures if ok
        then psw == old(psw).(flags := Subtract(old(psw).flags, Operand(reg2), Operand(reg1)).flags)
             && pc == Low(old(pc) + 2)
        else psw == old(psw) && pc == old(pc)
    {
      if reg1 >= REGS || reg2 >= REGS {
        return false;
      }
      var b, a := Operand(reg2), Operand(reg1);
      ChkAndSetBorrow(b - a);
      ChkOverflowZeroSign(Signed(b) - Signed(a), Low(b - a));
      pc := Low(pc + 2);
      ok := true;
    }

    method ExecAdd1(reg1: nat, reg2: nat) returns (ok: bool)
      requires Valid()
      modifies this, r
      ensures Valid() && ok == (reg1 < REGS && reg2 < REGS)
      ensures if ok then Did(reg2, Add(old(psw).flags, old(Operand(reg2)), old(Operand(reg1))), 2) else DidNothing()
    {
      if reg1 >= REGS || reg2 >= REGS {
        return false;
      }
      var b, a := Operand(reg2), Operand(reg1);
      var result := Low(b + a);
      r[reg2] := result;
      ChkAndSetCarry(b + a);
      ChkOverflowZeroSign(Signed(b) + Signed(a), result);
      pc := Low(pc + 2);
      ok := true;
    }

    method ExecAdf11(cond: nat, reg1: nat, reg2: nat, reg3: nat) returns (ok: bool)
      requires Valid()
      modifies this, r
      ensures Valid() && ok == (reg1 < REGS && reg2 < REGS && reg3 < REGS)
      ensures if ok
        then Did(reg3, AddConditional(old(psw).flags, cond, old(Operand(reg2)), old(Operand(reg1))), 4)
        else DidNothing()
    {
      if reg1 >= REGS || reg2 >= REGS || reg3 >= REGS {
        return false;
      }
      var a, b := Operand(reg1), Operand(reg2);
      var one := if Holds(psw.flags, cond) then 1 else 0;
      var result := Low(b + a + one);
      r[reg3] := result;
      ChkAndSetCarry(b + a + one);
      ChkOverflowZeroSign(Signed(b) + Signed(a) + one, result);
      pc := Low(pc + 4);
      ok := true;
    }

    method ExecSbf11(cond: nat, reg1: nat, reg2: nat, reg3: nat) returns (ok: bool)
      requires Valid()
      modifies this, r
      ensures Valid() && ok == (reg1 < REGS && reg2 < REGS && reg3 < REGS)
      ensures if ok
        then Did(reg3, SubtractConditional(old(psw).flags, cond, old(Operand(reg2)), old(Operand(reg1))), 4)
        else DidNothing()
    {
      if reg1 >= REGS || reg2 >= REGS || reg3 >= REGS {
        return false;
      }
      var one := if Holds(psw.flags, cond) then 1 else 0;
      var b, a := Operand(reg2), Operand(reg1);
      var result := Low(b - a - one);
      r[reg3] := result;
      ChkAndSetBorrow(b - a - one);
      ChkOverflowZeroSign(Signed(b) - Signed(a) - one, result);
      pc := Low(pc + 4);
      ok := true;
    }
  }
}
