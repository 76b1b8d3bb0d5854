/**
  The flag-setting arithmetic of src/cpu/cpu_exec/op_exec_arithm.c and the branch conditions of
  src/cpu/cpu_exec/op_exec_branch.c. Registers hold 32-bit patterns; signed overflow wraps.
 */
module Arithmetic {
  import opened Psw

  const BASE := 0x1_0000_0000
  const REGS := 32

  type Word = w: int | 0 <= w < BASE
  type Registers = r: seq<Word> | |r| == REGS witness seq(REGS, _ => 0)

  function Signed(w: Word): int { if w < 0x8000_0000 then w else w - BASE }

  function Low(x: int): Word { x % BASE }

  // ---- flag helpers --------------------------------------------------------------------

  /** op_chk_and_set_carry and op_chk_and_set_carry3: the 64-bit sum passes 0xFFFFFFFF. */
  predicate Carry(sum: int) { sum > 0xFFFF_FFFF }

  /** op_chk_and_set_borrow and op_chk_and_set_borrow3: bit 32 of the 64-bit difference. */
  predicate Borrow(difference: int) { difference % 0x1_0000_0000_0000_0000 / BASE % 2 == 1 }

  /** op_chk_and_set_overflow and op_chk_and_set_overflow3 */
  predicate Overflow(exact: int) { exact > 0x7FFF_FFFF || exact < -0x8000_0000 }

  function WithResult(f: Flags, cy: bool, ov: bool, result: Word): Flags {
    f.(cy := cy, ov := ov, z := result == 0, s := Signed(result) < 0)
  }

  // ---- conditions ----------------------------------------------------------------------

  const COND_V := 0x0
  const COND_L := 0x1
  const COND_E := 0x2
  const COND_NH := 0x3
  const COND_N := 0x4
  const COND_R := 0x5
  const COND_LT := 0x6
  const COND_LE := 0x7
  const COND_NV := 0x8
  const COND_NL := 0x9
  const COND_NE := 0xA
  const COND_H := 0xB
  const COND_P := 0xC
  const COND_SA := 0xD
  const COND_GE := 0xE
  const COND_GT := 0xF

  /** op_exec_cond */
  predicate Holds(f: Flags, cond: nat) {
    match cond
    case 0xE => f.s == f.ov
    case 0xF => f.s == f.ov && !f.z
    case 0x7 => f.s != f.ov || f.z
    case 0x6 => f.s != f.ov
    case 0xB => !f.cy && !f.z
    case 0x1 => f.cy
    case 0x3 => f.cy || f.z
    case 0x9 => !f.cy
    case 0x2 => f.z
    case 0xA => !f.z
    case 0x4 => f.s
    case 0x8 => !f.ov
    case 0xC => !f.s
    case 0x5 => true
    case 0xD => f.sat
    case 0x0 => f.ov
    case _ => false
  }

  // ---- operations on values ------------------------------------------------------------

  datatype Result = Result(value: Word, flags: Flags)

  function Add(f: Flags, reg2: Word, reg1: Word): Result {
    var value := Low(reg2 + reg1);
    Result(value, WithResult(f, Carry(reg2 + reg1), Overflow(Signed(reg2) + Signed(reg1)), value))
  }

  function Subtract(f: Flags, reg2: Word, reg1: Word): Result {
    var value := Low(reg2 - reg1);
    Result(value, WithResult(f, Borrow(reg2 - reg1), Overflow(Signed(reg2) - Signed(reg1)), value))
  }

  /** ADF adds one when the condition holds. */
  function AddConditional(f: Flags, cond: nat, reg2: Word, reg1: Word): Result {
    var one := Bit(Holds(f, cond));
    var value := Low(reg2 + reg1 + one);
    Result(value, WithResult(f, Carry(reg2 + reg1 + one), Overflow(Signed(reg2) + Signed(reg1) + one), value))
  }

  /** SBF subtracts one when the condition holds. */
  function SubtractConditional(f: Flags, cond: nat, reg2: Word, reg1: Word): Result {
    var one := Bit(Holds(f, cond));
    var value := Low(reg2 - reg1 - one);
    Result(value, WithResult(f, Borrow(reg2 - reg1 - one), Overflow(Signed(reg2) - Signed(reg1) - one), value))
  }

  // ---- what the flags mean -------------------------------------------------------------

  lemma BorrowIsNegative(d: int)
    requires -BASE <= d < BASE
    ensures Borrow(d) <==> d < 0
  {
    if d < 0 {
      assert d % 0x1_0000_0000_0000_0000 == 0x1_0000_0000_0000_0000 + d;
    } else {
      assert d % 0x1_0000_0000_0000_0000 == d;
    }
  }

  lemma LowOfSum(x: int)
    requires -BASE <= x < 2 * BASE
    ensures x % 0x1_0000_0000 == Low(x) == if x < 0 then x + BASE else if x < BASE then x else x - BASE
  {
  }

  /**
    One ADD or ADF digit: the exact sum is the digit plus BASE times the carry, and OV says whether it fits
    signed. Z and S describe the low 32 bits of the sum, whatever the carry; SAT is left alone.
   */
  lemma AddDigit(f: Flags, cond: nat, x: Word, y: Word)
    ensures var c := Bit(Holds(f, cond)); var r := AddConditional(f, cond, x, y);
      && x + y + c == r.value + (if r.flags.cy then BASE else 0)
      && (r.flags.ov <==> !(-0x8000_0000 <= Signed(x) + Signed(y) + c <= 0x7FFF_FFFF))
      && (!r.flags.ov ==> Signed(r.value) == Signed(x) + Signed(y) + c)
      && (r.flags.s != r.flags.ov <==> Signed(x) + Signed(y) + c < 0)
      && (r.flags.z <==> (x + y + c) % 0x1_0000_0000 == 0)
      && (r.flags.s <==> (x + y + c) % 0x1_0000_0000 >= 0x8000_0000)
      && r.flags.sat == f.sat
  {
    LowOfSum(x + y + Bit(Holds(f, cond)));
    hide Low;
  }

  /** One SUB or SBF digit. */
  lemma SubtractDigit(f: Flags, cond: nat, x: Word, y: Word)
    ensures var c := Bit(Holds(f, cond)); var r := SubtractConditional(f, cond, x, y);
      && x - y - c == r.value - (if r.flags.cy then BASE else 0)
      && (r.flags.ov <==> !(-0x8000_0000 <= Signed(x) - Signed(y) - c <= 0x7FFF_FFFF))
      && (!r.flags.ov ==> Signed(r.value) == Signed(x) - Signed(y) - c)
      && (r.flags.s != r.flags.ov <==> Signed(x) - Signed(y) - c < 0)
      && (r.flags.z <==> (x - y - c) % 0x1_0000_0000 == 0)
      && (r.flags.s <==> (x - y - c) % 0x1_0000_0000 >= 0x8000_0000)
      && r.flags.sat == f.sat
  {
    var d := x - y - Bit(Holds(f, cond));
    LowOfSum(d);
    BorrowIsNegative(d);
    hide Low, Borrow;
  }

  /** ADD and SUB are ADF and SBF under a condition that does not hold. */
  lemma UnconditionalIsNotTaken(f: Flags, cond: nat, x: Word, y: Word)
    requires !Holds(f, cond)
    ensures Add(f, x, y) == AddConditional(f, cond, x, y)
    ensures Subtract(f, x, y) == SubtractConditional(f, cond, x, y)
  {
  }

  /** What `k` rounds of ADD -1 leave of `n` and the flags. */
  function Countdown(f: Flags, n: Word, k: nat): Result {
    if k == 0 then Result(n, f)
    else
      var before := Countdown(f, n, k - 1);
      Add(before.flags, before.value, 0xFFFF_FFFF)
  }

  /**
    A loop that ADDs -1 and closes with BNE: after k rounds the register holds n - k modulo 2^32 and the
    branch is taken exactly while that is not zero. So it runs n rounds, and 2^32 of them from zero.
   */
  lemma {:induction false} CountdownEnds(f: Flags, n: Word, k: nat)
    requires k > 0
    decreases k
    ensures var r := Countdown(f, n, k);
            r.value == (n - k) % 0x1_0000_0000 && (Holds(r.flags, COND_NE) <==> (n - k) % 0x1_0000_0000 != 0)
  {
    var before := Countdown(f, n, k - 1);
    if k > 1 { CountdownEnds(f, n, k - 1); } else { assert before.value == n % 0x1_0000_0000; }
    OneLess(before.flags, before.value, n - k);
    assert Countdown(f, n, k) == Add(before.flags, before.value, 0xFFFF_FFFF);
    hide *;
  }

  lemma OneLess(f: Flags, v: Word, x: int)
    requires v == (x + 1) % 0x1_0000_0000
    ensures var r := Add(f, v, 0xFFFF_FFFF);
            r.value == x % 0x1_0000_0000 && (Holds(r.flags, COND_NE) <==> x % 0x1_0000_0000 != 0)
  {
    var low := x % 0x1_0000_0000;
    assert v == if low == 0xFFFF_FFFF then 0 else low + 1;
    LowOfSum(v + 0xFFFF_FFFF);
    hide Signed, Overflow, Low;
  }

  /** After CMP every order condition decides the order of the two registers exactly. */
  lemma CompareDecidesOrder(f: Flags, reg2: Word, reg1: Word)
    ensures var g := Subtract(f, reg2, reg1).flags;
      && (Holds(g, COND_L) <==> reg2 < reg1) && (Holds(g, COND_NL) <==> reg2 >= reg1)
      && (Holds(g, COND_NH) <==> reg2 <= reg1) && (Holds(g, COND_H) <==> reg2 > reg1)
      && (Holds(g, COND_E) <==> reg2 == reg1) && (Holds(g, COND_NE) <==> reg2 != reg1)
      && (Holds(g, COND_LT) <==> Signed(reg2) < Signed(reg1)) && (Holds(g, COND_GE) <==> Signed(reg2) >= Signed(reg1))
      && (Holds(g, COND_LE) <==> Signed(reg2) <= Signed(reg1)) && (Holds(g, COND_GT) <==> Signed(reg2) > Signed(reg1))
  {
    var never := 0x10;
    UnconditionalIsNotTaken(f, never, reg2, reg1);
    SubtractDigit(f, never, reg2, reg1);
    hide Low, Borrow, Overflow;
  }

  /**
    The other six conditions after CMP: whether the signed difference fits a word, the sign of its low
    word, always, and SAT as it was.
   */
  lemma CompareOtherConditions(f: Flags, reg2: Word, reg1: Word)
    ensures var g := Subtract(f, reg2, reg1).flags; var exact := Signed(reg2) - Signed(reg1);
            && (Holds(g, COND_V) <==> exact != Signed(Low(reg2 - reg1))) && (Holds(g, COND_NV) <==> !Holds(g, COND_V))
            && (Holds(g, COND_N) <==> Signed(Low(reg2 - reg1)) < 0) && (Holds(g, COND_P) <==> !Holds(g, COND_N))
            && Holds(g, COND_R) && (Holds(g, COND_SA) <==> f.sat)
  {
    LowOfSum(reg2 - reg1);
    hide Low, Borrow;
  }
}
