/** The rows of the opcode tables name exactly the operation whose bits a code word carries. */
module OpCoding {
  import opened Results
  import opened OpTable
  import opened Decode
  import opened OpBits

  // ---- the fields of the tables are bits ---------------------------------------------------

  lemma Powers()
    ensures Pow2(0) == 1 && Pow2(1) == 2 && Pow2(2) == 4 && Pow2(3) == 8 && Pow2(4) == 0x10 && Pow2(5) == 0x20
    ensures Pow2(11) == 0x800 && Pow2(14) == 0x4000
  {
    assert Pow2(3) == 8 && Pow2(5) == 4 * Pow2(3) && Pow2(7) == 4 * Pow2(5) && Pow2(9) == 4 * Pow2(7);
    assert Pow2(11) == 4 * Pow2(9) && Pow2(13) == 4 * Pow2(11);
  }

  /** What the tables read in the first halfword. */
  ghost predicate FirstFacts(c0: nat, row: nat) {
    && Opcode(c0) == row < 64 && Reg1(c0) == Low(c0) && Reg2(c0) == High(c0)
    && Field(c0, 0, 1) == Bit0(c0) < 2 && Field(c0, 4, 1) == Bit4(c0) < 2
    && Field(c0, 0, 5) == Low(c0) && Field(c0, 11, 5) == High(c0) && Field(c0, 11, 1) == Bit11(c0)
    && Field(c0, 14, 2) == Top(c0) < 4
    && (c0 == 0 <==> row == 0 && Low(c0) == 0 && High(c0) == 0)
  }

  /** Opcodes of other widths. */
  ghost predicate Widths(c0: nat, row: nat) {
    && Opcode5(c0) == row / 2 && Opcode4(c0) == row / 4 && Opcode7(c0) == 2 * row + Bit4(c0)
    && Field(c0, 5, 1) == row % 2
  }

  /** What they read in the second. */
  ghost predicate SecondFacts(c1: nat) {
    && Reg3(c1) == Reg3Of(c1)
    && Field(c1, 0, 1) == Bit0(c1) == Bits3to0(c1) % 2 && Field(c1, 0, 3) == Bits2to0(c1) == Bits3to0(c1) % 8
    && Field(c1, 0, 4) == Bits3to0(c1) < 16
    && Field(c1, 1, 1) == Bit1(c1) < 2 && Field(c1, 1, 2) == Bits2to1(c1) == Bits3to1(c1) % 4
    && Field(c1, 1, 3) == Bits3to1(c1) < 8 && Field(c1, 1, 4) == Bits4to1(c1) && Field(c1, 4, 1) == Bit4(c1) < 2
  }

  ghost predicate SubWidths(c1: nat, row: nat) {
    SubOpcode(c1) == row < 64 && SubOpcode5(c1) == row / 2 && Sub10to8(c1) == row / 8 && Sub6to5(c1) == row % 4
  }

  lemma FirstFields(c0: Half)
    ensures Reg1(c0) == Low(c0) && Reg2(c0) == High(c0)
    ensures Field(c0, 0, 1) == Bit0(c0) && Field(c0, 4, 1) == Bit4(c0) && Field(c0, 5, 1) == c0 / 0x20 % 2
    ensures Field(c0, 0, 5) == Low(c0) && Field(c0, 11, 5) == High(c0) && Field(c0, 11, 1) == Bit11(c0)
    ensures Field(c0, 14, 2) == Top(c0) < 4
  {
    Powers();
    hide Pow2;
  }

  lemma FirstOpcodes(c0: Half)
    ensures Opcode5(c0) == Opcode(c0) / 2 && Opcode4(c0) == Opcode(c0) / 4 && c0 / 0x20 % 2 == Opcode(c0) % 2
    ensures Opcode7(c0) == 2 * Opcode(c0) + Bit4(c0) && Bit4(c0) < 2
  {
    var x := c0 / 0x20;
    LowSix(x);
    assert c0 / 0x40 == x / 2 && c0 / 0x80 == x / 4;
    Low7(c0 / 0x10);
    assert c0 / 0x10 / 2 == x;
  }

  lemma LowSix(x: nat)
    ensures x / 2 % 0x20 == x % 0x40 / 2 && x / 4 % 0x10 == x % 0x40 / 4 && x % 0x40 % 2 == x % 2
  {
    var q, r := x / 0x40, x % 0x40;
    Multiple(0x20 * q, 2, r);
    Multiple(0x10 * q, 4, r);
    assert (0x20 * q + r / 2) % 0x20 == r / 2 && (0x10 * q + r / 4) % 0x10 == r / 4;
  }

  /** The first halfword as the tables see it. */
  lemma FirstIsBits(c0: Half)
    ensures FirstFacts(c0, c0 / 0x20 % 0x40) && Widths(c0, c0 / 0x20 % 0x40)
  {
    FirstFields(c0);
    FirstOpcodes(c0);
    Split6(c0);
    assert Low(c0) == c0 % 0x20 && High(c0) == c0 / 0x800 && Bit0(c0) == c0 % 2;
    hide Field, Reg1, Reg2, Bit4, Bit11, Top, Opcode4, Opcode5, Opcode7;
  }

  lemma SecondFields(c1: Half)
    ensures Reg3(c1) == Reg3Of(c1)
    ensures Field(c1, 0, 1) == Bit0(c1) && Field(c1, 0, 3) == Bits2to0(c1) && Field(c1, 0, 4) == Bits3to0(c1)
    ensures Field(c1, 1, 1) == Bit1(c1) && Field(c1, 1, 2) == Bits2to1(c1) && Field(c1, 1, 3) == Bits3to1(c1)
    ensures Field(c1, 1, 4) == Bits4to1(c1) && Field(c1, 4, 1) == Bit4(c1)
  {
    Powers();
    hide Pow2;
  }

  lemma Multiple(k: nat, m: nat, r: nat)
    requires m in {2, 4, 8}
    ensures (m * k + r) % m == r % m && (m * k + r) / m == k + r / m
  {
  }

  lemma LowFour(x: nat)
    ensures x % 0x10 % 2 == x % 2 && x % 0x10 % 8 == x % 8
  {
    var q, r := x / 0x10, x % 0x10;
    Multiple(2 * q, 8, r);
    Multiple(8 * q, 2, r);
  }

  lemma LowThree(x: nat)
    ensures x % 8 % 4 == x % 4
  {
    Multiple(2 * (x / 8), 4, x % 8);
  }

  lemma SecondIsBits(c1: Half)
    ensures SecondFacts(c1)
  {
    SecondFields(c1);
    LowFour(c1);
    LowThree(c1 / 2);
    hide Field, Reg3, Reg3Of;
  }

  lemma SubOpcodes(c1: Half)
    ensures SubWidths(c1, c1 / 0x20 % 0x40)
  {
    var x := c1 / 0x20;
    LowSix(x);
    SubLow(x);
    assert c1 / 0x40 == x / 2 && c1 / 0x100 == x / 8;
  }

  lemma SubLow(x: nat)
    ensures x / 8 % 8 == x % 0x40 / 8 && x % 0x40 % 4 == x % 4
  {
    var q, r := x / 0x40, x % 0x40;
    Multiple(8 * q, 8, r);
    Multiple(q, 8, r / 8);
    Multiple(0x10 * q, 4, r);
  }

  // ---- what the rows name ------------------------------------------------------------------

  lemma BaseRows0Name(op: OpCode, format: Format, c0: nat, c1: nat, row: nat)
    requires FirstFacts(c0, row) && Widths(c0, row) && SecondFacts(c1) && row < 16
    ensures BaseRows0(row, c0, c1) == Some(OpType(op, format)) <==> BaseCarries(op, format, c0, c1)
  {
    hide Field, Opcode, Opcode4, Opcode5, Opcode7, Low, High, Top, Reg1, Reg2, Bit0, Bit1, Bit4, Bit11;
    hide SubOpcode, SubOpcode5, Sub10to8, Sub6to5, Reg3, Reg3Of, Bits2to0, Bits3to0, Bits2to1, Bits3to1, Bits4to1;
  }

  lemma BaseRows16Name(op: OpCode, format: Format, c0: nat, c1: nat, row: nat)
    requires FirstFacts(c0, row) && Widths(c0, row) && SecondFacts(c1) && 16 <= row < 32
    ensures BaseRows16(row, c0, c1) == Some(OpType(op, format)) <==> BaseCarries(op, format, c0, c1)
  {
    hide Field, Opcode, Opcode4, Opcode5, Opcode7, Low, High, Top, Reg1, Reg2, Bit0, Bit1, Bit4, Bit11;
    hide SubOpcode, SubOpcode5, Sub10to8, Sub6to5, Reg3, Reg3Of, Bits2to0, Bits3to0, Bits2to1, Bits3to1, Bits4to1;
  }

  lemma BaseRows32Name(op: OpCode, format: Format, c0: nat, c1: nat, row: nat)
    requires FirstFacts(c0, row) && Widths(c0, row) && SecondFacts(c1) && 32 <= row < 48
    ensures BaseRows32(row, c0, c1) == Some(OpType(op, format)) <==> BaseCarries(op, format, c0, c1)
  {
    hide Field, Opcode, Opcode4, Opcode5, Opcode7, Low, High, Top, Reg1, Reg2, Bit0, Bit1, Bit4, Bit11;
    hide SubOpcode, SubOpcode5, Sub10to8, Sub6to5, Reg3, Reg3Of, Bits2to0, Bits3to0, Bits2to1, Bits3to1, Bits4to1;
  }

  lemma BaseRows48Name(op: OpCode, format: Format, c0: nat, c1: nat, row: nat)
    requires FirstFacts(c0, row) && Widths(c0, row) && SecondFacts(c1) && 48 <= row < 64
    requires row == 63 ==> Bit0(c1) == 1
    ensures BaseRows48(row, c0, c1) == Some(OpType(op, format)) <==> BaseCarries(op, format, c0, c1)
  {
    hide Field, Opcode, Opcode4, Opcode5, Opcode7, Low, High, Top, Reg1, Reg2, Bit0, Bit1, Bit4, Bit11;
    hide SubOpcode, SubOpcode5, Sub10to8, Sub6to5, Reg3, Reg3Of, Bits2to0, Bits3to0, Bits2to1, Bits3to1, Bits4to1;
  }

  lemma ExtendRows0Name(op: OpCode, format: Format, c0: nat, c1: nat, row: nat)
    requires FirstFacts(c0, 63) && SecondFacts(c1) && SubWidths(c1, row) && row < 16
    ensures ExtendRows0(row, c0, c1) == Some(OpType(op, format)) <==> ExtendedCarries(op, format, c0, c1)
  {
    hide Field, Opcode, Opcode4, Opcode5, Opcode7, Low, High, Top, Reg1, Reg2, Bit0, Bit1, Bit4, Bit11;
    hide SubOpcode, SubOpcode5, Sub10to8, Sub6to5, Reg3, Reg3Of, Bits2to0, Bits3to0, Bits2to1, Bits3to1, Bits4to1;
  }

  lemma ExtendRows16Name(op: OpCode, format: Format, c0: nat, c1: nat, row: nat)
    requires FirstFacts(c0, 63) && SecondFacts(c1) && SubWidths(c1, row) && 16 <= row < 32
    ensures ExtendRows16(row, c0, c1) == Some(OpType(op, format)) <==> ExtendedCarries(op, format, c0, c1)
  {
    hide Field, Opcode, Opcode4, Opcode5, Opcode7, Low, High, Top, Reg1, Reg2, Bit0, Bit1, Bit4, Bit11;
    hide SubOpcode, SubOpcode5, Sub10to8, Sub6to5, Reg3, Reg3Of, Bits2to0, Bits3to0, Bits2to1, Bits3to1, Bits4to1;
  }

  lemma ExtendRows32Name(op: OpCode, format: Format, c0: nat, c1: nat, row: nat)
    requires FirstFacts(c0, 63) && SecondFacts(c1) && SubWidths(c1, row) && 32 <= row < 48 && row != 34
    ensures ExtendRows32(row, c0, c1) == Some(OpType(op, format)) <==> ExtendedCarries(op, format, c0, c1)
  {
    hide Field, Opcode, Opcode4, Opcode5, Opcode7, Low, High, Top, Reg1, Reg2, Bit0, Bit1, Bit4, Bit11;
    hide SubOpcode, SubOpcode5, Sub10to8, Sub6to5, Reg3, Reg3Of, Bits2to0, Bits3to0, Bits2to1, Bits3to1, Bits4to1;
  }

  lemma ExtendRow34Name(op: OpCode, format: Format, c0: nat, c1: nat, row: nat)
    requires FirstFacts(c0, 63) && SecondFacts(c1) && SubWidths(c1, row) && row == 34
    ensures ExtendRows32(row, c0, c1) == Some(OpType(op, format)) <==> ExtendedCarries(op, format, c0, c1)
  {
    hide Field, Opcode, Opcode4, Opcode5, Opcode7, Low, High, Top, Reg1, Reg2, Bit0, Bit1, Bit4, Bit11;
    hide SubOpcode, SubOpcode5, Sub10to8, Sub6to5, Reg3, Reg3Of, Bits2to0, Bits3to0, Bits2to1, Bits3to1, Bits4to1;
  }

  lemma ExtendRows48Name(op: OpCode, format: Format, c0: nat, c1: nat, row: nat)
    requires FirstFacts(c0, 63) && SecondFacts(c1) && SubWidths(c1, row) && 48 <= row < 64
    ensures ExtendRows48(row, c0, c1) == Some(OpType(op, format)) <==> ExtendedCarries(op, format, c0, c1)
  {
    hide Field, Opcode, Opcode4, Opcode5, Opcode7, Low, High, Top, Reg1, Reg2, Bit0, Bit1, Bit4, Bit11;
    hide SubOpcode, SubOpcode5, Sub10to8, Sub6to5, Reg3, Reg3Of, Bits2to0, Bits3to0, Bits2to1, Bits3to1, Bits4to1;
  }

  /**
    The tables name an operation and its format exactly for the code words that carry its bits: every code
    word they accept carries the bits of the operation it is given, every code word that carries them is
    given it, and none carries the bits of two.
   */
  lemma ClassifiedIffCarried(code: Code, op: OpCode, format: Format)
    ensures Classify(code) == Some(OpType(op, format)) <==> Carries(op, format, code)
  {
    var c0, c1 := code.c0, code.c1;
    FirstIsBits(c0);
    SecondIsBits(c1);
    SubOpcodes(c1);
    assert Opcode(c0) == c0 / 0x20 % 0x40 && Bit0(c1) == c1 % 2;
    if IsExtended(code) {
      ExtendedRowNames(op, format, c0, c1, c1 / 0x20 % 0x40);
    } else {
      BaseRowNames(op, format, c0, c1, c0 / 0x20 % 0x40);
    }
    hide FirstFacts, SecondFacts, Widths, SubWidths, BaseRow, ExtendRow, BaseCarries, ExtendedCarries, Opcode, Bit0;
  }

  lemma BaseRowNames(op: OpCode, format: Format, c0: nat, c1: nat, row: nat)
    requires FirstFacts(c0, row) && Widths(c0, row) && SecondFacts(c1)
    requires row == 63 ==> Bit0(c1) == 1
    ensures BaseRow(row, c0, c1) == Some(OpType(op, format)) <==> BaseCarries(op, format, c0, c1)
  {
    if row < 16 { BaseRows0Name(op, format, c0, c1, row); }
    else if row < 32 { BaseRows16Name(op, format, c0, c1, row); }
    else if row < 48 { BaseRows32Name(op, format, c0, c1, row); }
    else { assert row < 64; BaseRows48Name(op, format, c0, c1, row); }
    hide BaseRows0, BaseRows16, BaseRows32, BaseRows48, BaseCarries, FirstFacts, SecondFacts, Widths;
  }

  lemma ExtendedRowNames(op: OpCode, format: Format, c0: nat, c1: nat, row: nat)
    requires FirstFacts(c0, 63) && SecondFacts(c1) && SubWidths(c1, row)
    ensures ExtendRow(row, c0, c1) == Some(OpType(op, format)) <==> ExtendedCarries(op, format, c0, c1)
  {
    if row < 16 { ExtendRows0Name(op, format, c0, c1, row); }
    else if row < 32 { ExtendRows16Name(op, format, c0, c1, row); }
    else if row == 34 { ExtendRow34Name(op, format, c0, c1, row); }
    else if row < 48 { ExtendRows32Name(op, format, c0, c1, row); }
    else { assert row < 64; ExtendRows48Name(op, format, c0, c1, row); }
    hide ExtendRows0, ExtendRows16, ExtendRows32, ExtendRows48, ExtendedCarries, FirstFacts, SecondFacts, SubWidths;
  }
}
