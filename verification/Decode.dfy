/**
  op_parse and the format decoders (src/cpu/cpu_dec/op_parse.c, src/cpu/cpu_dec/op_dec.c), with the
  inverse that puts the fields back into a code word.
 */
module Decode {
  import opened Results
  import opened OpTable

  type Half = h: int | 0 <= h < 0x1_0000

  /** The three halfwords an instruction may take. */
  datatype Code = Code(c0: Half, c1: Half, c2: Half)

  /** The fields of the format that was decoded. */
  datatype Fields =
    | Type1(opcode: nat, reg1: nat, reg2: nat)
    | Type2(opcode: nat, imm: nat, reg2: nat)
    | Type3(opcode: nat, disp: nat, cond: nat)
    | Type4(opcode: nat, disp: nat, reg2: nat, gen: nat, opcode2: nat, disp2: nat)
    | Type5(opcode: nat, reg2: nat, disp: nat)
    | Type6(opcode: nat, reg2: nat, reg1: nat, imm: nat)
    | Type7(opcode: nat, reg2: nat, reg1: nat, disp: nat, gen: nat)
    | Type8(opcode: nat, sub: nat, bit: nat, reg1: nat, offset: int)
    | Type9(opcode: nat, reg2: nat, gen: nat, rfu1: nat, rfu2: nat, sub: nat)
    | Type10(opcode: nat, rfu1: nat, gen1: nat, gen2: nat, rfu2: nat, rfu3: nat, sub: nat)
    | Type11(opcode: nat, reg2: nat, reg1: nat, rfu: nat, reg3: nat, sub1: nat, sub2: nat)
    | Type12(opcode: nat, reg2: nat, imml: nat, reg3: nat, sub1: nat, sub2: nat, immh: nat)
    | Type13(opcode: nat, rfu: nat, imm: nat, gen: nat, list: seq<nat>)
    | Type14(sub1: nat, opcode: nat, reg1: nat, reg3: nat, dispLow: nat, sub2: nat, dispHigh: nat)
    | TypeF(reg2: nat, opcode: nat, reg1: nat, reg3: nat, subopcode: nat)

  // ---- register list ---------------------------------------------------------------------

  const LIST_SIZE: nat := 32
  const LIST_BITS: nat := 11

  /** The registers of bits 21 to 31 of PREPARE and DISPOSE, from bit 21 up. */
  const LIST12: seq<nat> := [31, 29, 28, 23, 22, 21, 20, 27, 26, 25, 24]

  function BitOf(x: nat, k: nat): nat { if k == 0 then x % 2 else BitOf(x / 2, k - 1) }

  /** list[30] comes from the low bit of the first halfword, the others from bits 5 to 15 of the second. */
  function ListOf(t1: nat, t2: nat): seq<nat> {
    Marked(Zeros()[30 := t1], t2, LIST_BITS)
  }

  function Zeros(): (z: seq<nat>)
    ensures |z| == LIST_SIZE && forall i :: 0 <= i < LIST_SIZE ==> z[i] == 0
  {
    seq(LIST_SIZE, _ => 0)
  }

  function Marked(list: seq<nat>, t2: nat, n: nat): (marked: seq<nat>)
    requires |list| == LIST_SIZE && n <= LIST_BITS
    ensures |marked| == LIST_SIZE
  {
    if n == 0 then list else Marked(list, t2, n - 1)[LIST12[n - 1] := BitOf(t2, n - 1)]
  }

  /** The number whose bit k is list[LIST12[from + k]]. */
  function Gathered(list: seq<nat>, from: nat): nat
    requires |list| == LIST_SIZE && from <= LIST_BITS
    decreases LIST_BITS - from
  {
    if from == LIST_BITS then 0 else list[LIST12[from]] + 2 * Gathered(list, from + 1)
  }

  lemma {:induction false} MarkedAt(list: seq<nat>, t2: nat, n: nat, k: nat)
    requires |list| == LIST_SIZE && n <= LIST_BITS && k < LIST_BITS
    ensures Marked(list, t2, n)[LIST12[k]] == if k < n then BitOf(t2, k) else list[LIST12[k]]
    ensures Marked(list, t2, n)[30] == list[30]
  {
    if n > 0 { MarkedAt(list, t2, n - 1, k); }
  }

  function Shifted(x: nat, n: nat): nat { if n == 0 then x else Shifted(x / 2, n - 1) }

  lemma {:induction false} ShiftedBit(x: nat, n: nat)
    ensures BitOf(x, n) == Shifted(x, n) % 2 && Shifted(x, n + 1) == Shifted(x, n) / 2
  {
    if n > 0 { ShiftedBit(x / 2, n - 1); }
  }

  lemma {:induction false} GatheredIsRest(t1: nat, t2: nat, from: nat)
    requires from <= LIST_BITS && Shifted(t2, LIST_BITS) == 0
    ensures Gathered(ListOf(t1, t2), from) == Shifted(t2, from)
    decreases LIST_BITS - from
  {
    if from < LIST_BITS {
      GatheredIsRest(t1, t2, from + 1);
      MarkedAt(Zeros()[30 := t1], t2, LIST_BITS, from);
      ShiftedBit(t2, from);
    }
  }

  lemma {:induction false} ShiftedOut(x: nat, n: nat)
    requires x < Pow2(n)
    ensures Shifted(x, n) == 0
    decreases n
  {
    if n > 0 { ShiftedOut(x / 2, n - 1); }
  }

  lemma ElevenBits(t2: nat)
    requires t2 < 0x800
    ensures Shifted(t2, LIST_BITS) == 0
  {
    assert Pow2(3) == 8 && Pow2(5) == 4 * Pow2(3) && Pow2(7) == 4 * Pow2(5) && Pow2(9) == 4 * Pow2(7);
    assert Pow2(LIST_BITS) == 0x800;
    ShiftedOut(t2, LIST_BITS);
  }

  /** No register of the list is lost: the 11 bits and list[30] can be read back. */
  lemma ListRoundTrip(t1: nat, t2: nat)
    requires t2 < 0x800
    ensures ListOf(t1, t2)[30] == t1 && Gathered(ListOf(t1, t2), 0) == t2
  {
    ElevenBits(t2);
    GatheredIsRest(t1, t2, 0);
    MarkedAt(Zeros()[30 := t1], t2, LIST_BITS, 0);
  }

  // ---- decoders --------------------------------------------------------------------------

  function SignedHalf(h: Half): int { if h < 0x8000 then h else h - 0x1_0000 }

  /** OpDecode1 to OpDecode14, OpDecode_f */
  function DecodeFields(format: Format, code: Code): Fields {
    var c0: int, c1: int := code.c0, code.c1;
    match format
    case Format1 => Type1(c0 / 0x20 % 0x40, c0 % 0x20, c0 / 0x800)
    case Format2 => Type2(c0 / 0x20 % 0x40, c0 % 0x20, c0 / 0x800)
    case Format3 => Type3(c0 / 0x80 % 0x10, 8 * (c0 / 0x800) + c0 / 0x10 % 8, c0 % 0x10)
    case Format4 => Type4(c0 / 0x80 % 0x10, c0 / 2 % 0x40, c0 / 0x800, c0 % 2, c0 / 0x10 % 0x80, c0 % 0x10)
    case Format5 => Type5(c0 / 0x40 % 0x20, c0 / 0x800, 0x1_0000 * (c0 % 0x40) + c1)
    case Format6 => Type6(c0 / 0x20 % 0x40, c0 / 0x800, c0 % 0x20, c1)
    case Format7 => Type7(c0 / 0x20 % 0x40, c0 / 0x800, c0 % 0x20, c1 / 2, c1 % 2)
    case Format8 => Type8(c0 / 0x20 % 0x40, c0 / 0x4000, c0 / 0x800 % 8, c0 % 0x20, SignedHalf(code.c1))
    case Format9 => Type9(c0 / 0x20 % 0x40, c0 / 0x800, c0 % 0x20, c1 / 2 % 0x10, c1 / 0x800, c1 / 0x20 % 0x40)
    case Format10 =>
      Type10(c0 / 0x20 % 0x40, c0 / 0x800 % 4, c0 / 0x2000, c0 % 0x20, c1 / 0x800, c1 / 2 % 0x10, c1 / 0x20 % 0x40)
    case Format11 =>
      Type11(c0 / 0x20 % 0x40, c0 / 0x800, c0 % 0x20, c1 / 4 % 8, c1 / 0x800, c1 / 0x20 % 0x40, c1 / 2 % 2)
    case Format12 =>
      Type12(c0 / 0x20 % 0x40, c0 / 0x800, c0 % 0x20, c1 / 0x800, c1 / 0x80 % 0x10, c1 / 2 % 2, c1 / 4 % 0x20)
    case Format13 => Type13(c0 / 0x40 % 0x20, c0 / 0x800, c0 / 2 % 0x20, c1 % 0x20, ListOf(c0 % 2, c1 / 0x20))
    case Format14 => Type14(c0 / 0x800, c0 / 0x20 % 0x40, c0 % 0x20, c1 / 0x800, c1 / 0x10 % 0x80, c1 % 0x10, code.c2)
    case FormatF => TypeF(c0 / 0x800, c0 / 0x20 % 0x40, c0 % 0x20, c1 / 0x800, c1 % 0x400)
  }

  /** The first halfword, from the fields. */
  function First(f: Fields): nat {
    match f
    case Type1(op, r1, r2) => 0x800 * r2 + 0x20 * op + r1
    case Type2(op, imm, r2) => 0x800 * r2 + 0x20 * op + imm
    case Type3(op, disp, cond) => 0x800 * (disp / 8) + 0x80 * op + 0x10 * (disp % 8) + cond
    case Type4(op, disp, r2, gen, _, _) => 0x800 * r2 + 0x80 * op + 2 * disp + gen
    case Type5(op, r2, disp) => 0x800 * r2 + 0x40 * op + disp / 0x1_0000
    case Type6(op, r2, r1, _) => 0x800 * r2 + 0x20 * op + r1
    case Type7(op, r2, r1, _, _) => 0x800 * r2 + 0x20 * op + r1
    case Type8(op, sub, bit, r1, _) => 0x4000 * sub + 0x800 * bit + 0x20 * op + r1
    case Type9(op, r2, gen, _, _, _) => 0x800 * r2 + 0x20 * op + gen
    case Type10(op, rfu1, gen1, gen2, _, _, _) => 0x2000 * gen1 + 0x800 * rfu1 + 0x20 * op + gen2
    case Type11(op, r2, r1, _, _, _, _) => 0x800 * r2 + 0x20 * op + r1
    case Type12(op, r2, imml, _, _, _, _) => 0x800 * r2 + 0x20 * op + imml
    case Type13(op, rfu, imm, _, list) =>
      0x800 * rfu + 0x40 * op + 2 * imm + (if |list| == LIST_SIZE then list[30] else 0)
    case Type14(sub1, op, r1, _, _, _, _) => 0x800 * sub1 + 0x20 * op + r1
    case TypeF(r2, op, r1, _, _) => 0x800 * r2 + 0x20 * op + r1
  }

  /** The second halfword; bit 0 of formats 9 to 12 is put as 0 and bit 10 of format F as 1. */
  function Second(f: Fields): int {
    match f
    case Type1(_, _, _) | Type2(_, _, _) | Type3(_, _, _) | Type4(_, _, _, _, _, _) => 0
    case Type5(_, _, disp) => disp % 0x1_0000
    case Type6(_, _, _, imm) => imm
    case Type7(_, _, _, disp, gen) => 2 * disp + gen
    case Type8(_, _, _, _, offset) => offset % 0x1_0000
    case Type9(_, _, _, rfu1, rfu2, sub) => 0x800 * rfu2 + 0x20 * sub + 2 * rfu1
    case Type10(_, _, _, _, rfu2, rfu3, sub) => 0x800 * rfu2 + 0x20 * sub + 2 * rfu3
    case Type11(_, _, _, rfu, r3, sub1, sub2) => 0x800 * r3 + 0x20 * sub1 + 4 * rfu + 2 * sub2
    case Type12(_, _, _, r3, sub1, sub2, immh) => 0x800 * r3 + 0x80 * sub1 + 4 * immh + 2 * sub2
    case Type13(_, _, _, gen, list) => 0x20 * (if |list| == LIST_SIZE then Gathered(list, 0) else 0) + gen
    case Type14(_, _, _, r3, dispLow, sub2, _) => 0x800 * r3 + 0x10 * dispLow + sub2
    case TypeF(_, _, _, r3, sub) => 0x800 * r3 + 0x400 + sub
  }

  function Third(f: Fields): int { if f.Type14? then f.dispHigh else 0 }

  /** OpFormatSize, in halfwords. */
  function Halves(format: Format): nat {
    match format
    case Format1 | Format2 | Format3 | Format4 => 1
    case Format14 => 3
    case _ => 2
  }

  predicate DropsBit16(format: Format) { format in {Format9, Format10, Format11, Format12} }

  /** The two words agree on the halfwords that the format reads. */
  predicate SameBits(format: Format, a: Code, c0: int, c1: int, c2: int) {
    a.c0 == c0 && (Halves(format) >= 2 ==> a.c1 == c1) && (Halves(format) == 3 ==> a.c2 == c2)
  }

  predicate ReEncodes(format: Format, code: Code) {
    var f := DecodeFields(format, code);
    SameBits(format, code, First(f), Second(f), Third(f))
  }

  // Halfwords taken apart at fixed places and put together again.

  lemma Split6(x: nat)
    ensures x == 0x800 * (x / 0x800) + 0x20 * (x / 0x20 % 0x40) + x % 0x20
  {
    assert x / 0x20 / 0x40 == x / 0x800;
  }

  lemma Split5(x: nat)
    ensures x == 0x800 * (x / 0x800) + 0x40 * (x / 0x40 % 0x20) + x % 0x40
  {
    assert x / 0x40 / 0x20 == x / 0x800;
  }

  lemma Split4(x: nat)
    ensures x == 0x800 * (x / 0x800) + 0x80 * (x / 0x80 % 0x10) + x % 0x80
  {
    assert x / 0x80 / 0x10 == x / 0x800;
  }

  lemma Split7(x: nat)
    ensures x == 0x800 * (x / 0x800) + 0x10 * (x / 0x10 % 0x80) + x % 0x10
  {
    assert x / 0x10 / 0x80 == x / 0x800;
  }

  lemma Split1(x: nat)
    ensures x == 0x800 * (x / 0x800) + 0x400 * (x / 0x400 % 2) + x % 0x400
  {
    assert x / 0x400 / 2 == x / 0x800;
  }

  lemma SplitTop(x: nat)
    ensures x / 0x800 == 8 * (x / 0x4000) + x / 0x800 % 8 && x / 0x800 == 4 * (x / 0x2000) + x / 0x800 % 4
  {
    assert x / 0x800 / 8 == x / 0x4000 && x / 0x800 / 4 == x / 0x2000;
  }

  lemma Low5(x: nat)
    ensures x % 0x20 == 2 * (x / 2 % 0x10) + x % 2
  {
    var y := x / 0x20;
    assert x == 0x20 * y + x % 0x20 && x / 2 == 0x10 * y + x % 0x20 / 2;
  }

  lemma Low6(x: nat)
    ensures x % 0x40 == 2 * (x / 2 % 0x20) + x % 2
  {
    var y := x / 0x40;
    assert x == 0x40 * y + x % 0x40 && x / 2 == 0x20 * y + x % 0x40 / 2;
  }

  lemma Low7(x: nat)
    ensures x % 0x80 == 2 * (x / 2 % 0x40) + x % 2
  {
    var y := x / 0x80;
    assert x == 0x80 * y + x % 0x80 && x / 2 == 0x40 * y + x % 0x80 / 2;
  }

  lemma Low7ByFour(x: nat)
    ensures x % 0x80 == 0x10 * (x / 0x10 % 8) + x % 0x10
  {
    assert x / 0x10 / 8 == x / 0x80;
  }

  lemma Low4(x: nat)
    ensures x % 0x10 == 2 * (x / 2 % 8) + x % 2
  {
    var y := x / 0x10;
    assert x == 0x10 * y + x % 0x10 && x / 2 == 8 * y + x % 0x10 / 2;
  }

  lemma FirstOfRegisters(format: Format, code: Code)
    requires format in {Format1, Format2, Format6, Format7, Format9, Format11, Format12, Format14, FormatF}
    ensures First(DecodeFields(format, code)) == code.c0
  {
    Split6(code.c0);
    hide ListOf;
  }

  lemma FirstOfShort(format: Format, code: Code)
    requires format in {Format3, Format4}
    ensures First(DecodeFields(format, code)) == code.c0
  {
    var c0: int := code.c0;
    Split4(c0);
    Low7(c0);
    Low7ByFour(c0);
    hide ListOf;
    if format.Format3? {
      var top, low := c0 / 0x800, c0 / 0x10 % 8;
      assert (8 * top + low) / 8 == top && (8 * top + low) % 8 == low;
    }
  }

  lemma FirstOfOthers(format: Format, code: Code)
    requires format in {Format5, Format8, Format10, Format13}
    ensures First(DecodeFields(format, code)) == code.c0
  {
    var c0: int := code.c0;
    if format.Format5? {
      Split5(c0);
      assert (0x1_0000 * (c0 % 0x40) + code.c1) / 0x1_0000 == c0 % 0x40;
    } else if format.Format13? {
      ListRoundTrip(c0 % 2, code.c1 / 0x20);
      Split5(c0);
      Low6(c0);
    } else {
      Split6(c0);
      SplitTop(c0);
    }
    hide ListOf;
  }

  lemma FirstRoundTrip(format: Format, code: Code)
    ensures First(DecodeFields(format, code)) == code.c0
  {
    hide First, DecodeFields;
    match format {
      case Format3 | Format4 => FirstOfShort(format, code);
      case Format5 | Format8 | Format10 | Format13 => FirstOfOthers(format, code);
      case _ => FirstOfRegisters(format, code);
    }
  }

  lemma SecondOfImmediate(format: Format, code: Code)
    requires format in {Format5, Format6, Format7, Format8, Format13, Format14}
    ensures Second(DecodeFields(format, code)) == code.c1
  {
    if format.Format13? {
      SecondOfList(code);
      hide *;
    } else if format.Format14? {
      SecondOfLong(code);
      hide *;
    } else if format.Format5? {
      SecondOfWide(code);
      hide *;
    } else {
      hide ListOf, Gathered;
    }
  }

  lemma SecondOfLong(code: Code)
    ensures Second(DecodeFields(Format14, code)) == code.c1
  {
    Split7(code.c1);
    hide ListOf, Gathered;
  }

  lemma SecondOfWide(code: Code)
    ensures Second(DecodeFields(Format5, code)) == code.c1
  {
    LowHalfKept(code.c0 % 0x40, code.c1);
    hide ListOf, Gathered;
  }

  lemma LowHalfKept(high: nat, low: Half)
    ensures (0x1_0000 * high + low) % 0x1_0000 == low
  {
  }

  lemma SecondOfList(code: Code)
    ensures Second(DecodeFields(Format13, code)) == code.c1
  {
    var c1: int := code.c1;
    ListRoundTrip(code.c0 % 2, c1 / 0x20);
    hide ListOf, Gathered;
  }

  lemma SecondOfExtended(format: Format, code: Code)
    requires DropsBit16(format) || format.FormatF?
    ensures Second(DecodeFields(format, code)) == code.c1 <==>
        if format.FormatF? then code.c1 / 0x400 % 2 == 1 else code.c1 % 2 == 0
  {
    var c1: int := code.c1;
    hide ListOf;
    if format.FormatF? {
      Split1(c1);
    } else if format.Format12? {
      Split4(c1);
      Twelve(c1);
    } else if format.Format11? {
      Split6(c1);
      Eleven(c1);
    } else {
      Split6(c1);
      Low5(c1);
    }
  }

  lemma Eleven(x: nat)
    ensures x % 0x20 == 4 * (x / 4 % 8) + 2 * (x / 2 % 2) + x % 2
  {
    Low5(x);
    Low4(x / 2);
    assert x / 2 / 2 == x / 4;
  }

  lemma Twelve(x: nat)
    ensures x % 0x80 == 4 * (x / 4 % 0x20) + 2 * (x / 2 % 2) + x % 2
  {
    Low7(x);
    Low6(x / 2);
    assert x / 2 / 2 == x / 4;
  }

  lemma SecondRoundTrip(format: Format, code: Code)
    requires Halves(format) >= 2
    ensures Second(DecodeFields(format, code)) == code.c1 <==>
            (DropsBit16(format) ==> code.c1 % 2 == 0) && (format.FormatF? ==> code.c1 / 0x400 % 2 == 1)
  {
    hide Second, DecodeFields;
    if DropsBit16(format) || format.FormatF? {
      SecondOfExtended(format, code);
    } else {
      SecondOfImmediate(format, code);
    }
  }

  /**
    What a decoder keeps, exactly: re-encoding its fields gives the code back if and only if bit 16 is
    clear in formats 9 to 12 and bit 26 is set in format F, the bits those decoders drop.
   */
  lemma DecodersDropOneBit(format: Format, code: Code)
    ensures ReEncodes(format, code) <==>
            (DropsBit16(format) ==> code.c1 % 2 == 0) && (format.FormatF? ==> code.c1 / 0x400 % 2 == 1)
  {
    FirstRoundTrip(format, code);
    if Halves(format) >= 2 { SecondRoundTrip(format, code); }
    hide First, Second;
  }

  // ---- op_parse --------------------------------------------------------------------------

  /** Bits 10 to 5 of the first halfword all set and bit 16 clear. */
  predicate IsExtended(code: Code) { code.c0 / 0x20 % 0x40 == 0x3F && code.c1 % 2 == 0 }

  function Classify(code: Code): Option<OpType> {
    if IsExtended(code) then ExtendRow(code.c1 / 0x20 % 0x40, code.c0, code.c1)
    else BaseRow(code.c0 / 0x20 % 0x40, code.c0, code.c1)
  }

  datatype Parsed = Parsed(optype: OpType, fields: Fields)

  /** op_parse: None is the return value -1. */
  function Parse(code: Code): Option<Parsed> {
    match Classify(code)
    case None => None
    case Some(optype) => Some(Parsed(optype, DecodeFields(optype.formatId, code)))
  }

  predicate BaseFormat(format: Format) { !DropsBit16(format) && !format.FormatF? }

  lemma BaseRows(row: nat, c0: nat, c1: nat)
    ensures var r := BaseRow(row, c0, c1); r.Some? ==> BaseFormat(r.value.formatId)
  {
    hide Field, Reg1, Reg2, Reg3;
    BaseRowsLow(row, c0, c1);
    BaseRowsHigh(row, c0, c1);
    hide BaseRows0, BaseRows16, BaseRows32, BaseRows48;
  }

  lemma BaseRowsLow(row: nat, c0: nat, c1: nat)
    ensures var r := BaseRows0(row, c0, c1); r.Some? ==> BaseFormat(r.value.formatId)
    ensures var r := BaseRows16(row, c0, c1); r.Some? ==> BaseFormat(r.value.formatId)
  {
    hide Field, Reg1, Reg2, Reg3;
  }

  lemma BaseRowsHigh(row: nat, c0: nat, c1: nat)
    ensures var r := BaseRows32(row, c0, c1); r.Some? ==> BaseFormat(r.value.formatId)
    ensures var r := BaseRows48(row, c0, c1); r.Some? ==> BaseFormat(r.value.formatId)
  {
    hide Field, Reg1, Reg2, Reg3;
  }

  lemma ExtendRowsLow(row: nat, c0: nat, c1: nat)
    ensures var r := ExtendRows0(row, c0, c1); r.Some? ==> DropsBit16(r.value.formatId)
    ensures var r := ExtendRows16(row, c0, c1); r.Some? ==> DropsBit16(r.value.formatId)
  {
    hide Field, Reg1, Reg2, Reg3;
  }

  lemma ExtendRowsHigh(row: nat, c0: nat, c1: nat)
    ensures var r := ExtendRows32(row, c0, c1); r.Some? ==> r.value.formatId.FormatF?
    ensures var r := ExtendRows48(row, c0, c1); r.Some? ==> r.value.formatId.FormatF?
  {
    hide Field, Reg1, Reg2, Reg3;
  }

  /** The extended table chooses format F in rows 32 and up and formats 9 to 12 below. */
  lemma ExtendRows(row: nat, c0: nat, c1: nat)
    ensures var r := ExtendRow(row, c0, c1);
            r.Some? ==> if row < 32 then DropsBit16(r.value.formatId) else r.value.formatId.FormatF?
  {
    ExtendRowsLow(row, c0, c1);
    ExtendRowsHigh(row, c0, c1);
    hide ExtendRows0, ExtendRows16, ExtendRows32, ExtendRows48;
  }

  /** The dispatch that chose the format fixes the bits its decoder drops. */
  lemma DispatchFixesDroppedBits(code: Code)
    requires Classify(code).Some?
    ensures var format := Classify(code).value.formatId;
            (DropsBit16(format) ==> code.c1 % 2 == 0)
            && (format.FormatF? ==> code.c1 % 2 == 0 && code.c1 / 0x400 % 2 == 1)
  {
    hide ExtendRow, BaseRow;
    if IsExtended(code) {
      TopOfRow(code.c1);
      ExtendRows(code.c1 / 0x20 % 0x40, code.c0, code.c1);
    } else {
      BaseRows(code.c0 / 0x20 % 0x40, code.c0, code.c1);
    }
  }

  lemma TopOfRow(c1: nat)
    ensures c1 / 0x400 % 2 == 1 <==> c1 / 0x20 % 0x40 >= 32
  {
    var x := c1 / 0x20;
    assert c1 / 0x400 == x / 0x20;
    var q, r := x / 0x40, x % 0x40;
    assert x / 0x20 == 2 * q + r / 0x20;
  }

  /**
    Decoding loses nothing: every code word the parser accepts can be put together again from the chosen format
    and its fields.
   */
  lemma AcceptedCodeReEncodes(code: Code)
    requires Parse(code).Some?
    ensures var p := Parse(code).value;
            SameBits(p.optype.formatId, code, First(p.fields), Second(p.fields), Third(p.fields))
  {
    DispatchFixesDroppedBits(code);
    DecodersDropOneBit(Classify(code).value.formatId, code);
    hide Classify, First, Second, DecodeFields;
  }

  lemma ShortRowsReadOneHalfword(row: nat, c0: nat, c1: nat, other: nat)
    ensures var r := BaseRow(row, c0, c1); r.Some? && Halves(r.value.formatId) == 1 ==>
              row < 63 && BaseRow(row, c0, other) == r
  {
    ShortRowsLow(row, c0, c1, other);
    ShortRowsHigh(row, c0, c1, other);
    hide BaseRows0, BaseRows16, BaseRows32, BaseRows48;
  }

  lemma ShortRowsLow(row: nat, c0: nat, c1: nat, other: nat)
    ensures BaseRows0(row, c0, other) == BaseRows0(row, c0, c1) && BaseRows16(row, c0, other) == BaseRows16(row, c0, c1)
  {
    hide Field, Reg1, Reg2, Reg3;
  }

  lemma ShortRowsHigh(row: nat, c0: nat, c1: nat, other: nat)
    ensures var r := BaseRows32(row, c0, c1); r.Some? && Halves(r.value.formatId) == 1 ==>
              row < 48 && BaseRows32(row, c0, other) == r
    ensures var r := BaseRows48(row, c0, c1); r.Some? ==> Halves(r.value.formatId) > 1
  {
    hide Field, Reg1, Reg2, Reg3;
  }

  lemma ClassifyReadsOwnHalfwords(a: Code, b: Code)
    requires Classify(a).Some? && a.c0 == b.c0 && (Halves(Classify(a).value.formatId) >= 2 ==> a.c1 == b.c1)
    ensures Classify(b) == Classify(a)
  {
    if Halves(Classify(a).value.formatId) == 1 {
      if IsExtended(a) { ExtendRows(a.c1 / 0x20 % 0x40, a.c0, a.c1); }
      ShortRowsReadOneHalfword(a.c0 / 0x20 % 0x40, a.c0, a.c1, b.c1);
    }
    hide BaseRow, ExtendRow;
  }

  /**
    An instruction is its own halfwords and nothing else: a code word parses to the same operation and
    fields as an accepted one exactly when it agrees with it on the one, two or three halfwords of its
    format, whatever follows them.
   */
  lemma SameInstructionIffSameHalfwords(a: Code, b: Code)
    requires Parse(a).Some?
    ensures Parse(b) == Parse(a) <==> SameBits(Parse(a).value.optype.formatId, a, b.c0, b.c1, b.c2)
  {
    AcceptedCodeReEncodes(a);
    if Parse(b) == Parse(a) {
      AcceptedCodeReEncodes(b);
      hide Parse, First, Second;
    }
    if SameBits(Parse(a).value.optype.formatId, a, b.c0, b.c1, b.c2) {
      ClassifyReadsOwnHalfwords(a, b);
      FieldsReadOwnHalfwords(Classify(a).value.formatId, a, b);
      hide Classify, DecodeFields;
    }
  }

  lemma FieldsReadOwnHalfwords(format: Format, a: Code, b: Code)
    requires SameBits(format, a, b.c0, b.c1, b.c2)
    ensures DecodeFields(format, a) == DecodeFields(format, b)
  {
    hide ListOf;
  }

  /** The format can be read off the fields. */
  function FormatOf(f: Fields): Format {
    match f
    case Type1(_, _, _) => Format1
    case Type2(_, _, _) => Format2
    case Type3(_, _, _) => Format3
    case Type4(_, _, _, _, _, _) => Format4
    case Type5(_, _, _) => Format5
    case Type6(_, _, _, _) => Format6
    case Type7(_, _, _, _, _) => Format7
    case Type8(_, _, _, _, _) => Format8
    case Type9(_, _, _, _, _, _) => Format9
    case Type10(_, _, _, _, _, _, _) => Format10
    case Type11(_, _, _, _, _, _, _) => Format11
    case Type12(_, _, _, _, _, _, _) => Format12
    case Type13(_, _, _, _, _) => Format13
    case Type14(_, _, _, _, _, _, _) => Format14
    case TypeF(_, _, _, _, _) => FormatF
  }

  lemma FormatOfDecoded(format: Format, code: Code)
    ensures FormatOf(DecodeFields(format, code)) == format
  {
    hide ListOf;
  }
}
