/**
  An assembler for the V850E2M, and op_parse as its exact inverse: fields go to their places in the
  halfwords, and the fixed bits of the operation decide what they mean.
 */
module Assembler {
  import opened Results
  import opened OpTable
  import opened Decode
  import opened OpBits
  import opened OpCoding

  // ---- fields that fit -----------------------------------------------------------------------

  /** A register list: bits for r20 to r31 and nothing else. */
  predicate ListFits(list: seq<nat>) {
    |list| == LIST_SIZE && forall i :: 0 <= i < LIST_SIZE ==> list[i] < 2 && (i < 20 ==> list[i] == 0)
  }

  /** Every field fits its width; the two readings of format 4 agree. */
  predicate Fits(f: Fields) {
    match f
    case Type1(op, r1, r2) => op < 0x40 && r1 < 0x20 && r2 < 0x20
    case Type2(op, imm, r2) => op < 0x40 && imm < 0x20 && r2 < 0x20
    case Type3(op, disp, cond) => op < 0x10 && disp < 0x100 && cond < 0x10
    case Type4(op, disp, r2, gen, op2, disp2) =>
      op < 0x10 && disp < 0x40 && r2 < 0x20 && gen < 2 && op2 == 8 * op + disp / 8 && disp2 == 2 * (disp % 8) + gen
    case Type5(op, r2, disp) => op < 0x20 && r2 < 0x20 && disp < 0x40_0000
    case Type6(op, r2, r1, imm) => op < 0x40 && r2 < 0x20 && r1 < 0x20 && imm < 0x1_0000
    case Type7(op, r2, r1, disp, gen) => op < 0x40 && r2 < 0x20 && r1 < 0x20 && disp < 0x8000 && gen < 2
    case Type8(op, sub, bit, r1, offset) => op < 0x40 && sub < 4 && bit < 8 && r1 < 0x20 && -0x8000 <= offset < 0x8000
    case Type9(op, r2, gen, rfu1, rfu2, sub) =>
      op < 0x40 && r2 < 0x20 && gen < 0x20 && rfu1 < 0x10 && rfu2 < 0x20 && sub < 0x40
    case Type10(op, rfu1, gen1, gen2, rfu2, rfu3, sub) =>
      op < 0x40 && rfu1 < 4 && gen1 < 8 && gen2 < 0x20 && rfu2 < 0x20 && rfu3 < 0x10 && sub < 0x40
    case Type11(op, r2, r1, rfu, r3, sub1, sub2) =>
      op < 0x40 && r2 < 0x20 && r1 < 0x20 && rfu < 8 && r3 < 0x20 && sub1 < 0x40 && sub2 < 2
    case Type12(op, r2, imml, r3, sub1, sub2, immh) =>
      op < 0x40 && r2 < 0x20 && imml < 0x20 && r3 < 0x20 && sub1 < 0x10 && sub2 < 2 && immh < 0x20
    case Type13(op, rfu, imm, gen, list) => op < 0x20 && rfu < 0x20 && imm < 0x20 && gen < 0x20 && ListFits(list)
    case Type14(sub1, op, r1, r3, dispLow, sub2, dispHigh) =>
      sub1 < 0x20 && op < 0x40 && r1 < 0x20 && r3 < 0x20 && dispLow < 0x80 && sub2 < 0x10 && dispHigh < 0x1_0000
    case TypeF(r2, op, r1, r3, sub) => r2 < 0x20 && op < 0x40 && r1 < 0x20 && r3 < 0x20 && sub < 0x400
  }

  // ---- numbers put together and taken apart ----------------------------------------------------

  lemma By2(k: nat, r: nat)
    requires r < 0x2
    ensures (0x2 * k + r) / 0x2 == k && (0x2 * k + r) % 0x2 == r
  {
  }

  lemma By4(k: nat, r: nat)
    requires r < 0x4
    ensures (0x4 * k + r) / 0x4 == k && (0x4 * k + r) % 0x4 == r
  {
  }

  lemma By8(k: nat, r: nat)
    requires r < 0x8
    ensures (0x8 * k + r) / 0x8 == k && (0x8 * k + r) % 0x8 == r
  {
  }

  lemma By10(k: nat, r: nat)
    requires r < 0x10
    ensures (0x10 * k + r) / 0x10 == k && (0x10 * k + r) % 0x10 == r
  {
  }

  lemma By20(k: nat, r: nat)
    requires r < 0x20
    ensures (0x20 * k + r) / 0x20 == k && (0x20 * k + r) % 0x20 == r
  {
  }

  lemma By40(k: nat, r: nat)
    requires r < 0x40
    ensures (0x40 * k + r) / 0x40 == k && (0x40 * k + r) % 0x40 == r
  {
  }

  lemma By80(k: nat, r: nat)
    requires r < 0x80
    ensures (0x80 * k + r) / 0x80 == k && (0x80 * k + r) % 0x80 == r
  {
  }

  lemma By400(k: nat, r: nat)
    requires r < 0x400
    ensures (0x400 * k + r) / 0x400 == k && (0x400 * k + r) % 0x400 == r
  {
  }

  lemma By800(k: nat, r: nat)
    requires r < 0x800
    ensures (0x800 * k + r) / 0x800 == k && (0x800 * k + r) % 0x800 == r
  {
  }

  lemma By2000(k: nat, r: nat)
    requires r < 0x2000
    ensures (0x2000 * k + r) / 0x2000 == k && (0x2000 * k + r) % 0x2000 == r
  {
  }

  lemma By4000(k: nat, r: nat)
    requires r < 0x4000
    ensures (0x4000 * k + r) / 0x4000 == k && (0x4000 * k + r) % 0x4000 == r
  {
  }

  lemma Three(a: nat, b: nat, c: nat)
    requires a < 0x20 && b < 0x40 && c < 0x20
    ensures var x := 0x800 * a + 0x20 * b + c;
            x < 0x1_0000 && x / 0x800 == a && x / 0x20 % 0x40 == b && x % 0x20 == c
  {
    By800(a, 0x20 * b + c);
    By20(0x40 * a + b, c);
    By40(a, b);
  }

  lemma FiveBitOpcode(a: nat, b: nat, c: nat)
    requires a < 0x20 && b < 0x20 && c < 0x40
    ensures var x := 0x800 * a + 0x40 * b + c;
            x < 0x1_0000 && x / 0x800 == a && x / 0x40 % 0x20 == b && x % 0x40 == c
  {
    By800(a, 0x40 * b + c);
    By40(0x20 * a + b, c);
    By20(a, b);
  }

  lemma FourBitOpcode(a: nat, b: nat, c: nat)
    requires a < 0x20 && b < 0x10 && c < 0x80
    ensures var x := 0x800 * a + 0x80 * b + c;
            x < 0x1_0000 && x / 0x800 == a && x / 0x80 % 0x10 == b && x % 0x80 == c
  {
    By800(a, 0x80 * b + c);
    By80(0x10 * a + b, c);
    By10(a, b);
  }

  /** Format 3: the displacement is in two places. */
  lemma Half3(disp: nat, op: nat, cond: nat)
    requires disp < 0x100 && op < 0x10 && cond < 0x10
    ensures var x := 0x800 * (disp / 8) + 0x80 * op + 0x10 * (disp % 8) + cond;
            && x < 0x1_0000 && x / 0x80 % 0x10 == op && 8 * (x / 0x800) + x / 0x10 % 8 == disp && x % 0x10 == cond
  {
    var high, low := disp / 8, disp % 8;
    FourBitOpcode(high, op, 0x10 * low + cond);
    By10(0x80 * high + 8 * op + low, cond);
    By8(0x10 * high + op, low);
  }

  /** Format 4: two readings of the low bits. */
  lemma Half4(r2: nat, op: nat, disp: nat, gen: nat)
    requires r2 < 0x20 && op < 0x10 && disp < 0x40 && gen < 2
    ensures var x := 0x800 * r2 + 0x80 * op + 2 * disp + gen;
            && x < 0x1_0000 && x / 0x800 == r2 && x / 0x80 % 0x10 == op && x / 2 % 0x40 == disp && x % 2 == gen
            && x / 0x10 % 0x80 == 8 * op + disp / 8 && x % 0x10 == 2 * (disp % 8) + gen
  {
    var high, low := disp / 8, disp % 8;
    FourBitOpcode(r2, op, 2 * disp + gen);
    By2(0x400 * r2 + 0x40 * op + disp, gen);
    By40(0x10 * r2 + op, disp);
    By10(0x80 * r2 + 8 * op + high, 2 * low + gen);
    By80(r2, 8 * op + high);
  }

  lemma Half8(sub: nat, bit: nat, op: nat, r1: nat)
    requires sub < 4 && bit < 8 && op < 0x40 && r1 < 0x20
    ensures var x := 0x4000 * sub + 0x800 * bit + 0x20 * op + r1;
            x < 0x1_0000 && x / 0x4000 == sub && x / 0x800 % 8 == bit && x / 0x20 % 0x40 == op && x % 0x20 == r1
  {
    Three(8 * sub + bit, op, r1);
    By4000(sub, 0x800 * bit + 0x20 * op + r1);
    By8(sub, bit);
  }

  lemma Half10(gen1: nat, rfu1: nat, op: nat, gen2: nat)
    requires gen1 < 8 && rfu1 < 4 && op < 0x40 && gen2 < 0x20
    ensures var x := 0x2000 * gen1 + 0x800 * rfu1 + 0x20 * op + gen2;
            x < 0x1_0000 && x / 0x2000 == gen1 && x / 0x800 % 4 == rfu1 && x / 0x20 % 0x40 == op && x % 0x20 == gen2
  {
    Three(4 * gen1 + rfu1, op, gen2);
    By4(gen1, rfu1);
    By2000(gen1, 0x800 * rfu1 + 0x20 * op + gen2);
  }

  /** The second halfword of formats 9 and 10. */
  lemma Half9(a: nat, b: nat, c: nat)
    requires a < 0x20 && b < 0x40 && c < 0x10
    ensures var x := 0x800 * a + 0x20 * b + 2 * c;
            x < 0x1_0000 && x / 0x800 == a && x / 0x20 % 0x40 == b && x / 2 % 0x10 == c
  {
    Three(a, b, 2 * c);
    By2(0x400 * a + 0x10 * b + c, 0);
    By10(0x40 * a + b, c);
  }

  lemma Half11(r3: nat, sub1: nat, rfu: nat, sub2: nat)
    requires r3 < 0x20 && sub1 < 0x40 && rfu < 8 && sub2 < 2
    ensures var x := 0x800 * r3 + 0x20 * sub1 + 4 * rfu + 2 * sub2;
            && x < 0x1_0000 && x / 0x800 == r3 && x / 0x20 % 0x40 == sub1 && x / 4 % 8 == rfu && x / 2 % 2 == sub2
  {
    Three(r3, sub1, 4 * rfu + 2 * sub2);
    By4(0x200 * r3 + 8 * sub1 + rfu, 2 * sub2);
    By8(0x40 * r3 + sub1, rfu);
    By2(0x400 * r3 + 0x10 * sub1 + 2 * rfu + sub2, 0);
    By2(0x200 * r3 + 8 * sub1 + rfu, sub2);
  }

  lemma Half12(r3: nat, sub1: nat, immh: nat, sub2: nat)
    requires r3 < 0x20 && sub1 < 0x10 && immh < 0x20 && sub2 < 2
    ensures var x := 0x800 * r3 + 0x80 * sub1 + 4 * immh + 2 * sub2;
            && x < 0x1_0000 && x / 0x800 == r3 && x / 0x80 % 0x10 == sub1 && x / 4 % 0x20 == immh && x / 2 % 2 == sub2
  {
    FourBitOpcode(r3, sub1, 4 * immh + 2 * sub2);
    By4(0x200 * r3 + 0x20 * sub1 + immh, 2 * sub2);
    By20(0x10 * r3 + sub1, immh);
    By2(0x400 * r3 + 0x40 * sub1 + 2 * immh + sub2, 0);
    By2(0x200 * r3 + 0x20 * sub1 + immh, sub2);
  }

  lemma Half13(rfu: nat, op: nat, imm: nat, bit: nat)
    requires rfu < 0x20 && op < 0x20 && imm < 0x20 && bit < 2
    ensures var x := 0x800 * rfu + 0x40 * op + 2 * imm + bit;
            x < 0x1_0000 && x / 0x40 % 0x20 == op && x / 0x800 == rfu && x / 2 % 0x20 == imm && x % 2 == bit
  {
    FiveBitOpcode(rfu, op, 2 * imm + bit);
    By2(0x400 * rfu + 0x20 * op + imm, bit);
    By20(0x20 * rfu + op, imm);
  }

  lemma Half14(a: nat, b: nat, c: nat)
    requires a < 0x20 && b < 0x80 && c < 0x10
    ensures var x := 0x800 * a + 0x10 * b + c; x < 0x1_0000 && x / 0x800 == a && x / 0x10 % 0x80 == b && x % 0x10 == c
  {
    By800(a, 0x10 * b + c);
    By10(0x80 * a + b, c);
    By80(a, b);
  }

  lemma HalfF(r3: nat, sub: nat)
    requires r3 < 0x20 && sub < 0x400
    ensures var x := 0x800 * r3 + 0x400 + sub; x < 0x1_0000 && x / 0x800 == r3 && x % 0x400 == sub
  {
    By800(r3, 0x400 + sub);
    By400(2 * r3 + 1, sub);
  }

  // ---- the register list -----------------------------------------------------------------------

  lemma {:induction false} MarkedElsewhere(list: seq<nat>, t2: nat, n: nat, i: nat)
    requires |list| == LIST_SIZE && n <= LIST_BITS && i < 20
    ensures Marked(list, t2, n)[i] == list[i]
  {
    if n > 0 { MarkedElsewhere(list, t2, n - 1, i); }
  }

  /** The register of list bit j. */
  function ListRegister(j: nat): (i: nat)
    requires j < LIST_BITS
    ensures 20 <= i < LIST_SIZE && i != 30
  {
    LIST12[j]
  }

  lemma {:induction false} BitOfGathered(list: seq<nat>, from: nat, j: nat)
    requires ListFits(list) && from <= j < LIST_BITS
    ensures BitOf(Gathered(list, from), j - from) == list[ListRegister(j)]
    decreases j - from
  {
    GatheredSplit(list, from);
    hide *;
    if j == from {
      LowestIs(Gathered(list, from));
    } else {
      BitOfGathered(list, from + 1, j);
      HigherIs(Gathered(list, from), j - from);
    }
  }

  lemma LowestIs(g: nat)
    ensures BitOf(g, 0) == g % 2
  {
  }

  lemma HigherIs(g: nat, k: nat)
    requires k > 0
    ensures BitOf(g, k) == BitOf(g / 2, k - 1)
  {
  }

  lemma GatheredSplit(list: seq<nat>, from: nat)
    requires ListFits(list) && from < LIST_BITS
    ensures Gathered(list, from) % 2 == list[ListRegister(from)] && Gathered(list, from) / 2 == Gathered(list, from + 1)
  {
    LowestDigit(list[LIST12[from]], Gathered(list, from + 1));
  }

  lemma LowestDigit(bit: nat, rest: nat)
    requires bit < 2
    ensures (bit + 2 * rest) % 2 == bit && (bit + 2 * rest) / 2 == rest
  {
  }

  lemma {:induction false} GatheredFits(list: seq<nat>, from: nat)
    requires ListFits(list) && from <= LIST_BITS
    ensures Gathered(list, from) < Pow2(LIST_BITS - from)
    decreases LIST_BITS - from
  {
    if from < LIST_BITS { GatheredFits(list, from + 1); }
  }

  lemma ElevenBitNumber(list: seq<nat>)
    requires ListFits(list)
    ensures Gathered(list, 0) < 0x800
  {
    GatheredFits(list, 0);
    Powers();
  }

  lemma InList(i: nat) returns (k: nat)
    requires 20 <= i < LIST_SIZE && i != 30
    ensures k < LIST_BITS && LIST12[k] == i
  {
    k := if i == 31 then 0 else if 28 <= i then 30 - i else if i >= 24 then 34 - i else 26 - i;
  }

  /** The other way round: a list is recovered from its twelve bits. */
  lemma ListComesBack(list: seq<nat>)
    requires ListFits(list)
    ensures ListOf(list[30], Gathered(list, 0)) == list
  {
    var z, g := Zeros()[30 := list[30]], Gathered(list, 0);
    var back := Marked(z, g, LIST_BITS);
    forall i | 0 <= i < LIST_SIZE ensures back[i] == list[i] {
      if i < 20 {
        MarkedElsewhere(z, g, LIST_BITS, i);
      } else if i == 30 {
        MarkedAt(z, g, LIST_BITS, 0);
      } else {
        var k := InList(i);
        MarkedAt(z, g, LIST_BITS, k);
        BitOfGathered(list, 0, k);
        assert ListRegister(k) == i;
      }
    }
  }

  lemma ListOfFits(t1: nat, t2: nat)
    requires t1 < 2
    ensures ListFits(ListOf(t1, t2))
  {
    var z := Zeros()[30 := t1];
    forall i | 0 <= i < LIST_SIZE ensures ListOf(t1, t2)[i] < 2 && (i < 20 ==> ListOf(t1, t2)[i] == 0) {
      if i < 20 {
        MarkedElsewhere(z, t2, LIST_BITS, i);
      } else if i == 30 {
        MarkedAt(z, t2, LIST_BITS, 0);
      } else {
        var k := InList(i);
        MarkedAt(z, t2, LIST_BITS, k);
        BitOfIsBit(t2, k);
      }
    }
  }

  lemma {:induction false} BitOfIsBit(x: nat, k: nat)
    ensures BitOf(x, k) < 2
  {
    if k > 0 { BitOfIsBit(x / 2, k - 1); }
  }

  // ---- fields come back ------------------------------------------------------------------------

  /** The code word of an instruction; halfwords its format does not have are zero. */
  function Assemble(f: Fields): Code
    requires Fits(f)
  {
    HalvesFit(f);
    Code(First(f), Second(f), Third(f))
  }

  predicate ComesBack(f: Fields)
    requires Fits(f)
  {
    DecodeFields(FormatOf(f), Assemble(f)) == f
  }

  lemma HalvesFit(f: Fields)
    requires Fits(f)
    ensures 0 <= First(f) < 0x1_0000 && 0 <= Second(f) < 0x1_0000 && 0 <= Third(f) < 0x1_0000
  {
    if f.Type13? { ElevenBitNumber(f.list); }
    hide Gathered;
  }

  lemma Back1(f: Fields)
    requires (f.Type1? || f.Type2?) && Fits(f)
    ensures ComesBack(f)
  {
    if f.Type1? { Three(f.reg2, f.opcode, f.reg1); } else { Three(f.reg2, f.opcode, f.imm); }
    hide ListOf, Gathered;
  }

  lemma Back3(f: Fields)
    requires f.Type3? && Fits(f)
    ensures ComesBack(f)
  {
    Half3(f.disp, f.opcode, f.cond);
    Read3(Assemble(f), f);
    hide DecodeFields;
  }

  lemma Read3(code: Code, f: Fields)
    requires f.Type3? && code.c0 / 0x80 % 0x10 == f.opcode && code.c0 % 0x10 == f.cond
    requires 8 * (code.c0 / 0x800) + code.c0 / 0x10 % 8 == f.disp
    ensures DecodeFields(Format3, code) == f
  {
    hide ListOf;
  }

  lemma Back4(f: Fields)
    requires f.Type4? && Fits(f)
    ensures ComesBack(f)
  {
    Half4(f.reg2, f.opcode, f.disp, f.gen);
    Read4(Assemble(f), f);
    hide DecodeFields;
  }

  lemma Read4(code: Code, f: Fields)
    requires f.Type4? && code.c0 / 0x80 % 0x10 == f.opcode && code.c0 / 2 % 0x40 == f.disp && code.c0 / 0x800 == f.reg2
    requires code.c0 % 2 == f.gen && code.c0 / 0x10 % 0x80 == f.opcode2 && code.c0 % 0x10 == f.disp2
    ensures DecodeFields(Format4, code) == f
  {
    hide ListOf;
  }

  lemma Back5(f: Fields)
    requires f.Type5? && Fits(f)
    ensures ComesBack(f)
  {
    FiveBitOpcode(f.reg2, f.opcode, f.disp / 0x1_0000);
    hide ListOf, Gathered;
  }

  lemma Back6(f: Fields)
    requires f.Type6? && Fits(f)
    ensures ComesBack(f)
  {
    Three(f.reg2, f.opcode, f.reg1);
    hide ListOf, Gathered;
  }

  lemma Back7(f: Fields)
    requires f.Type7? && Fits(f)
    ensures ComesBack(f)
  {
    Three(f.reg2, f.opcode, f.reg1);
    By2(f.disp, f.gen);
    Read7(Assemble(f), f);
    hide DecodeFields;
  }

  lemma Read7(code: Code, f: Fields)
    requires f.Type7? && code.c0 / 0x20 % 0x40 == f.opcode && code.c0 / 0x800 == f.reg2 && code.c0 % 0x20 == f.reg1
    requires code.c1 / 2 == f.disp && code.c1 % 2 == f.gen
    ensures DecodeFields(Format7, code) == f
  {
    hide ListOf;
  }

  lemma Back8(f: Fields)
    requires f.Type8? && Fits(f)
    ensures ComesBack(f)
  {
    Half8(f.sub, f.bit, f.opcode, f.reg1);
    hide ListOf, Gathered;
  }

  lemma Back9(f: Fields)
    requires f.Type9? && Fits(f)
    ensures ComesBack(f)
  {
    Three(f.reg2, f.opcode, f.gen);
    Half9(f.rfu2, f.sub, f.rfu1);
    Read9(Assemble(f), f);
    hide DecodeFields;
  }

  lemma Read9(code: Code, f: Fields)
    requires f.Type9? && code.c0 / 0x20 % 0x40 == f.opcode && code.c0 / 0x800 == f.reg2 && code.c0 % 0x20 == f.gen
    requires code.c1 / 2 % 0x10 == f.rfu1 && code.c1 / 0x800 == f.rfu2 && code.c1 / 0x20 % 0x40 == f.sub
    ensures DecodeFields(Format9, code) == f
  {
    hide ListOf;
  }

  lemma Back10(f: Fields)
    requires f.Type10? && Fits(f)
    ensures ComesBack(f)
  {
    Half10(f.gen1, f.rfu1, f.opcode, f.gen2);
    Half9(f.rfu2, f.sub, f.rfu3);
    Read10(Assemble(f), f);
    hide DecodeFields;
  }

  lemma Read10(code: Code, f: Fields)
    requires f.Type10? && code.c0 / 0x20 % 0x40 == f.opcode
    requires code.c0 / 0x800 % 4 == f.rfu1 && code.c0 / 0x2000 == f.gen1
    requires code.c0 % 0x20 == f.gen2
    requires code.c1 / 0x800 == f.rfu2 && code.c1 / 2 % 0x10 == f.rfu3 && code.c1 / 0x20 % 0x40 == f.sub
    ensures DecodeFields(Format10, code) == f
  {
    hide ListOf;
  }

  lemma Back11(f: Fields)
    requires f.Type11? && Fits(f)
    ensures ComesBack(f)
  {
    Three(f.reg2, f.opcode, f.reg1);
    Half11(f.reg3, f.sub1, f.rfu, f.sub2);
    Read11(Assemble(f), f);
    hide DecodeFields;
  }

  lemma Read11(code: Code, f: Fields)
    requires f.Type11? && code.c0 / 0x20 % 0x40 == f.opcode && code.c0 / 0x800 == f.reg2 && code.c0 % 0x20 == f.reg1
    requires code.c1 / 4 % 8 == f.rfu && code.c1 / 0x800 == f.reg3
    requires code.c1 / 0x20 % 0x40 == f.sub1 && code.c1 / 2 % 2 == f.sub2
    ensures DecodeFields(Format11, code) == f
  {
    hide ListOf;
  }

  lemma Back12(f: Fields)
    requires f.Type12? && Fits(f)
    ensures ComesBack(f)
  {
    Three(f.reg2, f.opcode, f.imml);
    Half12(f.reg3, f.sub1, f.immh, f.sub2);
    Read12(Assemble(f), f);
    hide DecodeFields;
  }

  lemma Read12(code: Code, f: Fields)
    requires f.Type12? && code.c0 / 0x20 % 0x40 == f.opcode && code.c0 / 0x800 == f.reg2 && code.c0 % 0x20 == f.imml
    requires code.c1 / 0x800 == f.reg3 && code.c1 / 0x80 % 0x10 == f.sub1
    requires code.c1 / 2 % 2 == f.sub2 && code.c1 / 4 % 0x20 == f.immh
    ensures DecodeFields(Format12, code) == f
  {
    hide ListOf;
  }

  lemma Back13(f: Fields)
    requires f.Type13? && Fits(f)
    ensures ComesBack(f)
  {
    hide ListOf, Gathered;
    ElevenBitNumber(f.list);
    ListComesBack(f.list);
    Half13(f.rfu, f.opcode, f.imm, f.list[30]);
    By20(Gathered(f.list, 0), f.gen);
  }

  lemma Back14(f: Fields)
    requires f.Type14? && Fits(f)
    ensures ComesBack(f)
  {
    Three(f.sub1, f.opcode, f.reg1);
    Half14(f.reg3, f.dispLow, f.sub2);
    Read14(Assemble(f), f);
    hide DecodeFields;
  }

  lemma Read14(code: Code, f: Fields)
    requires f.Type14? && code.c0 / 0x20 % 0x40 == f.opcode && code.c0 / 0x800 == f.sub1 && code.c0 % 0x20 == f.reg1
    requires code.c1 / 0x800 == f.reg3 && code.c1 / 0x10 % 0x80 == f.dispLow
    requires code.c1 % 0x10 == f.sub2 && code.c2 == f.dispHigh
    ensures DecodeFields(Format14, code) == f
  {
    hide ListOf;
  }

  lemma BackF(f: Fields)
    requires f.TypeF? && Fits(f)
    ensures ComesBack(f)
  {
    Three(f.reg2, f.opcode, f.reg1);
    HalfF(f.reg3, f.subopcode);
    hide ListOf, Gathered;
  }

  /** Decoding undoes assembling, for every field record that fits. */
  lemma FieldsComeBack(f: Fields)
    requires Fits(f)
    ensures ComesBack(f)
  {
    hide ComesBack, Fits;
    match f {
      case Type1(_, _, _) | Type2(_, _, _) => Back1(f);
      case Type3(_, _, _) => Back3(f);
      case Type4(_, _, _, _, _, _) => Back4(f);
      case Type5(_, _, _) => Back5(f);
      case Type6(_, _, _, _) => Back6(f);
      case Type7(_, _, _, _, _) => Back7(f);
      case Type8(_, _, _, _, _) => Back8(f);
      case Type9(_, _, _, _, _, _) => Back9(f);
      case Type10(_, _, _, _, _, _, _) => Back10(f);
      case Type11(_, _, _, _, _, _, _) => Back11(f);
      case Type12(_, _, _, _, _, _, _) => Back12(f);
      case Type13(_, _, _, _, _) => Back13(f);
      case Type14(_, _, _, _, _, _, _) => Back14(f);
      case TypeF(_, _, _, _, _) => BackF(f);
    }
  }

  // ---- op_parse is the inverse ----------------------------------------------------------------

  lemma TwoPlaces(x: nat)
    ensures x / 0x10 % 0x80 == 8 * (x / 0x80 % 0x10) + x / 2 % 0x40 / 8 && x % 0x10 == 2 * (x / 2 % 0x40 % 8) + x % 2
  {
    var low := x % 0x80;
    Low7(x);
    Low7ByFour(x);
    assert x / 2 % 0x40 / 8 == low / 0x10 by { assert low / 2 == x / 2 % 0x40; }
    assert x / 0x10 / 8 == x / 0x80;
    LowSevenBits(x / 0x10);
    Low4(x);
    LowThreeBits(x / 2);
  }

  lemma LowSevenBits(y: nat)
    ensures y % 0x80 == 8 * (y / 8 % 0x10) + y % 8
  {
    var q, r := y / 0x80, y % 0x80;
    assert y / 8 == 0x10 * q + r / 8 && y % 8 == r % 8;
  }

  lemma LowThreeBits(y: nat)
    ensures y % 0x40 % 8 == y % 8
  {
    var q, r := y / 0x40, y % 0x40;
    assert y == 8 * (8 * q) + r;
  }

  /** What a decoder leaves fits its fields. */
  lemma DecodedFits(format: Format, code: Code)
    ensures Fits(DecodeFields(format, code))
  {
    TwoPlaces(code.c0);
    ListOfFits(code.c0 % 2, code.c1 / 0x20);
    hide ListOf, ListFits;
  }

  /** The operation's fixed bits are in the fields: its opcode and sub-opcode numbers, and no excluded register. */
  predicate HasNumbers(op: OpCode, f: Fields)
    requires Fits(f)
  {
    Carries(op, FormatOf(f), Assemble(f))
  }

  lemma AssembledParses(code: Code, op: OpCode, f: Fields)
    requires Fits(f) && HasNumbers(op, f) && SameBits(FormatOf(f), code, First(f), Second(f), Third(f))
    ensures Parse(code) == Some(Parsed(OpType(op, FormatOf(f)), f))
  {
    var a := Assemble(f);
    var format := FormatOf(f);
    assert a.c0 == First(f) && a.c1 == Second(f) && a.c2 == Third(f);
    ClassifiedIffCarried(a, op, format);
    FieldsComeBack(f);
    hide Classify, DecodeFields, Carries, Fits, First, Second, Third, FormatOf, Assemble;
    ClassifyReadsOwnHalfwords(a, code);
    FieldsReadOwnHalfwords(format, a, code);
  }

  lemma ParsedAssembles(code: Code)
    requires Parse(code).Some?
    ensures var p := Parse(code).value;
            && p.optype.formatId == FormatOf(p.fields) && Fits(p.fields) && HasNumbers(p.optype.codeId, p.fields)
            && SameBits(FormatOf(p.fields), code, First(p.fields), Second(p.fields), Third(p.fields))
  {
    var p := Parse(code).value;
    var format := p.optype.formatId;
    AcceptedCodeReEncodes(code);
    DecodedFits(format, code);
    FormatOfDecoded(format, code);
    hide Classify, DecodeFields, Carries, Fits, First, Second, Third, FormatOf;
    var a := Assemble(p.fields);
    ClassifyReadsOwnHalfwords(code, a);
    ClassifiedIffCarried(a, p.optype.codeId, format);
  }

  /**
    op_parse on any code word: it returns an operation and fields if and only if the fields fit, have the
    numbers of that operation, and assemble to the halfwords of their format at the front of the code word.
    Everything else it refuses.
   */
  lemma ParsesIffAssembled(code: Code, op: OpCode, f: Fields)
    ensures Parse(code) == Some(Parsed(OpType(op, FormatOf(f)), f)) <==>
            Fits(f) && HasNumbers(op, f) && SameBits(FormatOf(f), code, First(f), Second(f), Third(f))
  {
    hide *;
    if Parse(code) == Some(Parsed(OpType(op, FormatOf(f)), f)) { ParsedAssembles(code); }
    if Fits(f) && HasNumbers(op, f) && SameBits(FormatOf(f), code, First(f), Second(f), Third(f)) {
      AssembledParses(code, op, f);
    }
  }

  /** Assembling any operation with any fields that fit it, and parsing, gives both back. */
  lemma AssembleThenParse(op: OpCode, f: Fields)
    requires Fits(f) && HasNumbers(op, f)
    ensures Parse(Assemble(f)) == Some(Parsed(OpType(op, FormatOf(f)), f))
  {
    assert Assemble(f).c0 == First(f) && Assemble(f).c1 == Second(f) && Assemble(f).c2 == Third(f);
    AssembledParses(Assemble(f), op, f);
    hide *;
  }

  /** For instance the nine operations on two registers without excluded ones, whatever follows them. */
  lemma RegisterOperations(op: OpCode, number: nat, r1: nat, r2: nat, c1: Half, c2: Half)
    requires (op, number) in {(NOT_1, 1), (OR_1, 8), (XOR_1, 9), (AND_1, 10), (TST_1, 11), (SUBR_1, 12), (SUB_1, 13),
                              (ADD_1, 14), (CMP_1, 15)}
    requires r1 < 0x20 && r2 < 0x20
    ensures Parse(Code(0x800 * r2 + 0x20 * number + r1, c1, c2)) ==
            Some(Parsed(OpType(op, Format1), Type1(number, r1, r2)))
  {
    var f := Type1(number, r1, r2);
    Three(r2, number, r1);
    assert Fits(f) && First(f) == 0x800 * r2 + 0x20 * number + r1;
    assert Opcode(First(f)) == number;
    assert Bits1(op, First(f)) by { hide Opcode, High, Low; }
    hide Bits1, First, Parse;
    AssembledParses(Code(0x800 * r2 + 0x20 * number + r1, c1, c2), op, f);
  }
}
