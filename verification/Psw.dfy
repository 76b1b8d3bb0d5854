/**
  The program status word (src/cpu/cpu_common/cpu_ops.h), kept as its fields so that each
  CPU_SET/CPU_CLR macro is one field update. WordOf and OfWord give the 32-bit image.
 */
module Psw {
  datatype Flags = Flags(z: bool, s: bool, ov: bool, cy: bool, sat: bool)

  datatype Protection = Protection(imp: bool, dmp: bool, npv: bool, pp: bool)

  /** `low` are bits 8 to 15 and `high` bits 20 to 31, which no macro names. */
  datatype Psw = Psw(flags: Flags, id: bool, ep: bool, np: bool, low: nat, protection: Protection, high: nat)

  const TRUSTED := Protection(false, false, false, false)
  const CLEAR_FLAGS := Flags(false, false, false, false, false)

  /** The value after reset, 0x20: interrupts disabled. */
  const AFTER_RESET := Psw(CLEAR_FLAGS, true, false, false, 0, TRUSTED, 0)

  const ZERO_PSW := AFTER_RESET.(id := false)

  /** The two words agree on everything but the five arithmetic flags. */
  predicate SameControl(a: Psw, b: Psw) {
    a.(flags := b.flags) == b
  }

  function Bit(on: bool): nat { if on then 1 else 0 }

  ghost predicate InRange(psw: Psw) { psw.low < 0x100 && psw.high < 0x1000 }

  function FlagsOf(w: nat): Flags {
    Flags(w % 2 == 1, w / 2 % 2 == 1, w / 4 % 2 == 1, w / 8 % 2 == 1, w / 16 % 2 == 1)
  }

  function FlagBits(f: Flags): nat {
    Bit(f.z) + 2 * Bit(f.s) + 4 * Bit(f.ov) + 8 * Bit(f.cy) + 16 * Bit(f.sat)
  }

  function ProtectionOf(w: nat): Protection {
    Protection(w % 2 == 1, w / 2 % 2 == 1, w / 4 % 2 == 1, w / 8 % 2 == 1)
  }

  function ProtectionBits(p: Protection): nat {
    Bit(p.imp) + 2 * Bit(p.dmp) + 4 * Bit(p.npv) + 8 * Bit(p.pp)
  }

  function ControlBits(psw: Psw): nat { Bit(psw.id) + 2 * Bit(psw.ep) + 4 * Bit(psw.np) }

  function OfWord(w: nat): Psw {
    var control := w / 0x20 % 8;
    Psw(FlagsOf(w % 0x20), control % 2 == 1, control / 2 % 2 == 1, control / 4 == 1,
        w / 0x100 % 0x100, ProtectionOf(w / 0x1_0000 % 0x10), w / 0x10_0000)
  }

  function WordOf(psw: Psw): nat {
    FlagBits(psw.flags) + 0x20 * ControlBits(psw) + 0x100 * psw.low
    + 0x1_0000 * ProtectionBits(psw.protection) + 0x10_0000 * psw.high
  }

  lemma FlagBitsRoundTrip(w: nat)
    requires w < 0x20
    ensures FlagBits(FlagsOf(w)) == w
  {
    var a := w / 2;
    var b := a / 2;
    var c := b / 2;
    assert w == w % 2 + 2 * a && a == a % 2 + 2 * b && b == b % 2 + 2 * c && c == c % 2 + 2 * (c / 2);
    assert w / 4 == b && w / 8 == c && w / 16 == c / 2;
  }

  lemma ProtectionRoundTrip(w: nat)
    requires w < 0x10
    ensures ProtectionBits(ProtectionOf(w)) == w
  {
  }

  lemma ControlRoundTrip(w: nat)
    requires w < 8
    ensures Bit(w % 2 == 1) + 2 * Bit(w / 2 % 2 == 1) + 4 * Bit(w / 4 == 1) == w
  {
  }

  lemma Assembled(psw: Psw, f: nat, c: nat, p: nat)
    requires FlagBits(psw.flags) == f && ControlBits(psw) == c && ProtectionBits(psw.protection) == p
    ensures WordOf(psw) == f + 0x20 * c + 0x100 * psw.low + 0x1_0000 * p + 0x10_0000 * psw.high
  {
  }

  lemma PartsOf(w: nat)
    ensures FlagBits(OfWord(w).flags) == w % 0x20 && ControlBits(OfWord(w)) == w / 0x20 % 8
    ensures ProtectionBits(OfWord(w).protection) == w / 0x1_0000 % 0x10
  {
    FlagBitsRoundTrip(w % 0x20);
    ControlRoundTrip(w / 0x20 % 8);
    ProtectionRoundTrip(w / 0x1_0000 % 0x10);
  }

  /** No 32-bit value is lost or merged by the field view. */
  lemma WordRoundTrip(w: nat)
    requires w < 0x1_0000_0000
    ensures WordOf(OfWord(w)) == w && InRange(OfWord(w))
  {
    PartsOf(w);
    Assembled(OfWord(w), w % 0x20, w / 0x20 % 8, w / 0x1_0000 % 0x10);
    Pieces(w);
  }

  /** A bit of a five-bit or four-bit field is that bit of the number. */
  lemma BitOfLow(x: nat)
    ensures x % 0x20 % 2 == x % 2 && x % 0x20 / 2 % 2 == x / 2 % 2 && x % 0x20 / 4 % 2 == x / 4 % 2
    ensures x % 0x20 / 8 % 2 == x / 8 % 2 && x % 0x20 / 16 % 2 == x / 16 % 2
  {
    var q, r := x / 0x20, x % 0x20;
    Shares(16 * q, 2, r);
    Shares(8 * q, 4, r);
    Shares(4 * q, 8, r);
    Shares(2 * q, 16, r);
    Even(16 * q, r);
    Even(8 * q, r / 2);
    Even(4 * q, r / 4);
    Even(2 * q, r / 8);
    Even(q, r / 16);
  }

  lemma Shares(k: nat, d: nat, r: nat)
    requires d in {2, 4, 8, 16}
    ensures (k * d + r) / d == k + r / d
  {
  }

  lemma Even(a: nat, b: nat)
    ensures (2 * a + b) % 2 == b % 2
  {
  }

  /** Where the fields stand in the 32-bit image, as the macros have them. */
  lemma FieldPositions(w: nat)
    ensures var p := OfWord(w);
      && (p.flags.z <==> w % 2 == 1) && (p.flags.s <==> w / 0x2 % 2 == 1) && (p.flags.ov <==> w / 0x4 % 2 == 1)
      && (p.flags.cy <==> w / 0x8 % 2 == 1) && (p.flags.sat <==> w / 0x10 % 2 == 1)
      && (p.id <==> w / 0x20 % 2 == 1) && (p.ep <==> w / 0x40 % 2 == 1) && (p.np <==> w / 0x80 % 2 == 1)
    ensures var p := OfWord(w).protection;
      && (p.imp <==> w / 0x1_0000 % 2 == 1) && (p.dmp <==> w / 0x2_0000 % 2 == 1)
      && (p.npv <==> w / 0x4_0000 % 2 == 1) && (p.pp <==> w / 0x8_0000 % 2 == 1)
  {
    BitOfLow(w);
    ControlPositions(w / 0x20);
    ProtectionPositions(w / 0x1_0000);
    assert w / 0x20 / 2 == w / 0x40 && w / 0x20 / 4 == w / 0x80;
    assert w / 0x1_0000 / 2 == w / 0x2_0000 && w / 0x1_0000 / 4 == w / 0x4_0000 && w / 0x1_0000 / 8 == w / 0x8_0000;
    hide FlagBits, ControlBits, ProtectionBits;
  }

  lemma ControlPositions(x: nat)
    ensures x % 8 % 2 == x % 2 && x % 8 / 2 % 2 == x / 2 % 2 && x % 8 / 4 == x / 4 % 2
  {
    var q, r := x / 8, x % 8;
    Shares(4 * q, 2, r);
    Shares(2 * q, 4, r);
    Even(4 * q, r);
    Even(2 * q, r / 2);
    Even(q, r / 4);
  }

  lemma ProtectionPositions(x: nat)
    ensures var p := ProtectionOf(x % 0x10);
            && (p.imp <==> x % 2 == 1) && (p.dmp <==> x / 2 % 2 == 1) && (p.npv <==> x / 4 % 2 == 1)
            && (p.pp <==> x / 8 % 2 == 1)
  {
    var q, r := x / 0x10, x % 0x10;
    Shares(8 * q, 2, r);
    Shares(4 * q, 4, r);
    Shares(2 * q, 8, r);
    Even(8 * q, r);
    Even(4 * q, r / 2);
    Even(2 * q, r / 4);
    Even(q, r / 8);
  }

  lemma Pieces(w: nat)
    ensures w == w % 0x20 + 0x20 * (w / 0x20 % 8) + 0x100 * (w / 0x100 % 0x100)
                 + 0x1_0000 * (w / 0x1_0000 % 0x10) + 0x10_0000 * (w / 0x10_0000)
  {
    assert w / 0x20 / 8 == w / 0x100;
    assert w / 0x100 / 0x100 == w / 0x1_0000;
    assert w / 0x1_0000 / 0x10 == w / 0x10_0000;
  }

  /** The word reset leaves in PSW, in fields. */
  lemma AfterResetIsWord()
    ensures OfWord(0x20) == AFTER_RESET && OfWord(0) == ZERO_PSW
  {
  }
}
