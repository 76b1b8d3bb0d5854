/** Numbers of any length, lowest word first, added by ADD then ADF(C) and subtracted by SUB then SBF(C). */
module MultiWord {
  import opened Psw
  import opened Arithmetic

  function Value(xs: seq<Word>): nat {
    if xs == [] then 0 else xs[0] + BASE * Value(xs[1..])
  }

  function SignedValue(xs: seq<Word>): int
    requires xs != []
  {
    if |xs| == 1 then Signed(xs[0]) else xs[0] + BASE * SignedValue(xs[1..])
  }

  /** BASE to the n, and half of it. */
  function Power(n: nat): nat { if n == 0 then 1 else BASE * Power(n - 1) }

  function Half(n: nat): int { if n <= 1 then 0x8000_0000 else BASE * Half(n - 1) }

  datatype Sum = Sum(words: seq<Word>, flags: Flags)

  /** ADF reg1, reg2, reg3 with condition C on each pair of words in turn. */
  function AdfChain(f: Flags, xs: seq<Word>, ys: seq<Word>): Sum
    requires |xs| == |ys|
    decreases |xs|
  {
    if xs == [] then Sum([], f)
    else
      var first := AddConditional(f, COND_L, xs[0], ys[0]);
      var rest := AdfChain(first.flags, xs[1..], ys[1..]);
      Sum([first.value] + rest.words, rest.flags)
  }

  function SbfChain(f: Flags, xs: seq<Word>, ys: seq<Word>): Sum
    requires |xs| == |ys|
    decreases |xs|
  {
    if xs == [] then Sum([], f)
    else
      var first := SubtractConditional(f, COND_L, xs[0], ys[0]);
      var rest := SbfChain(first.flags, xs[1..], ys[1..]);
      Sum([first.value] + rest.words, rest.flags)
  }

  /** ADD on the lowest words, ADF(C) on the others. */
  function AddWords(f: Flags, xs: seq<Word>, ys: seq<Word>): Sum
    requires |xs| == |ys| && xs != []
  {
    var first := Add(f, xs[0], ys[0]);
    var rest := AdfChain(first.flags, xs[1..], ys[1..]);
    Sum([first.value] + rest.words, rest.flags)
  }

  function SubtractWords(f: Flags, xs: seq<Word>, ys: seq<Word>): Sum
    requires |xs| == |ys| && xs != []
  {
    var first := Subtract(f, xs[0], ys[0]);
    var rest := SbfChain(first.flags, xs[1..], ys[1..]);
    Sum([first.value] + rest.words, rest.flags)
  }

  predicate Fits(x: int, n: nat) { -Half(n) <= x < Half(n) }

  /** Prefixing a digit scales the range and keeps the sign. */
  lemma DigitStep(digit: Word, high: int, n: nat)
    requires n >= 1
    ensures Fits(digit + BASE * high, n + 1) <==> Fits(high, n)
    ensures digit + BASE * high < 0 <==> high < 0
  {
  }

  // ---- addition ------------------------------------------------------------------------

  lemma {:induction false} AdfChainIsExact(f: Flags, xs: seq<Word>, ys: seq<Word>)
    requires |xs| == |ys|
    ensures var r := AdfChain(f, xs, ys);
      |r.words| == |xs| && Value(xs) + Value(ys) + Bit(f.cy) == Value(r.words) + if r.flags.cy then Power(|xs|) else 0
    decreases |xs|
  {
    if xs != [] {
      var first := AddConditional(f, COND_L, xs[0], ys[0]);
      AdfChainIsExact(first.flags, xs[1..], ys[1..]);
      AdfDigitAndRest(f, xs, ys);
      assert Power(|xs|) == BASE * Power(|xs| - 1);
      hide *;
    }
  }

  lemma AdfDigitAndRest(f: Flags, xs: seq<Word>, ys: seq<Word>)
    requires |xs| == |ys| && xs != []
    ensures var first := AddConditional(f, COND_L, xs[0], ys[0]);
            var rest := AdfChain(first.flags, xs[1..], ys[1..]);
            var r := AdfChain(f, xs, ys);
      && |r.words| == 1 + |rest.words| && r.flags == rest.flags
      && Value(r.words) == first.value + BASE * Value(rest.words)
      && Value(xs) + Value(ys) + Bit(f.cy) ==
         first.value + BASE * (Value(xs[1..]) + Value(ys[1..]) + Bit(first.flags.cy))
  {
    var first := AddConditional(f, COND_L, xs[0], ys[0]);
    var rest := AdfChain(first.flags, xs[1..], ys[1..]);
    AddDigit(f, COND_L, xs[0], ys[0]);
    assert ([first.value] + rest.words)[1..] == rest.words;
    assert Holds(f, COND_L) == f.cy;
    hide AddConditional, Holds, Signed;
  }

  lemma {:induction false} AdfChainSigned(f: Flags, xs: seq<Word>, ys: seq<Word>)
    requires |xs| == |ys| && xs != []
    ensures var r := AdfChain(f, xs, ys); var exact := SignedValue(xs) + SignedValue(ys) + Bit(f.cy);
      && |r.words| == |xs| && (r.flags.ov <==> !Fits(exact, |xs|)) && (!r.flags.ov ==> SignedValue(r.words) == exact)
    decreases |xs|
  {
    if |xs| == 1 {
      LastAdf(f, xs, ys);
    } else {
      var first := AddConditional(f, COND_L, xs[0], ys[0]);
      var high := SignedValue(xs[1..]) + SignedValue(ys[1..]) + Bit(first.flags.cy);
      AdfChainSigned(first.flags, xs[1..], ys[1..]);
      AdfStep(f, xs, ys);
      DigitStep(first.value, high, |xs| - 1);
      hide *;
    }
  }

  lemma LastAdf(f: Flags, xs: seq<Word>, ys: seq<Word>)
    requires |xs| == |ys| == 1
    ensures var r := AdfChain(f, xs, ys); var exact := SignedValue(xs) + SignedValue(ys) + Bit(f.cy);
      && |r.words| == 1 && (r.flags.ov <==> !Fits(exact, 1)) && (!r.flags.ov ==> SignedValue(r.words) == exact)
  {
    AddDigit(f, COND_L, xs[0], ys[0]);
    assert Holds(f, COND_L) == f.cy;
    hide AddConditional, Holds, Signed;
  }

  /** The lowest digit and the rest of a chain. */
  lemma AdfStep(f: Flags, xs: seq<Word>, ys: seq<Word>)
    requires |xs| == |ys| && |xs| > 1
    ensures var first := AddConditional(f, COND_L, xs[0], ys[0]);
            var rest := AdfChain(first.flags, xs[1..], ys[1..]);
            var r := AdfChain(f, xs, ys);
      && |r.words| == 1 + |rest.words| && r.flags == rest.flags
      && (rest.words != [] ==> SignedValue(r.words) == first.value + BASE * SignedValue(rest.words))
      && SignedValue(xs) + SignedValue(ys) + Bit(f.cy) ==
         first.value + BASE * (SignedValue(xs[1..]) + SignedValue(ys[1..]) + Bit(first.flags.cy))
  {
    var first := AddConditional(f, COND_L, xs[0], ys[0]);
    var rest := AdfChain(first.flags, xs[1..], ys[1..]);
    AddDigit(f, COND_L, xs[0], ys[0]);
    assert ([first.value] + rest.words)[1..] == rest.words;
    assert Holds(f, COND_L) == f.cy;
    hide AddConditional, Holds, Signed, Fits;
  }

  /**
    ADD then ADF(C): the exact n-word sum, CY its carry-out, OV set exactly when the signed sum does not fit n
    words.
   */
  lemma AdditionIsExact(f: Flags, xs: seq<Word>, ys: seq<Word>)
    requires |xs| == |ys| && xs != []
    ensures var r := AddWords(f, xs, ys);
      && |r.words| == |xs|
      && Value(xs) + Value(ys) == Value(r.words) + (if r.flags.cy then Power(|xs|) else 0)
      && (r.flags.ov <==> !Fits(SignedValue(xs) + SignedValue(ys), |xs|))
      && (!r.flags.ov ==> SignedValue(r.words) == SignedValue(xs) + SignedValue(ys))
  {
    var g := f.(cy := false);
    UnconditionalIsNotTaken(g, COND_L, xs[0], ys[0]);
    assert AddWords(f, xs, ys) == AdfChain(g, xs, ys);
    AdfChainIsExact(g, xs, ys);
    AdfChainSigned(g, xs, ys);
  }

  // ---- subtraction and comparison --------------------------------------------------------

  lemma {:induction false} SbfChainIsExact(f: Flags, xs: seq<Word>, ys: seq<Word>)
    requires |xs| == |ys|
    ensures var r := SbfChain(f, xs, ys);
      |r.words| == |xs| && Value(xs) - Value(ys) - Bit(f.cy) == Value(r.words) - if r.flags.cy then Power(|xs|) else 0
    decreases |xs|
  {
    if xs != [] {
      var first := SubtractConditional(f, COND_L, xs[0], ys[0]);
      SbfChainIsExact(first.flags, xs[1..], ys[1..]);
      SbfDigitAndRest(f, xs, ys);
      assert Power(|xs|) == BASE * Power(|xs| - 1);
      hide *;
    }
  }

  lemma SbfDigitAndRest(f: Flags, xs: seq<Word>, ys: seq<Word>)
    requires |xs| == |ys| && xs != []
    ensures var first := SubtractConditional(f, COND_L, xs[0], ys[0]);
            var rest := SbfChain(first.flags, xs[1..], ys[1..]);
            var r := SbfChain(f, xs, ys);
      && |r.words| == 1 + |rest.words| && r.flags == rest.flags
      && Value(r.words) == first.value + BASE * Value(rest.words)
      && Value(xs) - Value(ys) - Bit(f.cy) ==
         first.value + BASE * (Value(xs[1..]) - Value(ys[1..]) - Bit(first.flags.cy))
  {
    var first := SubtractConditional(f, COND_L, xs[0], ys[0]);
    var rest := SbfChain(first.flags, xs[1..], ys[1..]);
    SubtractDigit(f, COND_L, xs[0], ys[0]);
    assert ([first.value] + rest.words)[1..] == rest.words;
    assert Holds(f, COND_L) == f.cy;
    hide SubtractConditional, Holds, Signed;
  }

  lemma {:induction false} SbfChainSigned(f: Flags, xs: seq<Word>, ys: seq<Word>)
    requires |xs| == |ys| && xs != []
    ensures var r := SbfChain(f, xs, ys); var exact := SignedValue(xs) - SignedValue(ys) - Bit(f.cy);
      && |r.words| == |xs| && (r.flags.ov <==> !Fits(exact, |xs|)) && (!r.flags.ov ==> SignedValue(r.words) == exact)
      && (r.flags.s != r.flags.ov <==> exact < 0)
    decreases |xs|
  {
    if |xs| == 1 {
      LastSbf(f, xs, ys);
    } else {
      var first := SubtractConditional(f, COND_L, xs[0], ys[0]);
      var high := SignedValue(xs[1..]) - SignedValue(ys[1..]) - Bit(first.flags.cy);
      SbfChainSigned(first.flags, xs[1..], ys[1..]);
      SbfStep(f, xs, ys);
      DigitStep(first.value, high, |xs| - 1);
      hide *;
    }
  }

  lemma LastSbf(f: Flags, xs: seq<Word>, ys: seq<Word>)
    requires |xs| == |ys| == 1
    ensures var r := SbfChain(f, xs, ys); var exact := SignedValue(xs) - SignedValue(ys) - Bit(f.cy);
      && |r.words| == 1 && (r.flags.ov <==> !Fits(exact, 1)) && (!r.flags.ov ==> SignedValue(r.words) == exact)
      && (r.flags.s != r.flags.ov <==> exact < 0)
  {
    SubtractDigit(f, COND_L, xs[0], ys[0]);
    assert Holds(f, COND_L) == f.cy;
    hide SubtractConditional, Holds, Signed;
  }

  /** The lowest digit and the rest of a chain. */
  lemma SbfStep(f: Flags, xs: seq<Word>, ys: seq<Word>)
    requires |xs| == |ys| && |xs| > 1
    ensures var first := SubtractConditional(f, COND_L, xs[0], ys[0]);
            var rest := SbfChain(first.flags, xs[1..], ys[1..]);
            var r := SbfChain(f, xs, ys);
      && |r.words| == 1 + |rest.words| && r.flags == rest.flags
      && (rest.words != [] ==> SignedValue(r.words) == first.value + BASE * SignedValue(rest.words))
      && SignedValue(xs) - SignedValue(ys) - Bit(f.cy) ==
         first.value + BASE * (SignedValue(xs[1..]) - SignedValue(ys[1..]) - Bit(first.flags.cy))
  {
    var first := SubtractConditional(f, COND_L, xs[0], ys[0]);
    var rest := SbfChain(first.flags, xs[1..], ys[1..]);
    SubtractDigit(f, COND_L, xs[0], ys[0]);
    assert ([first.value] + rest.words)[1..] == rest.words;
    assert Holds(f, COND_L) == f.cy;
    hide SubtractConditional, Holds, Signed, Fits;
  }

  lemma {:induction false} ValueBound(xs: seq<Word>)
    ensures Value(xs) < Power(|xs|)
    decreases |xs|
  {
    if xs != [] { ValueBound(xs[1..]); }
  }

  /**
    SUB then SBF(C): the exact n-word difference with CY its borrow; afterwards the conditions L and NL
    compare the two numbers unsigned, LT and GE compare them signed, and OV says whether the signed difference fits.
   */
  lemma SubtractionIsExactAndCompares(f: Flags, xs: seq<Word>, ys: seq<Word>)
    requires |xs| == |ys| && xs != []
    ensures var r := SubtractWords(f, xs, ys);
      && |r.words| == |xs|
      && Value(xs) - Value(ys) == Value(r.words) - (if r.flags.cy then Power(|xs|) else 0)
      && (r.flags.ov <==> !Fits(SignedValue(xs) - SignedValue(ys), |xs|))
      && (!r.flags.ov ==> SignedValue(r.words) == SignedValue(xs) - SignedValue(ys))
      && (Holds(r.flags, COND_L) <==> Value(xs) < Value(ys)) && (Holds(r.flags, COND_NL) <==> Value(xs) >= Value(ys))
      && (Holds(r.flags, COND_LT) <==> SignedValue(xs) < SignedValue(ys))
      && (Holds(r.flags, COND_GE) <==> SignedValue(xs) >= SignedValue(ys))
  {
    var g := f.(cy := false);
    UnconditionalIsNotTaken(g, COND_L, xs[0], ys[0]);
    assert SubtractWords(f, xs, ys) == SbfChain(g, xs, ys);
    SbfChainIsExact(g, xs, ys);
    SbfChainSigned(g, xs, ys);
    ValueBound(SbfChain(g, xs, ys).words);
  }
}
