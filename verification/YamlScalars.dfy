/** One printed line read back: keys, comments, quoting and scalars. */
module YamlScalars {
  import opened Results
  import opened YamlText
  import opened Yaml

  predicate KeyChar(c: char) { c != ':' && c != '#' && c != '\'' && c != '"' && c != '\t' && !IsBreak(c) }

  /** Keys the format can carry; every identifier is one. */
  predicate PlainKey(key: string) {
    key != "" && key[0] != '-' && !IsSpace(key[0]) && !IsSpace(key[|key| - 1]) && forall c <- key :: KeyChar(c)
  }

  predicate IdentifierChar(c: char) { 'a' <= c <= 'z' || 'A' <= c <= 'Z' || c == '_' || IsDigit(c) }

  lemma IdentifiersArePlain(key: string)
    requires key != "" && forall c <- key :: IdentifierChar(c)
    ensures PlainKey(key)
  {
    assert IdentifierChar(key[0]) && IdentifierChar(key[|key| - 1]);
  }

  /** A string the printer writes on one line. */
  predicate CleanText(s: string) { forall c <- s :: !IsWideBreak(c) }

  // ---- comments --------------------------------------------------------------------------

  predicate Unquoted(s: string) { forall c <- s :: c != '#' && c != '\'' && c != '"' }

  lemma {:induction false} UncommentedPlain(s: string, t: string)
    requires Unquoted(s)
    ensures Uncommented(s + t, None, false) == s + Uncommented(t, None, false)
    decreases |s|
  {
    if s == "" {
      assert s + t == t;
    } else {
      assert (s + t)[0] == s[0] && (s + t)[1..] == s[1..] + t && s == [s[0]] + s[1..];
      assert s[0] in s && forall c <- s[1..] :: c in s;
      UncommentedPlain(s[1..], t);
    }
  }

  predicate Inert(s: string) { forall c <- s :: c != '"' && c != '\\' }

  /** Inside double quotes only the quote itself and the backslash matter. */
  lemma {:induction false} UncommentedInert(s: string, t: string)
    requires Inert(s)
    ensures Uncommented(s + t, Some('"'), false) == s + Uncommented(t, Some('"'), false)
    decreases |s|
  {
    if s == "" {
      assert s + t == t;
    } else {
      assert (s + t)[0] == s[0] && (s + t)[1..] == s[1..] + t && s == [s[0]] + s[1..];
      assert s[0] in s && forall c <- s[1..] :: c in s;
      UncommentedInert(s[1..], t);
    }
  }

  /** An escape is a backslash, one character, and inert characters. */
  lemma EscapeShape(c: char)
    ensures var e := EscapeChar(c); (e == [c] && Inert(e)) || (|e| >= 2 && e[0] == '\\' && Inert(e[2..]))
  {
  }

  lemma UncommentedEscapeChar(c: char, t: string)
    ensures Uncommented(EscapeChar(c) + t, Some('"'), false) == EscapeChar(c) + Uncommented(t, Some('"'), false)
  {
    var e := EscapeChar(c);
    EscapeShape(c);
    hide EscapeChar;
    if e == [c] && Inert(e) {
      UncommentedInert(e, t);
    } else {
      var tail := e[2..];
      assert (e + t)[1..] == [e[1]] + (tail + t) && ([e[1]] + (tail + t))[1..] == tail + t;
      UncommentedInert(tail, t);
      assert e == [e[0]] + ([e[1]] + tail);
    }
  }

  lemma {:induction false} UncommentedEscape(s: string, t: string)
    ensures Uncommented(Escape(s) + t, Some('"'), false) == Escape(s) + Uncommented(t, Some('"'), false)
    decreases |s|
  {
    hide Uncommented, EscapeChar;
    if s == "" {
      assert Escape(s) + t == t;
    } else {
      assert Escape(s) + t == EscapeChar(s[0]) + (Escape(s[1..]) + t);
      UncommentedEscapeChar(s[0], Escape(s[1..]) + t);
      UncommentedEscape(s[1..], t);
    }
  }

  /** The comment is cut at the first place that starts one, so a prefix of comment-free text is comment-free. */
  lemma {:induction false} UncommentedPrefix(s: string, quote: Option<char>, escaped: bool, n: nat)
    requires n <= |s| && Uncommented(s, quote, escaped) == s
    ensures Uncommented(s[..n], quote, escaped) == s[..n]
    decreases |s|
  {
    if n > 0 {
      var next :=
        if escaped then (quote, false)
        else if s[0] == '\\' && quote.Some? then (quote, true)
        else if s[0] == '\'' || s[0] == '"' then
          (QuoteAfter(quote, s[0]), false)
        else (quote, false);
      assert [s[0]] + Uncommented(s[1..], next.0, next.1) == s;
      assert Uncommented(s[1..], next.0, next.1) == s[1..];
      UncommentedPrefix(s[1..], next.0, next.1, n - 1);
      assert s[..n][1..] == s[1..][..n - 1] && s[..n] == [s[0]] + s[1..][..n - 1];
    }
  }

  lemma {:induction false} EscapeChars(s: string)
    ensures forall c <- Escape(s) :: c >= ' ' && (IsBreak(c) ==> c in s && IsWideBreak(c))
    decreases |s|
  {
    if s != "" {
      EscapeChars(s[1..]);
      OneEscape(s[0]);
      hide EscapeChar, IsBreak, IsWideBreak;
      assert s == [s[0]] + s[1..];
    }
  }

  lemma OneEscape(c: char)
    ensures forall d <- EscapeChar(c) :: d >= ' ' && (IsBreak(d) ==> d == c && IsWideBreak(d))
  {
    if c < ' ' {
      HexIsPlain(c as int / 16);
      HexIsPlain(c as int % 16);
      hide IsBreak;
    }
  }

  lemma HexIsPlain(d: nat)
    requires d < 16
    ensures HEX[d] >= ' ' && !IsBreak(HEX[d])
    ensures forall c <- "\\u0\"nrtbf" :: c >= ' ' && !IsBreak(c)
  {
  }

  lemma {:induction false} EscapeKeepsWide(s: string, c: char)
    requires c in s && IsWideBreak(c)
    ensures c in Escape(s)
    decreases |s|
  {
    if s[0] == c { assert EscapeChar(c) == [c]; } else { EscapeKeepsWide(s[1..], c); }
  }

  // ---- scalars ---------------------------------------------------------------------------

  lemma WordsAreLower()
    ensures Lower("true") == "true" && Lower("false") == "false" && Lower("null") == "null"
  {
    assert "true"[1..] == "rue" && "rue"[1..] == "ue" && "ue"[1..] == "e" && "e"[1..] == "";
    assert "false"[1..] == "alse" && "alse"[1..] == "lse" && "lse"[1..] == "se" && "se"[1..] == "e";
    assert "null"[1..] == "ull" && "ull"[1..] == "ll" && "ll"[1..] == "l" && "l"[1..] == "";
  }

  lemma NotAWord(s: string)
    requires s != "" && (s[0] == '"' || s[0] == '-' || IsDigit(s[0]))
    ensures var l := Lower(s); l != "true" && l != "false" && l != "null" && l != "~"
  {
    assert Lower(s)[0] == s[0];
  }

  lemma ScalarEnds(v: Value)
    requires !v.Map?
    ensures var t := ScalarText(v); t != "" && !IsSpace(t[0]) && !IsSpace(t[|t| - 1])
  {
    if v.Int? {
      IntRoundTrip(v.i);
      var t := IntText(v.i);
      hide IntText;
      assert t[0] in t && t[|t| - 1] in t;
    }
  }

  lemma WordRoundTrip(v: Value)
    requires v.Bool? || v.Null?
    ensures ParseScalar(" " + ScalarText(v)) == Ok(v)
  {
    ScalarEnds(v);
    TrimKeeps(ScalarText(v));
    WordsAreLower();
    hide Trim, Lower;
  }

  lemma IntScalarRoundTrip(i: int)
    ensures ParseScalar(" " + IntText(i)) == Ok(Int(i))
  {
    var t := IntText(i);
    ScalarEnds(Int(i));
    TrimKeeps(t);
    IntRoundTrip(i);
    assert t[0] in t;
    NotAWord(t);
    hide IntText, IntOf, Trim, Lower;
  }

  lemma StringRoundTrip(s: string)
    ensures ParseScalar(" " + ScalarText(Str(s))) == Ok(Str(s))
  {
    var t := ScalarText(Str(s));
    ScalarEnds(Str(s));
    TrimKeeps(t);
    JsonRoundTrip(s);
    NotAWord(t);
    hide Trim, Unquote, Escape, Lower;
    assert t[1..] == Escape(s) + "\"";
  }

  /** What follows the colon parses back to the value printed there. */
  lemma ScalarRoundTrip(v: Value)
    requires !v.Map?
    ensures ParseScalar(" " + ScalarText(v)) == Ok(v)
  {
    match v {
      case Int(i) => IntScalarRoundTrip(i);
      case Str(s) => StringRoundTrip(s);
      case _ => WordRoundTrip(v);
    }
  }

  /** A quoted string cut short is an error. */
  lemma CutStringFails(s: string, n: nat)
    requires n <= |Escape(s)|
    requires var value := "\"" + Escape(s)[..n]; !IsSpace(value[|value| - 1])
    ensures ParseScalar(" \"" + Escape(s)[..n]).Err?
  {
    var value := "\"" + Escape(s)[..n];
    assert " \"" + Escape(s)[..n] == " " + value;
    TrimKeeps(value);
    NotAWord(value);
    PrefixIsUnterminated(s, n);
    hide Trim, Unquote, Escape;
    assert value[1..] == Escape(s)[..n];
  }

  // ---- lines -----------------------------------------------------------------------------

  lemma {:induction false} ColonAfter(key: string, rest: string)
    requires ':' !in key
    ensures ColonAt(key + ":" + rest) == |key|
    decreases |key|
  {
    var s := key + ":" + rest;
    if key != "" {
      assert s[1..] == key[1..] + ":" + rest;
      ColonAfter(key[1..], rest);
    }
  }

  lemma {:induction false} TextRemains(s: string, k: nat)
    requires k < |s| && !IsSpace(s[k])
    ensures LTrim(s) != ""
    decreases |s|
  {
    if IsSpace(s[0]) { TextRemains(s[1..], k - 1); }
  }

  /** A line of the form printed for a key is put under that key, at its indent. */
  lemma KeyLine(stack: Stack, indent: nat, key: string, rest: string, raw: string)
    requires PlainKey(key) && '\t' !in raw && StripComment(raw) == Spaces(indent) + key + ":" + rest
    ensures Line(stack, raw) == Put(Settle(stack, indent), indent, key, rest)
  {
    var line := Spaces(indent) + key + ":" + rest;
    var stripped := key + ":" + rest;
    KeyShape(indent, key, rest, raw);
    TrimKeeps(key);
    ColonAfter(key, rest);
    hide Put, Settle, StripComment, Trim, DropIndent, ColonAt, Spaces;
    assert stripped[..|key|] == key && stripped[|key| + 1..] == rest;
  }

  lemma KeyShape(indent: nat, key: string, rest: string, raw: string)
    requires PlainKey(key) && StripComment(raw) == Spaces(indent) + key + ":" + rest
    ensures var line := StripComment(raw);
            Trim(line) != "" && DropIndent(line) == key + ":" + rest && |line| == indent + |key + ":" + rest|
    ensures ':' !in key
  {
    var line := StripComment(raw);
    var stripped := key + ":" + rest;
    assert line == Spaces(indent) + stripped && stripped[0] == key[0];
    SpacesDrop(indent, stripped);
    RTrimIsPrefix(Uncommented(raw, None, false));
    hide Uncommented, Spaces;
    assert RTrim(line) == line;
    TextRemains(line, indent);
  }
}
