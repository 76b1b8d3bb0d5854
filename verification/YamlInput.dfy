/** Manifests a person writes: comments, single quotes, grouped digits, and what is refused. */
module YamlInput {
  import opened Results
  import opened YamlText
  import opened Yaml
  import opened YamlLines
  import opened YamlScalars
  import opened YamlRoundTrip

  // ---- single quotes -----------------------------------------------------------------------

  /** Every single quote written twice. */
  function Doubled(s: string): string {
    if s == "" then "" else (if s[0] == '\'' then "''" else [s[0]]) + Doubled(s[1..])
  }

  lemma {:induction false} UndoubleDoubled(s: string)
    ensures UndoubleQuotes(Doubled(s)) == s
    decreases |s|
  {
    if s != "" {
      UndoubleDoubled(s[1..]);
      UndoubleFirst(s[0], Doubled(s[1..]));
      assert s == [s[0]] + s[1..];
    }
  }

  lemma UndoubleFirst(c: char, rest: string)
    ensures UndoubleQuotes((if c == '\'' then "''" else [c]) + rest) == [c] + UndoubleQuotes(rest)
  {
    if c == '\'' {
      assert ("''" + rest)[2..] == rest && "'" + UndoubleQuotes(rest) == [c] + UndoubleQuotes(rest);
    } else {
      assert ([c] + rest)[1..] == rest;
      if rest == "" { assert [c] + rest == [c]; }
    }
  }

  /** A text between single quotes, its own quotes doubled, is that text, whatever it holds. */
  lemma SingleQuotedIsText(s: string)
    ensures ParseScalar(" '" + Doubled(s) + "'") == Ok(Str(s))
  {
    var value := "'" + Doubled(s) + "'";
    assert " '" + Doubled(s) + "'" == " " + value;
    TrimKeeps(value);
    UndoubleDoubled(s);
    assert Lower(value)[0] == '\'';
    assert value[1..|value| - 1] == Doubled(s);
    hide Trim, Lower, UndoubleQuotes, Doubled, IntOf, Unquote;
  }

  // ---- comments ----------------------------------------------------------------------------

  lemma CommentCut(note: string)
    ensures Uncommented("#" + note, None, false) == ""
  {
  }

  lemma {:induction false} TrimSpaces(s: string, n: nat)
    ensures RTrim(s + Spaces(n)) == RTrim(s)
    decreases n
  {
    if n == 0 {
      assert s + Spaces(n) == s;
    } else {
      TrimSpaces(s, n - 1);
      SpacesEnd(n);
      assert s + Spaces(n) == s + Spaces(n - 1) + [' '];
      RTrimDropsLast(s + Spaces(n - 1), ' ');
    }
  }

  lemma {:induction false} SpacesEnd(n: nat)
    requires n > 0
    ensures Spaces(n) == Spaces(n - 1) + [' ']
    decreases n
  {
    if n > 1 { SpacesEnd(n - 1); } else { assert Spaces(0) == "" && " " + "" == "" + [' ']; }
  }

  lemma QuoteOpens(rest: string)
    ensures Uncommented("\"" + rest, None, false) == "\"" + Uncommented(rest, Some('"'), false)
  {
    assert ("\"" + rest)[1..] == rest;
  }

  lemma QuoteCloses(rest: string)
    ensures Uncommented("\"" + rest, Some('"'), false) == "\"" + Uncommented(rest, None, false)
  {
    assert ("\"" + rest)[1..] == rest;
  }

  lemma Regroup(body: string, tail: string)
    ensures "\"" + body + "\"" + tail == "\"" + (body + ("\"" + tail))
  {
  }

  lemma StringThenTail(text: string, tail: string, kept: string)
    requires Uncommented(tail, None, false) == kept
    ensures Uncommented("\"" + Escape(text) + "\"" + tail, None, false) == "\"" + Escape(text) + "\"" + kept
  {
    var body := Escape(text);
    UncommentedEscape(text, "\"" + tail);
    QuoteCloses(tail);
    QuoteOpens(body + ("\"" + tail));
    Regroup(body, tail);
    Regroup(body, kept);
    hide Uncommented, Escape;
  }

  lemma ScalarThenComment(v: Value, n: nat, note: string)
    requires !v.Map?
    ensures Uncommented(ScalarText(v) + (Spaces(n) + ("#" + note)), None, false) == ScalarText(v) + Spaces(n)
  {
    var tail := Spaces(n) + ("#" + note);
    TailUncommented(n, note);
    if v.Str? {
      StringThenTail(v.text, tail, Spaces(n));
      hide Escape, Spaces, Uncommented;
    } else {
      if v.Int? { IntRoundTrip(v.i); }
      hide IntText, Spaces;
      UncommentedPlain(ScalarText(v), tail);
    }
  }

  lemma TailUncommented(n: nat, note: string)
    ensures Uncommented(Spaces(n) + ("#" + note), None, false) == Spaces(n)
  {
    SpacesAreSpaces(n);
    UncommentedPlain(Spaces(n), "#" + note);
    CommentCut(note);
    assert Spaces(n) + "" == Spaces(n);
  }

  lemma RawThenComment(indent: nat, key: string, v: Value, n: nat, note: string)
    requires PlainKey(key) && !v.Map?
    ensures Uncommented(Raw(indent, key, v) + (Spaces(n) + ("#" + note)), None, false) ==
            Raw(indent, key, v) + Spaces(n)
  {
    var head, tail := Spaces(indent) + key + ": ", Spaces(n) + ("#" + note);
    HeadUnquoted(indent, key);
    ScalarThenComment(v, n, note);
    UncommentedPlain(head, ScalarText(v) + tail);
    RawIs(indent, key, v);
    hide *;
    Associate(head, ScalarText(v), tail);
    Associate(head, ScalarText(v), Spaces(n));
  }

  lemma RawIs(indent: nat, key: string, v: Value)
    requires !v.Map?
    ensures Raw(indent, key, v) == Spaces(indent) + key + ": " + ScalarText(v)
  {
  }

  lemma Associate(a: string, b: string, c: string)
    ensures a + b + c == a + (b + c)
  {
  }

  /** Blanks and a comment behind a printed line change nothing of what it does. */
  lemma CommentChangesNothing(stack: Stack, indent: nat, key: string, v: Value, n: nat, note: string)
    requires PlainKey(key) && !v.Map? && '\t' !in note
    ensures Line(stack, Raw(indent, key, v) + (Spaces(n) + ("#" + note))) == Line(stack, Raw(indent, key, v))
  {
    var raw := Raw(indent, key, v);
    RawShape(indent, key, v);
    RawThenComment(indent, key, v, n, note);
    TrimSpaces(raw, n);
    SpacesAreSpaces(n);
    hide Raw, Spaces, Uncommented, Item, PlainKey, RTrim;
    assert '\t' !in Spaces(n) + ("#" + note);
  }

  /** A line of blanks, with or without a comment, is skipped. */
  lemma BlankLineIsSkipped(stack: Stack, n: nat, note: string)
    requires '\t' !in note
    ensures Line(stack, Spaces(n) + ("#" + note)) == Ok(stack) && Line(stack, Spaces(n)) == Ok(stack)
  {
    SpacesAreSpaces(n);
    TailUncommented(n, note);
    UncommentedPlain(Spaces(n), "");
    TrimSpaces("", n);
    hide Uncommented, Spaces;
    assert Spaces(n) + "" == Spaces(n) && "" + Spaces(n) == Spaces(n);
    assert RTrim("") == "" && LTrim("") == "";
  }

  // ---- what is refused ---------------------------------------------------------------------

  /** A key that its level already has is refused, whatever its value. */
  lemma RepeatedKeyIsRefused(stack: Stack, indent: nat, key: string, v: Value)
    requires PlainKey(key) && !v.Map? && key in Keys(Settle(stack, indent).entries)
    ensures Line(stack, Raw(indent, key, v)) == Err(DuplicateKey(key))
  {
    RawShape(indent, key, v);
    RawParts(indent, key, v);
    KeyLine(stack, indent, key, " " + ScalarText(v), Raw(indent, key, v));
    hide Raw, Line, Spaces, ScalarText, StripComment, Uncommented, PlainKey, Settle, Keys;
  }

  /** A tab anywhere in a line is refused, even in a comment. */
  lemma TabIsRefused(stack: Stack, raw: string)
    ensures Line(stack, raw) == Err(Tabs) <==> '\t' in raw
  {
    if '\t' !in raw { ItemHasNoTab(stack, StripComment(raw)); }
    hide StripComment, Item;
  }

  lemma {:induction false} NoColonIn(s: string)
    requires ':' !in s
    ensures ColonAt(s) == |s|
    decreases |s|
  {
    if s != "" { NoColonIn(s[1..]); }
  }

  /** A line that begins with a dash is refused as a sequence, whatever follows. */
  lemma SequenceIsRefused(stack: Stack, n: nat, rest: string)
    requires '\t' !in rest
    ensures Line(stack, Spaces(n) + "-" + rest) == Err(Sequences)
  {
    SpacesAreSpaces(n);
    DashKept(n, rest);
    var text := DashText(n, rest);
    ItemOfDash(stack, n, text);
    hide Spaces, StripComment, Item;
    assert '\t' !in Spaces(n) + "-" + rest;
  }

  /** What is left of such a line without its comment and trailing blanks, from the dash on. */
  function DashText(n: nat, rest: string): string { DropIndent(StripComment(Spaces(n) + "-" + rest)) }

  lemma DashKept(n: nat, rest: string)
    ensures var text := DashText(n, rest);
            text != "" && text[0] == '-' && StripComment(Spaces(n) + "-" + rest) == Spaces(n) + text
  {
    var head := Spaces(n) + "-";
    SpacesAreSpaces(n);
    UncommentedPlain(head, rest);
    var kept := Uncommented(rest, None, false);
    var k := TrimRest(head, kept);
    SpacesDrop(n, "-" + kept[..k]);
    hide Spaces, Uncommented, RTrim, IsSpace, DropIndent;
    Associate(Spaces(n), "-", kept[..k]);
  }

  lemma ItemOfDash(stack: Stack, n: nat, text: string)
    requires text != "" && text[0] == '-'
    ensures Item(stack, Spaces(n) + text) == Err(Sequences)
  {
    ShownText(n, text);
    hide Spaces, Trim, DropIndent, Settle, ColonAt;
  }

  /** Indented text that is not blank is an item at its indent. */
  lemma ShownText(n: nat, text: string)
    requires text != "" && !IsSpace(text[0])
    ensures DropIndent(Spaces(n) + text) == text && Trim(Spaces(n) + text) != ""
  {
    var s := Spaces(n) + text;
    SpacesDrop(n, text);
    hide Spaces, IsSpace;
    assert s[n] == text[0];
    RTrimIsPrefix(s);
    hide RTrim;
    TextRemains(RTrim(s), n);
  }

  /** So is a line without a colon. */
  lemma MissingColonIsRefused(stack: Stack, n: nat, key: string)
    requires PlainKey(key)
    ensures Line(stack, Spaces(n) + key) == Err(NoColon)
  {
    var raw := Spaces(n) + key;
    SpacesAreSpaces(n);
    UncommentedPlain(raw, "");
    assert raw + "" == raw && raw[|raw| - 1] == key[|key| - 1];
    EndsInText(raw);
    ShownText(n, key);
    NoColonIn(key);
    hide Spaces, Uncommented, RTrim, Settle, ColonAt, IsSpace, DropIndent, Trim;
    assert StripComment(raw) == raw;
  }

  lemma ItemHasNoTab(stack: Stack, line: string)
    ensures Item(stack, line) != Err(Tabs)
  {
    hide Settle, Trim, ColonAt, DropIndent, Keys, Lower, IntOf, Unquote;
  }

  // ---- integers ----------------------------------------------------------------------------

  /** Digits, with single underscores between them. */
  ghost predicate Grouped(s: string) {
    && s != "" && IsDigit(s[0]) && IsDigit(s[|s| - 1])
    && (forall k :: 0 <= k < |s| ==> IsDigit(s[k]) || s[k] == '_')
    && (forall k :: 0 < k < |s| && s[k] == '_' ==> s[k - 1] != '_')
  }

  /** int() reads exactly these, and one digit more multiplies by ten. */
  lemma {:induction false} GroupedIsNumber(s: string)
    ensures NatOf(s).Some? <==> Grouped(s)
    decreases |s|
  {
    if s != "" && IsDigit(s[|s| - 1]) && |s| > 1 {
      var front := s[..|s| - 1];
      var body := if front[|front| - 1] == '_' then front[..|front| - 1] else front;
      GroupedIsNumber(body);
      assert forall k :: 0 <= k < |body| ==> body[k] == s[k];
      if Grouped(s) { assert s[0] == body[0]; }
    }
  }

  lemma NextDigit(s: string, c: char)
    requires Grouped(s) && IsDigit(c)
    ensures NatOf(s).Some? && NatOf(s + [c]) == Some(10 * NatOf(s).value + DigitValue(c))
    ensures NatOf(s + "_" + [c]) == Some(10 * NatOf(s).value + DigitValue(c))
  {
    GroupedIsNumber(s);
    assert s[|s| - 1] != '_';
    hide Grouped;
    LastDigit(s, c);
    LastDigitGrouped(s, c);
  }

  lemma LastDigit(s: string, c: char)
    requires s != "" && s[|s| - 1] != '_' && IsDigit(c) && NatOf(s).Some?
    ensures NatOf(s + [c]) == Some(10 * NatOf(s).value + DigitValue(c))
  {
    FrontOf(s, c);
    hide NatOf, DigitValue, IsDigit;
    OneDigit(s + [c], s, s, c);
  }

  lemma LastDigitGrouped(s: string, c: char)
    requires s != "" && IsDigit(c) && NatOf(s).Some?
    ensures NatOf(s + "_" + [c]) == Some(10 * NatOf(s).value + DigitValue(c))
  {
    FrontOf(s + "_", c);
    FrontOf(s, '_');
    hide NatOf, DigitValue, IsDigit;
    OneDigit(s + "_" + [c], s + "_", s, c);
  }

  lemma FrontOf(s: string, c: char)
    ensures var t := s + [c]; |t| == |s| + 1 && t[..|s|] == s && t[|s|] == c
  {
  }

  lemma OneDigit(t: string, front: string, body: string, c: char)
    requires front != "" && |t| == |front| + 1 && t[..|front|] == front && t[|front|] == c
    requires IsDigit(c) && NatOf(body).Some?
    requires if front[|front| - 1] == '_' then body == front[..|front| - 1] else body == front
    ensures NatOf(t) == Some(10 * NatOf(body).value + DigitValue(c))
  {
    hide DigitValue;
  }

  // ---- what the printer writes ---------------------------------------------------------------

  /** Numbers are printed without sign, leading zero or grouping but for a minus. */
  lemma {:induction false} CanonicalDigits(n: nat)
    ensures NatText(n) != "" && (n > 0 ==> NatText(n)[0] != '0')
  {
    if n >= 10 {
      CanonicalDigits(n / 10);
    } else if n > 0 {
      DigitRoundTrip(n);
    }
  }

  lemma PrintedScalars(i: int, s: string)
    ensures ScalarText(Bool(true)) == "true" && ScalarText(Bool(false)) == "false" && ScalarText(Null) == "null"
    ensures i >= 0 ==> ScalarText(Int(i)) == NatText(i)
    ensures i < 0 ==> ScalarText(Int(i)) == "-" + NatText(-i)
    ensures ScalarText(Str(s)) == "\"" + Escape(s) + "\""
  {
  }

  /** A nested setting is printed two spaces further in than the key it belongs to, each on its own line. */
  lemma PrintedNesting(section: string, key: string, v: Value, indent: nat)
    requires !v.Map?
    ensures Dump([Entry(section, Map([Entry(key, v)]))], indent) ==
            Spaces(indent) + section + ":" + "\n" + (Spaces(indent + 2) + key + ": " + ScalarText(v)) + "\n"
  {
    var inner := Spaces(indent + 2) + key + ": " + ScalarText(v);
    var outer := Spaces(indent) + section + ":";
    OneLine(Entry(key, v), indent + 2);
    InnerTrimmed(key, v, indent + 2);
    NestedLines(section, [Entry(key, v)], indent);
    hide *;
    TwoLines(outer, inner);
  }

  lemma InnerTrimmed(key: string, v: Value, indent: nat)
    requires !v.Map?
    ensures var inner := Spaces(indent) + key + ": " + ScalarText(v); RTrim(inner + "\n") == inner
  {
    var inner := Spaces(indent) + key + ": " + ScalarText(v);
    ScalarEnds(v);
    assert inner[|inner| - 1] == ScalarText(v)[|ScalarText(v)| - 1];
    hide Spaces, ScalarText;
    RTrimDropsLast(inner, '\n');
    EndsInText(inner);
  }

  lemma NestedLines(section: string, nested: seq<Entry>, indent: nat)
    ensures Dump([Entry(section, Map(nested))], indent) ==
            Join([Spaces(indent) + section + ":", RTrim(Dump(nested, indent + 2))]) + "\n"
  {
    var e := Entry(section, Map(nested));
    hide Spaces, RTrim, Join;
    assert [e][1..] == [] && Lines([], indent) == [];
    var item := ItemLines(e, indent);
    assert Lines([e], indent) == item + [] == item;
    assert item == [Spaces(indent) + section + ":", RTrim(Dump(nested, indent + 2))];
  }

  lemma TwoLines(a: string, b: string)
    ensures Join([a, b]) == a + "\n" + b
  {
    assert [a, b][1..] == [b];
  }

  lemma OneLine(e: Entry, indent: nat)
    requires !e.value.Map?
    ensures Dump([e], indent) == Spaces(indent) + e.key + ": " + ScalarText(e.value) + "\n"
  {
    hide Spaces, ScalarText;
    assert [e][1..] == [] && Lines([], indent) == [];
    assert Lines([e], indent) == [Spaces(indent) + e.key + ": " + ScalarText(e.value)];
  }

  lemma EndsInText(s: string)
    requires s != "" && !IsSpace(s[|s| - 1])
    ensures RTrim(s) == s
  {
  }
}
