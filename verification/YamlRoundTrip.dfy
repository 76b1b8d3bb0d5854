/** Printing a nested mapping and parsing it back, for every depth and every leaf. */
module YamlRoundTrip {
  import opened Results
  import opened YamlText
  import opened Yaml
  import opened YamlLines
  import opened YamlScalars

  /** Plain keys, no key twice, at every level. */
  predicate Good(entries: seq<Entry>)
    decreases entries
  {
    entries == [] ||
    (PlainKey(entries[0].key) && entries[0].key !in Keys(entries[1..])
     && (entries[0].value.Map? ==> Good(entries[0].value.entries)) && Good(entries[1..]))
  }

  /** No string leaf holds U+0085, U+2028 or U+2029. */
  predicate Clean(entries: seq<Entry>)
    decreases entries
  {
    entries == [] || (CleanValue(entries[0].value) && Clean(entries[1..]))
  }

  predicate CleanValue(v: Value)
    decreases v
  {
    match v
    case Str(s) => CleanText(s)
    case Map(entries) => Clean(entries)
    case _ => true
  }

  // ---- no tabs ---------------------------------------------------------------------------

  predicate TabFree(lines: seq<string>) { forall l <- lines :: '\t' !in l }

  lemma {:induction false} JoinTabFree(lines: seq<string>)
    requires TabFree(lines)
    ensures '\t' !in Join(lines)
    decreases |lines|
  {
    if |lines| > 1 { JoinTabFree(lines[1..]); }
  }

  lemma ScalarTabFree(v: Value)
    requires !v.Map?
    ensures '\t' !in ScalarText(v)
  {
    match v {
      case Int(i) => IntRoundTrip(i);
      case Str(s) => EscapeChars(s);
      case _ =>
    }
  }

  lemma HeadTabFree(indent: nat, key: string)
    requires PlainKey(key)
    ensures '\t' !in Spaces(indent) + key && '\t' !in Spaces(indent) + key + ":" && '\t' !in Spaces(indent) + key + ": "
  {
    SpacesAreSpaces(indent);
    hide Spaces;
  }

  lemma ItemTabFree(e: Entry, indent: nat)
    requires PlainKey(e.key) && (e.value.Map? ==> '\t' !in Dump(e.value.entries, indent + 2))
    ensures TabFree(ItemLines(e, indent))
  {
    HeadTabFree(indent, e.key);
    if e.value.Map? { RTrimIsPrefix(Dump(e.value.entries, indent + 2)); } else { ScalarTabFree(e.value); }
    hide Spaces, ScalarText, Dump, RTrim, PlainKey;
  }

  lemma {:induction false} DumpTabFree(entries: seq<Entry>, indent: nat)
    requires Good(entries)
    ensures TabFree(Lines(entries, indent)) && '\t' !in Dump(entries, indent)
    decreases entries
  {
    if entries != [] {
      var e := entries[0];
      DumpTabFree(entries[1..], indent);
      if e.value.Map? { DumpTabFree(e.value.entries, indent + 2); }
      ItemTabFree(e, indent);
      hide ItemLines, PlainKey, Good, Keys;
      assert Lines(entries, indent) == ItemLines(e, indent) + Lines(entries[1..], indent);
    }
    JoinTabFree(Lines(entries, indent));
    hide ItemLines, PlainKey, Good, Keys, Join;
  }

  // ---- one item --------------------------------------------------------------------------

  function Raw(indent: nat, key: string, v: Value): string
    requires !v.Map?
  {
    Spaces(indent) + key + ": " + ScalarText(v)
  }

  lemma ScalarUncommented(v: Value)
    requires !v.Map?
    ensures Uncommented(ScalarText(v), None, false) == ScalarText(v)
  {
    hide Escape, IntText;
    var t := ScalarText(v);
    if v.Str? {
      UncommentedEscape(v.text, "\"");
      assert t[1..] == Escape(v.text) + "\"";
      assert "\""[1..] == "";
    } else {
      if v.Int? { IntRoundTrip(v.i); }
      UncommentedPlain(t, "");
      assert t + "" == t;
    }
  }

  lemma HeadUnquoted(indent: nat, key: string)
    requires PlainKey(key)
    ensures Unquoted(Spaces(indent) + key + ": ") && Unquoted(Spaces(indent) + key + ":")
    ensures Breakless(Spaces(indent) + key + ": ") && Breakless(Spaces(indent) + key + ":")
  {
    SpacesAreSpaces(indent);
    hide Spaces;
  }

  lemma RawShape(indent: nat, key: string, v: Value)
    requires PlainKey(key) && !v.Map?
    ensures var raw := Raw(indent, key, v);
            '\t' !in raw && Uncommented(raw, None, false) == raw && StripComment(raw) == raw
  {
    HeadTabFree(indent, key);
    HeadUnquoted(indent, key);
    ScalarTabFree(v);
    ScalarUncommented(v);
    ScalarEnds(v);
    UncommentedPlain(Spaces(indent) + key + ": ", ScalarText(v));
    hide Spaces, ScalarText, Uncommented, PlainKey;
  }

  /** A clean scalar line inserts its item. */
  lemma CleanScalarLine(stack: Stack, indent: nat, key: string, v: Value)
    requires PlainKey(key) && !v.Map? && CleanValue(v) && key !in Keys(Settle(stack, indent).entries)
    ensures Feed(Ok(stack), "", Raw(indent, key, v)) == Ok(Insert(Settle(stack, indent), Entry(key, v)))
  {
    var raw := Raw(indent, key, v);
    RawShape(indent, key, v);
    RawBreakless(indent, key, v);
    RawParts(indent, key, v);
    FeedWholeLine(stack, raw);
    ScalarRoundTrip(v);
    KeyLine(stack, indent, key, " " + ScalarText(v), raw);
    PutScalar(Settle(stack, indent), indent, key, " " + ScalarText(v), v);
    hide *;
  }

  lemma RawParts(indent: nat, key: string, v: Value)
    requires PlainKey(key) && !v.Map?
    ensures Raw(indent, key, v) == Spaces(indent) + key + ":" + (" " + ScalarText(v)) && key != ""
  {
    hide Spaces, ScalarText, KeyChar;
  }

  lemma FeedWholeLine(stack: Stack, raw: string)
    requires Breakless(raw)
    ensures Feed(Ok(stack), "", raw) == Line(stack, raw)
  {
    FeedOneLine(Ok(stack), "", raw, "");
    hide Feed, Line;
    assert raw + "" == raw && "" + raw == raw;
  }

  lemma PutScalar(stack: Stack, indent: nat, key: string, rest: string, v: Value)
    requires key != "" && key !in Keys(stack.entries) && ParseScalar(rest) == Ok(v) && !v.Map?
    ensures Put(stack, indent, key, rest) == Ok(Insert(stack, Entry(key, v)))
  {
    hide ParseScalar, Keys, Insert;
  }

  lemma RawBreakless(indent: nat, key: string, v: Value)
    requires PlainKey(key) && !v.Map? && CleanValue(v)
    ensures Breakless(Raw(indent, key, v))
  {
    HeadUnquoted(indent, key);
    match v {
      case Int(i) => IntRoundTrip(i); hide IntText;
      case Str(s) => EscapeChars(s); hide Escape;
      case _ =>
    }
    hide Spaces, PlainKey;
  }

  /** The place of the first line boundary. */
  lemma {:induction false} FirstBreak(s: string) returns (p: nat)
    requires !Breakless(s)
    ensures p < |s| && IsBreak(s[p]) && Breakless(s[..p])
    decreases |s|
  {
    if IsBreak(s[0]) {
      p := 0;
    } else {
      assert s == [s[0]] + s[1..];
      var k := FirstBreak(s[1..]);
      p := k + 1;
      assert s[..p] == [s[0]] + s[1..][..k];
    }
  }

  /** A string with a wide line boundary is cut there, and the piece before it does not parse. */
  lemma BrokenScalarLine(stack: Stack, indent: nat, key: string, s: string)
    requires PlainKey(key) && !CleanText(s)
    ensures Feed(Ok(stack), "", Raw(indent, key, Str(s))).Err?
  {
    var c :| c in s && IsWideBreak(c);
    EscapeKeepsWide(s, c);
    var p := FirstBreak(Escape(s));
    CutLineFails(stack, indent, key, s, p);
    HeadUnquoted(indent, key);
    FeedCut(Ok(stack), Spaces(indent) + key + ": ", Escape(s), p);
    assert Raw(indent, key, Str(s)) == Spaces(indent) + key + ": " + ("\"" + Escape(s) + "\"");
  }

  lemma FeedCut(r: Progress, head: string, body: string, p: nat)
    requires Breakless(head) && p < |body| && IsBreak(body[p]) && Breakless(body[..p])
    requires Then(r, head + "\"" + body[..p]).Err?
    ensures Feed(r, "", head + ("\"" + body + "\"")).Err?
  {
    hide Feed, Then;
    var cut, rest := head + "\"" + body[..p], body[p..] + "\"";
    assert body == body[..p] + body[p..];
    assert head + ("\"" + body + "\"") == cut + rest && "" + cut == cut;
    hide IsBreak;
    assert Breakless(cut) by { QuoteIsNoBreak(); }
    FeedOneLine(r, "", cut, rest);
    FeedError(Then(r, cut), "", rest[1..]);
  }

  lemma QuoteIsNoBreak()
    ensures !IsBreak('"')
  {
  }

  /** rstrip of a text that goes on after a non-blank takes blanks from that rest only. */
  lemma TrimRest(head: string, body: string) returns (n: nat)
    requires head != "" && !IsSpace(head[|head| - 1])
    ensures n <= |body| && RTrim(head + body) == head + body[..n] && (n > 0 ==> !IsSpace(body[n - 1]))
  {
    var s := head + body;
    RTrimIsPrefix(s);
    var m := |RTrim(s)|;
    hide RTrim, IsSpace;
    assert s[|head| - 1] == head[|head| - 1];
    n := m - |head|;
    assert n > 0 ==> s[m - 1] == body[n - 1];
  }

  lemma CutUncommented(indent: nat, key: string, s: string, p: nat)
    requires PlainKey(key) && p <= |Escape(s)|
    ensures var cut := Spaces(indent) + key + ": " + "\"" + Escape(s)[..p];
            '\t' !in cut && Uncommented(cut, None, false) == cut
  {
    var raw := Raw(indent, key, Str(s));
    RawShape(indent, key, Str(s));
    RawOfString(indent, key, s);
    hide *;
    CutStaysUncommented(raw, Spaces(indent) + key + ": " + "\"", Escape(s), "\"", p);
  }

  lemma CutStaysUncommented(raw: string, head: string, body: string, tail: string, p: nat)
    requires raw == head + body + tail && p <= |body| && '\t' !in raw && Uncommented(raw, None, false) == raw
    ensures var cut := head + body[..p]; '\t' !in cut && Uncommented(cut, None, false) == cut
  {
    hide *;
    CutOfSum(head, body, tail, p);
    UncommentedPrefix(raw, None, false, |head| + p);
    TabFreePrefix(raw, |head| + p);
  }

  lemma TabFreePrefix(s: string, n: nat)
    requires '\t' !in s && n <= |s|
    ensures '\t' !in s[..n]
  {
  }

  lemma RawOfString(indent: nat, key: string, s: string)
    ensures Raw(indent, key, Str(s)) == Spaces(indent) + key + ": " + "\"" + Escape(s) + "\""
  {
    hide Spaces, Escape;
  }

  lemma CutOfSum(head: string, body: string, tail: string, p: nat)
    requires p <= |body|
    ensures (head + body + tail)[..|head| + p] == head + body[..p]
  {
  }

  lemma CutLineFails(stack: Stack, indent: nat, key: string, s: string, p: nat)
    requires PlainKey(key) && p <= |Escape(s)|
    ensures Line(stack, Spaces(indent) + key + ": " + "\"" + Escape(s)[..p]).Err?
  {
    var head := Spaces(indent) + key + ": " + "\"";
    var cut := head + Escape(s)[..p];
    CutUncommented(indent, key, s, p);
    var n := TrimRest(head, Escape(s)[..p]);
    CutValueFails(s, p, n);
    var tail := " \"" + Escape(s)[..n];
    assert Escape(s)[..p][..n] == Escape(s)[..n];
    Reassociate(Spaces(indent), key, Escape(s)[..n]);
    hide Spaces, Settle, ParseScalar, Uncommented, RTrim, Escape, Line, PlainKey, IsSpace;
    KeyLine(stack, indent, key, tail, cut);
  }

  lemma Reassociate(indent: string, key: string, body: string)
    ensures indent + key + ": " + "\"" + body == indent + key + ":" + (" \"" + body)
  {
  }

  lemma CutValueFails(s: string, p: nat, n: nat)
    requires n <= p <= |Escape(s)| && (n > 0 ==> !IsSpace(Escape(s)[..p][n - 1]))
    ensures ParseScalar(" \"" + Escape(s)[..n]).Err?
  {
    var value := "\"" + Escape(s)[..n];
    assert value[|value| - 1] == if n > 0 then Escape(s)[..p][n - 1] else '"';
    CutStringFails(s, n);
  }

  /** The line of a nested mapping opens a level under its key. */
  lemma HeaderLine(stack: Stack, indent: nat, key: string)
    requires PlainKey(key) && key !in Keys(Settle(stack, indent).entries)
    ensures Feed(Ok(stack), "", Spaces(indent) + key + ":") ==
            Ok(Open(Insert(Settle(stack, indent), Entry(key, Map([]))), indent, []))
  {
    var raw := Spaces(indent) + key + ":";
    HeadTabFree(indent, key);
    HeadUnquoted(indent, key);
    UncommentedPlain(raw, "");
    FeedWholeLine(stack, raw);
    assert raw + "" == raw;
    assert raw[|raw| - 1] == ':';
    KeyLine(stack, indent, key, "", raw);
    hide Spaces, Settle, Feed, Line, Uncommented;
  }

  // ---- the stack -------------------------------------------------------------------------

  lemma {:induction false} SettleTop(stack: Stack, indent: nat)
    ensures var s := Settle(stack, indent); s.Root? || s.indent < indent
    decreases Depth(stack)
  {
    if stack.Open? && indent <= stack.indent { SettleTop(Close(stack), indent); }
  }

  lemma {:induction false} SettleTwice(stack: Stack, inner: nat, outer: nat)
    requires outer <= inner
    ensures Settle(Settle(stack, inner), outer) == Settle(stack, outer)
    decreases Depth(stack)
  {
    if stack.Open? && inner <= stack.indent { SettleTwice(Close(stack), inner, outer); }
  }

  function AppendAll(stack: Stack, entries: seq<Entry>): Stack { WithEntries(stack, stack.entries + entries) }

  /** Closing the level of a nested mapping gives its items to the key it was opened for. */
  lemma SettleNested(base: Stack, indent: nat, key: string, nested: seq<Entry>, after: Stack)
    requires base.Root? || base.indent < indent
    requires Settle(after, indent + 2) == Open(Insert(base, Entry(key, Map([]))), indent, nested)
    ensures Settle(after, indent) == Insert(base, Entry(key, Map(nested)))
  {
    SettleTwice(after, indent + 2, indent);
    var open := Open(Insert(base, Entry(key, Map([]))), indent, nested);
    assert Close(open) == Insert(base, Entry(key, Map(nested)));
  }

  // ---- blocks ----------------------------------------------------------------------------

  /**
    What feeding the lines of `entries` at `indent` must do: add exactly these items, or fail if a leaf is not
    clean.
   */
  predicate Loaded(stack: Stack, indent: nat, entries: seq<Entry>, r: Progress) {
    if Clean(entries) then r.Ok? && Settle(r.value, indent) == AppendAll(Settle(stack, indent), entries) else r.Err?
  }

  lemma CleanOne(e: Entry)
    ensures Clean([e]) == CleanValue(e.value)
  {
    assert [e][1..] == [];
  }

  lemma ScalarLoads(stack: Stack, indent: nat, e: Entry)
    requires PlainKey(e.key) && !e.value.Map? && e.key !in Keys(Settle(stack, indent).entries)
    ensures Loaded(stack, indent, [e], FeedAll(Ok(stack), ItemLines(e, indent)))
  {
    CleanOne(e);
    SettleTop(stack, indent);
    var raw := Raw(indent, e.key, e.value);
    if CleanValue(e.value) {
      CleanScalarLine(stack, indent, e.key, e.value);
    } else {
      BrokenScalarLine(stack, indent, e.key, e.value.text);
    }
    assert ItemLines(e, indent) == [raw] && [raw][1..] == [];
    hide Feed, Raw, ItemLines, Clean, CleanValue;
    assert FeedAll(Ok(stack), [raw]) == Feed(Ok(stack), "", raw);
  }

  lemma {:induction false} MapLoads(stack: Stack, indent: nat, e: Entry)
    requires PlainKey(e.key) && e.value.Map? && Good(e.value.entries) && e.key !in Keys(Settle(stack, indent).entries)
    ensures Loaded(stack, indent, [e], FeedAll(Ok(stack), ItemLines(e, indent)))
    decreases e, 0
  {
    var base := Settle(stack, indent);
    var nested := e.value.entries;
    var open := Open(Insert(base, Entry(e.key, Map([]))), indent, []);
    var header, text := Spaces(indent) + e.key + ":", Dump(nested, indent + 2);
    HeaderLine(stack, indent, e.key);
    SettleTop(stack, indent);
    DumpTabFree(nested, indent + 2);
    BlockLoads(open, indent + 2, nested);
    FeedTrimmed(Ok(open), text);
    FeedJoined(Ok(open), Lines(nested, indent + 2));
    var r := FeedAll(Ok(open), Lines(nested, indent + 2));
    CleanOne(e);
    ItemOfMap(stack, e, indent);
    assert FeedAll(Ok(stack), ItemLines(e, indent)) == r by { hide Settle; }
    assert Clean(nested) == CleanValue(e.value);
    assert Settle(open, indent + 2) == open;
    hide Feed, FeedAll, ItemLines, Clean, CleanValue, Spaces, Lines, Dump;
    if Clean(nested) {
      assert AppendAll(open, nested) == Open(Insert(base, Entry(e.key, Map([]))), indent, nested);
      SettleNested(base, indent, e.key, nested, r.value);
      hide Settle;
    }
  }

  lemma ItemOfMap(stack: Stack, e: Entry, indent: nat)
    requires e.value.Map?
    ensures FeedAll(Ok(stack), ItemLines(e, indent)) ==
            Feed(Feed(Ok(stack), "", Spaces(indent) + e.key + ":"), "", RTrim(Dump(e.value.entries, indent + 2)))
  {
    var header, body := Spaces(indent) + e.key + ":", RTrim(Dump(e.value.entries, indent + 2));
    assert ItemLines(e, indent) == [header, body];
    hide Feed, Spaces, RTrim, Dump, ItemLines;
    assert [header, body][1..] == [body] && [body][1..] == [];
    assert FeedAll(Ok(stack), [header, body]) == FeedAll(Feed(Ok(stack), "", header), [body]);
    assert FeedAll(Feed(Ok(stack), "", header), [body]) == Feed(Feed(Ok(stack), "", header), "", body);
  }

  lemma KeysAppend(a: seq<Entry>, e: Entry)
    ensures Keys(a + [e]) == Keys(a) + {e.key}
  {
    var both := a + [e];
    assert both[|a|] == e;
    forall x <- a ensures x in both {}
    assert forall x <- both :: x in a || x == e;
    assert forall k <- Keys(a) :: exists x :: x in a && x.key == k && x in both;
  }

  lemma {:induction false} BlockLoads(stack: Stack, indent: nat, entries: seq<Entry>)
    requires Good(entries) && Keys(Settle(stack, indent).entries) !! Keys(entries)
    ensures Loaded(stack, indent, entries, FeedAll(Ok(stack), Lines(entries, indent)))
    decreases entries, 1
  {
    if entries == [] {
      assert Settle(stack, indent).entries + [] == Settle(stack, indent).entries;
    } else {
      var e, rest := entries[0], entries[1..];
      KeysSplit(entries);
      if e.value.Map? { MapLoads(stack, indent, e); } else { ScalarLoads(stack, indent, e); }
      var first := FeedAll(Ok(stack), ItemLines(e, indent));
      FeedAllConcat(Ok(stack), ItemLines(e, indent), Lines(rest, indent));
      CleanOne(e);
      if CleanValue(e.value) {
        var base := Settle(stack, indent);
        KeysAppend(base.entries, e);
        assert base.entries + [e] + rest == base.entries + entries;
        hide Settle, Keys, FeedAll, ItemLines, CleanValue, PlainKey;
        BlockLoads(first.value, indent, rest);
      } else {
        FeedAllError(first, Lines(rest, indent));
        hide Settle, Keys, FeedAll, ItemLines, CleanValue, PlainKey;
      }
    }
  }

  /**
    Parsing what the printer wrote gives the mapping back, in order, exactly when no string leaf
    holds U+0085, U+2028 or U+2029; otherwise the parser refuses the text.
   */
  lemma LoadOfDump(entries: seq<Entry>)
    requires Good(entries)
    ensures Load(Dump(entries, 0)) == Ok(entries) <==> Clean(entries)
    ensures !Clean(entries) ==> Load(Dump(entries, 0)).Err?
  {
    FoldIsFeed(Ok(Root([])), "", Dump(entries, 0));
    FeedJoined(Ok(Root([])), Lines(entries, 0));
    BlockLoads(Root([]), 0, entries);
    hide Feed, Fold, FeedAll, Lines, Clean, Good;
    assert [] + entries == entries;
  }
}
