/** The printer and the parser with the loops of tools/hako.py, proved against Yaml. */
module YamlTool {
  import opened Results
  import opened YamlText
  import opened Yaml

  /** _strip_comment */
  method StripCommentLoop(text: string) returns (kept: string)
    ensures kept == StripComment(text)
  {
    var quote: Option<char>, escaped, out, i := None, false, "", 0;
    while i < |text|
      invariant 0 <= i <= |text|
      invariant Uncommented(text, None, false) == out + Uncommented(text[i..], quote, escaped)
    {
      var ch := text[i];
      UncommentedAt(text, i, quote, escaped);
      hide Uncommented, QuoteAfter;
      if escaped {
        escaped := false;
      } else if ch == '\\' && quote.Some? {
        escaped := true;
      } else if ch == '\'' || ch == '"' {
        quote := QuoteAfter(quote, ch);
      } else if ch == '#' && quote.None? {
        assert out + "" == out;
        return RTrim(out);
      }
      OneMore(out, ch, Uncommented(text[i + 1..], quote, escaped));
      out := out + [ch];
      i := i + 1;
    }
    assert text[i..] == "" && out + "" == out;
    return RTrim(out);
  }

  lemma OneMore(out: string, ch: char, rest: string)
    ensures out + ([ch] + rest) == out + [ch] + rest
  {
  }

  /** What one character adds to the kept text, and the quote state after it. */
  lemma UncommentedAt(text: string, i: nat, quote: Option<char>, escaped: bool)
    requires i < |text|
    ensures var ch := text[i];
            var plain := quote.None? || ch != '\\';
            var quoting := ch == '\'' || ch == '"';
            Uncommented(text[i..], quote, escaped) ==
            if escaped then [ch] + Uncommented(text[i + 1..], quote, false)
            else if !plain then [ch] + Uncommented(text[i + 1..], quote, true)
            else if quoting then [ch] + Uncommented(text[i + 1..], QuoteAfter(quote, ch), false)
            else if ch == '#' && quote.None? then ""
            else [ch] + Uncommented(text[i + 1..], quote, false)
  {
    assert text[i..][1..] == text[i + 1..];
  }

  lemma {:induction false} FoldError(e: Error, lines: seq<string>)
    ensures Fold(Err(e), lines) == Err(e)
    decreases |lines|
  {
    if lines != [] { FoldError(e, lines[1..]); }
  }

  /** The inner loop: drop the levels the indent closes. */
  method PopLevels(open: Stack, indent: nat) returns (stack: Stack)
    ensures stack == Settle(open, indent)
  {
    stack := open;
    while stack.Open? && indent <= stack.indent
      invariant Settle(stack, indent) == Settle(open, indent)
      decreases Depth(stack)
    {
      stack := Close(stack);
    }
  }

  /** The end of the body of the line loop: the key goes to the level its indent selects. */
  method PutItem(parent: Stack, indent: nat, key: string, rest: string) returns (next: Result<Stack, Error>)
    ensures next == Put(parent, indent, key, rest)
  {
    hide ParseScalar, Keys;
    if key == "" { return Err(InvalidMapping); }
    if key in Keys(parent.entries) { return Err(DuplicateKey(key)); }
    var value := ParseScalar(rest);
    if value.Err? { return Err(value.error); }
    var stack := Insert(parent, Entry(key, value.value));
    if value.value.Map? { stack := Open(stack, indent, []); }
    return Ok(stack);
  }

  /** The middle of the body of the line loop: the key and the level of an item. */
  method LoadItem(stack: Stack, line: string) returns (next: Result<Stack, Error>)
    ensures next == Item(stack, line)
  {
    hide Settle, Put, Trim, DropIndent, ColonAt;
    if Trim(line) == "" { return Ok(stack); }
    var stripped := DropIndent(line);
    var indent := |line| - |stripped|;
    if stripped != "" && stripped[0] == '-' { return Err(Sequences); }
    var colon := ColonAt(stripped);
    if colon >= |stripped| { return Err(NoColon); }
    var parent := PopLevels(stack, indent);
    next := PutItem(parent, indent, Trim(stripped[..colon]), stripped[colon + 1..]);
  }

  /** The body of the line loop. */
  method LoadLine(stack: Stack, raw: string) returns (next: Result<Stack, Error>)
    ensures next == Line(stack, raw)
  {
    hide Item, StripComment;
    if '\t' in raw { return Err(Tabs); }
    var line := StripCommentLoop(raw);
    next := LoadItem(stack, line);
  }

  /** load_simple_yaml */
  method LoadSimpleYaml(text: string) returns (root: Result<seq<Entry>, Error>)
    ensures root == Load(text)
  {
    var lines := SplitLines(text);
    var stack := Root([]);
    var k := 0;
    while k < |lines|
      invariant 0 <= k <= |lines|
      invariant Fold(Ok(Root([])), lines) == Fold(Ok(stack), lines[k..])
    {
      assert lines[k..][1..] == lines[k + 1..];
      var next := LoadLine(stack, lines[k]);
      hide Line;
      if next.Err? {
        FoldError(next.error, lines[k + 1..]);
        return Err(next.error);
      }
      stack := next.value;
      k := k + 1;
    }
    stack := PopLevels(stack, 0);
    return Ok(stack.entries);
  }

  /** _dump_yaml */
  method DumpYaml(data: seq<Entry>, indent: nat) returns (text: string)
    ensures text == Dump(data, indent)
    decreases data
  {
    var lines: seq<string> := [];
    var k := 0;
    while k < |data|
      invariant 0 <= k <= |data|
      invariant Lines(data, indent) == lines + Lines(data[k..], indent)
    {
      var Entry(key, value) := data[k];
      assert data[k..][1..] == data[k + 1..];
      if value.Map? {
        lines := lines + [Spaces(indent) + key + ":"];
        var nested := DumpYaml(value.entries, indent + 2);
        lines := lines + [RTrim(nested)];
      } else {
        lines := lines + [Spaces(indent) + key + ": " + ScalarText(value)];
      }
      k := k + 1;
    }
    assert data[k..] == [] && lines + [] == lines;
    return Join(lines) + "\n";
  }
}
