/** How the parser consumes text: lines can be fed piece by piece, and trailing blanks change nothing. */
module YamlLines {
  import opened Results
  import opened YamlText
  import opened Yaml

  type Progress = Result<Stack, Error>

  /** The parser run over `s`, with the line read so far. */
  function Feed(r: Progress, line: string, s: string): Progress
    decreases |s|
  {
    if s == "" then Then(r, line)
    else if IsBreak(s[0]) then Feed(Then(r, line), "", s[1..])
    else Feed(r, line + [s[0]], s[1..])
  }

  lemma BlankLine(r: Progress)
    ensures Then(r, "") == r
  {
  }

  /** Splitting into lines and folding is feeding. */
  lemma {:induction false} FoldIsFeed(r: Progress, line: string, s: string)
    ensures Fold(r, LinesFrom(line, s)) == Feed(r, line, s)
    decreases |s|
  {
    BlankLine(r);
    hide Then;
    if s == "" {
      if line != "" { assert [line][1..] == []; }
    } else if s[0] == '\r' && |s| > 1 && s[1] == '\n' {
      BlankLine(Then(r, line));
      assert ([line] + LinesFrom("", s[2..]))[1..] == LinesFrom("", s[2..]);
      assert s[1..][1..] == s[2..];
      FoldIsFeed(Then(r, line), "", s[2..]);
    } else if IsBreak(s[0]) {
      assert ([line] + LinesFrom("", s[1..]))[1..] == LinesFrom("", s[1..]);
      FoldIsFeed(Then(r, line), "", s[1..]);
    } else {
      FoldIsFeed(r, line + [s[0]], s[1..]);
    }
  }

  lemma {:induction false} FeedConcat(r: Progress, line: string, a: string, b: string)
    ensures Feed(r, line, a + "\n" + b) == Feed(Feed(r, line, a), "", b)
    decreases |a|
  {
    hide Then;
    var s := a + "\n" + b;
    if a == "" {
      assert s[1..] == b;
    } else {
      assert s[1..] == a[1..] + "\n" + b;
      if IsBreak(a[0]) { FeedConcat(Then(r, line), "", a[1..], b); } else { FeedConcat(r, line + [a[0]], a[1..], b); }
    }
  }

  lemma {:induction false} FeedError(r: Progress, line: string, s: string)
    requires r.Err?
    ensures Feed(r, line, s) == r
    decreases |s|
  {
    if s != "" {
      if IsBreak(s[0]) { FeedError(r, "", s[1..]); } else { FeedError(r, line + [s[0]], s[1..]); }
    }
  }

  /** Text up to a line boundary is one line. */
  lemma {:induction false} FeedOneLine(r: Progress, line: string, p: string, q: string)
    requires Breakless(p) && (q == "" || IsBreak(q[0]))
    ensures Feed(r, line, p + q) == if q == "" then Then(r, line + p) else Feed(Then(r, line + p), "", q[1..])
    decreases |p|
  {
    hide Then;
    if p == "" {
      assert p + q == q && line + p == line;
    } else {
      assert (p + q)[1..] == p[1..] + q && line + [p[0]] + p[1..] == line + p;
      FeedOneLine(r, line + [p[0]], p[1..], q);
    }
  }

  // ---- trailing blanks -------------------------------------------------------------------

  lemma {:induction false} UncommentedEnd(s: string, c: char, quote: Option<char>, escaped: bool)
    requires IsSpace(c)
    ensures var kept := Uncommented(s, quote, escaped);
            Uncommented(s + [c], quote, escaped) == kept || Uncommented(s + [c], quote, escaped) == kept + [c]
    decreases |s|
  {
    var t := s + [c];
    if s == "" {
      assert t[1..] == "";
    } else {
      assert t[1..] == s[1..] + [c];
      if escaped { UncommentedEnd(s[1..], c, quote, false); }
      else if s[0] == '\\' && quote.Some? { UncommentedEnd(s[1..], c, quote, true); }
      else if s[0] == '\'' || s[0] == '"' {
        UncommentedEnd(s[1..], c, QuoteAfter(quote, s[0]), false);
      } else { UncommentedEnd(s[1..], c, quote, false); }
    }
  }

  lemma LineIgnoresLastSpace(r: Progress, s: string, c: char)
    requires IsSpace(c) && c != '\t'
    ensures Then(r, s + [c]) == Then(r, s)
  {
    UncommentedEnd(s, c, None, false);
    RTrimDropsLast(Uncommented(s, None, false), c);
    hide Uncommented, RTrim, Item;
    assert '\t' in s + [c] <==> '\t' in s;
  }

  lemma {:induction false} FeedIgnoresLastSpace(r: Progress, line: string, s: string, c: char)
    requires IsSpace(c) && c != '\t'
    ensures Feed(r, line, s + [c]) == Feed(r, line, s)
    decreases |s|
  {
    var t := s + [c];
    if s == "" {
      BlankLine(Then(r, line));
      LineIgnoresLastSpace(r, line, c);
      hide Then;
      assert t == [c] && [c][1..] == "";
    } else {
      hide Then;
      assert t[0] == s[0] && t[1..] == s[1..] + [c];
      if IsBreak(s[0]) {
        FeedIgnoresLastSpace(Then(r, line), "", s[1..], c);
      } else {
        FeedIgnoresLastSpace(r, line + [s[0]], s[1..], c);
      }
    }
  }

  /** The printer's rstrip of a nested mapping does not change what the parser sees. */
  lemma {:induction false} FeedTrimmed(r: Progress, s: string)
    requires '\t' !in s
    ensures Feed(r, "", RTrim(s)) == Feed(r, "", s)
    decreases |s|
  {
    hide Feed;
    if s != "" && IsSpace(s[|s| - 1]) {
      var front := s[..|s| - 1];
      assert s == front + [s[|s| - 1]];
      FeedTrimmed(r, front);
      FeedIgnoresLastSpace(r, "", front, s[|s| - 1]);
    }
  }

  // ---- lists of lines --------------------------------------------------------------------

  function FeedAll(r: Progress, lines: seq<string>): Progress
    decreases |lines|
  {
    if lines == [] then r else FeedAll(Feed(r, "", lines[0]), lines[1..])
  }

  lemma {:induction false} FeedJoined(r: Progress, lines: seq<string>)
    ensures Feed(r, "", Join(lines) + "\n") == FeedAll(r, lines)
    decreases |lines|
  {
    BlankLine(r);
    if lines == [] {
      FeedConcat(r, "", "", "");
      assert "" + "\n" + "" == Join(lines) + "\n";
    } else if |lines| == 1 {
      FeedConcat(r, "", lines[0], "");
      BlankLine(Feed(r, "", lines[0]));
      assert lines[0] + "\n" + "" == Join(lines) + "\n";
      assert lines[1..] == [];
    } else {
      hide Then, IsBreak;
      var rest := Join(lines[1..]) + "\n";
      assert Join(lines) + "\n" == lines[0] + "\n" + rest;
      FeedConcat(r, "", lines[0], rest);
      FeedJoined(Feed(r, "", lines[0]), lines[1..]);
    }
  }

  lemma {:induction false} FeedAllConcat(r: Progress, a: seq<string>, b: seq<string>)
    ensures FeedAll(r, a + b) == FeedAll(FeedAll(r, a), b)
    decreases |a|
  {
    hide Feed;
    if a == [] {
      assert a + b == b;
    } else {
      assert (a + b)[1..] == a[1..] + b;
      FeedAllConcat(Feed(r, "", a[0]), a[1..], b);
    }
  }

  lemma {:induction false} FeedAllError(r: Progress, lines: seq<string>)
    requires r.Err?
    ensures FeedAll(r, lines) == r
    decreases |lines|
  {
    if lines != [] {
      FeedError(r, "", lines[0]);
      FeedAllError(r, lines[1..]);
    }
  }
}
