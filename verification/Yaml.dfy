/** The manifest printer and parser of tools/hako.py (lines 32-111, 316-335). */
module Yaml {
  import opened Results
  import opened YamlText

  datatype Value = Bool(on: bool) | Int(i: int) | Null | Str(text: string) | Map(entries: seq<Entry>)

  /** A Python dict keeps its insertion order: a mapping is its sequence of items. */
  datatype Entry = Entry(key: string, value: Value)

  datatype Error = Tabs | Sequences | NoColon | InvalidMapping | DuplicateKey(key: string) | BadScalar(text: string)

  function Keys(entries: seq<Entry>): set<string> { set e <- entries :: e.key }

  lemma KeysSplit(entries: seq<Entry>)
    requires entries != []
    ensures Keys(entries) == {entries[0].key} + Keys(entries[1..])
  {
    assert entries == [entries[0]] + entries[1..];
    assert forall x <- entries :: x == entries[0] || x in entries[1..];
    assert forall k <- Keys(entries[1..]) :: exists x :: x in entries[1..] && x.key == k && x in entries;
    assert entries[0] in entries;
  }

  // ---- printer ---------------------------------------------------------------------------

  /** _yaml_scalar */
  function ScalarText(v: Value): string
    requires !v.Map?
  {
    match v
    case Bool(on) => if on then "true" else "false"
    case Int(i) => IntText(i)
    case Null => "null"
    case Str(s) => "\"" + Escape(s) + "\""
  }

  /** What one item adds to the printer's list of lines; a nested mapping is one element of it. */
  function ItemLines(e: Entry, indent: nat): seq<string>
    decreases e, 0
  {
    if e.value.Map? then [Spaces(indent) + e.key + ":", RTrim(Dump(e.value.entries, indent + 2))]
    else [Spaces(indent) + e.key + ": " + ScalarText(e.value)]
  }

  function Lines(entries: seq<Entry>, indent: nat): seq<string>
    decreases entries, 0
  {
    if entries == [] then [] else ItemLines(entries[0], indent) + Lines(entries[1..], indent)
  }

  /** _dump_yaml */
  function Dump(entries: seq<Entry>, indent: nat): string
    decreases entries, 1
  {
    Join(Lines(entries, indent)) + "\n"
  }

  // ---- comments and scalars --------------------------------------------------------------

  /** A quote character closes its own quote, opens one outside quotes, and is plain text inside the other. */
  function QuoteAfter(quote: Option<char>, c: char): Option<char> {
    if quote == Some(c) then None else if quote.None? then Some(c) else quote
  }

  /** The part of a line before a comment, from a given quote state. */
  function Uncommented(s: string, quote: Option<char>, escaped: bool): string
    decreases |s|
  {
    if s == "" then ""
    else if escaped then [s[0]] + Uncommented(s[1..], quote, false)
    else if s[0] == '\\' && quote.Some? then [s[0]] + Uncommented(s[1..], quote, true)
    else if s[0] == '\'' || s[0] == '"' then
      [s[0]] + Uncommented(s[1..], QuoteAfter(quote, s[0]), false)
    else if s[0] == '#' && quote.None? then ""
    else [s[0]] + Uncommented(s[1..], quote, false)
  }

  /** _strip_comment */
  function StripComment(s: string): string { RTrim(Uncommented(s, None, false)) }

  /** replace("''", "'") */
  function UndoubleQuotes(s: string): string
    decreases |s|
  {
    if |s| < 2 then s
    else if s[0] == '\'' && s[1] == '\'' then "'" + UndoubleQuotes(s[2..])
    else [s[0]] + UndoubleQuotes(s[1..])
  }

  /** _parse_scalar */
  function ParseScalar(text: string): Result<Value, Error> {
    var value := Trim(text);
    var lowered := Lower(value);
    if value == "" then Ok(Map([]))
    else if lowered == "true" then Ok(Bool(true))
    else if lowered == "false" then Ok(Bool(false))
    else if lowered == "null" || lowered == "~" then Ok(Null)
    else if value[0] == '\'' || value[0] == '"' then
      if |value| < 2 || value[|value| - 1] != value[0] then Err(BadScalar(value))
      else if value[0] == '"' then
        (match Unquote(value[1..])
         case None => Err(BadScalar(value))
         case Some(s) => Ok(Str(s)))
      else Ok(Str(UndoubleQuotes(value[1..|value| - 1])))
    else
      match IntOf(value)
      case Some(i) => Ok(Int(i))
      case None => Ok(Str(value))
  }

  // ---- parser ----------------------------------------------------------------------------

  /**
    The parser's stack. The mapping of an open level is the value of the last item of the level
    below; `entries` of the level above replace it when that level is closed.
   */
  datatype Stack = Root(entries: seq<Entry>) | Open(below: Stack, indent: nat, entries: seq<Entry>)

  function WithEntries(stack: Stack, entries: seq<Entry>): Stack { stack.(entries := entries) }

  /** The mapping below sees the items of the level that is closed. */
  function Close(stack: Stack): (closed: Stack)
    requires stack.Open?
    ensures Depth(closed) == Depth(stack.below)
  {
    var under := stack.below.entries;
    if under == [] then stack.below
    else WithEntries(stack.below, under[..|under| - 1] + [Entry(under[|under| - 1].key, Map(stack.entries))])
  }

  /** Close every level whose indent is not smaller; the root is never closed. */
  function Settle(stack: Stack, indent: nat): Stack
    decreases Depth(stack)
  {
    if stack.Open? && indent <= stack.indent then Settle(Close(stack), indent) else stack
  }

  function Depth(stack: Stack): nat { if stack.Root? then 0 else 1 + Depth(stack.below) }

  function Insert(stack: Stack, e: Entry): Stack { WithEntries(stack, stack.entries + [e]) }

  /** Add `key: rest` to a settled stack. */
  function Put(stack: Stack, indent: nat, key: string, rest: string): Result<Stack, Error> {
    if key == "" then Err(InvalidMapping)
    else if key in Keys(stack.entries) then Err(DuplicateKey(key))
    else
      var value :- ParseScalar(rest);
      var inserted := Insert(stack, Entry(key, value));
      Ok(if value.Map? then Open(inserted, indent, []) else inserted)
  }

  function ColonAt(s: string): nat {
    if s == "" || s[0] == ':' then 0 else 1 + ColonAt(s[1..])
  }

  /** A line without its comment: blank, or one item of the mapping its indent selects. */
  function Item(stack: Stack, line: string): Result<Stack, Error> {
    if Trim(line) == "" then Ok(stack)
    else
      var stripped := DropIndent(line);
      var colon := ColonAt(stripped);
      if stripped != "" && stripped[0] == '-' then Err(Sequences)
      else if colon >= |stripped| then Err(NoColon)
      else
        var indent := |line| - |stripped|;
        Put(Settle(stack, indent), indent, Trim(stripped[..colon]), stripped[colon + 1..])
  }

  /** One round of the loop of load_simple_yaml. */
  function Line(stack: Stack, raw: string): Result<Stack, Error> {
    if '\t' in raw then Err(Tabs) else Item(stack, StripComment(raw))
  }

  function Then(r: Result<Stack, Error>, raw: string): Result<Stack, Error> {
    match r
    case Err(e) => Err(e)
    case Ok(stack) => Line(stack, raw)
  }

  function Fold(r: Result<Stack, Error>, lines: seq<string>): Result<Stack, Error>
    decreases |lines|
  {
    if lines == [] then r else Fold(Then(r, lines[0]), lines[1..])
  }

  /** load_simple_yaml on the text of the manifest. */
  function Load(text: string): Result<seq<Entry>, Error> {
    var stack :- Fold(Ok(Root([])), SplitLines(text));
    Ok(Settle(stack, 0).entries)
  }
}
