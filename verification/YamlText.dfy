/**
  The text functions that tools/hako.py takes from Python: str.strip, str.splitlines, int, and the
  JSON string form of json.dumps and json.loads (section 7 of RFC 8259).
 */
module YamlText {
  import opened Results

  // ---- white space -----------------------------------------------------------------------

  /** str.isspace */
  predicate IsSpace(c: char) {
    || c == ' ' || '\t' <= c <= '\r' || '\U{001c}' <= c <= '\U{001f}' || c == '\U{0085}' || c == '\U{00a0}'
    || c == '\U{1680}' || '\U{2000}' <= c <= '\U{200a}' || c == '\U{2028}' || c == '\U{2029}'
    || c == '\U{202f}' || c == '\U{205f}' || c == '\U{3000}'
  }

  /** The line boundaries of str.splitlines. */
  predicate IsBreak(c: char) {
    '\n' <= c <= '\r' || '\U{001c}' <= c <= '\U{001e}' || IsWideBreak(c)
  }

  /** The boundaries above the control characters, which JSON strings may hold unescaped. */
  predicate IsWideBreak(c: char) { c == '\U{0085}' || c == '\U{2028}' || c == '\U{2029}' }

  predicate Breakless(s: string) { forall c <- s :: !IsBreak(c) }

  /** str.rstrip */
  function RTrim(s: string): string {
    if s != "" && IsSpace(s[|s| - 1]) then RTrim(s[..|s| - 1]) else s
  }

  /** str.lstrip */
  function LTrim(s: string): string {
    if s != "" && IsSpace(s[0]) then LTrim(s[1..]) else s
  }

  /** str.strip */
  function Trim(s: string): string { LTrim(RTrim(s)) }

  /** str.lstrip(" ") */
  function DropIndent(s: string): (r: string)
    ensures |r| <= |s|
  {
    if s != "" && s[0] == ' ' then DropIndent(s[1..]) else s
  }

  function Spaces(n: nat): string { if n == 0 then "" else " " + Spaces(n - 1) }

  lemma {:induction false} RTrimIsPrefix(s: string)
    ensures var n := |RTrim(s)|;
            n <= |s| && RTrim(s) == s[..n] && (forall k :: n <= k < |s| ==> IsSpace(s[k]))
            && (n > 0 ==> !IsSpace(s[n - 1]))
  {
    if s != "" && IsSpace(s[|s| - 1]) { RTrimIsPrefix(s[..|s| - 1]); }
  }

  lemma RTrimDropsLast(s: string, c: char)
    requires IsSpace(c)
    ensures RTrim(s + [c]) == RTrim(s)
  {
    assert (s + [c])[..|s|] == s;
  }

  lemma TrimKeeps(s: string)
    requires s != "" && !IsSpace(s[0]) && !IsSpace(s[|s| - 1])
    ensures Trim(s) == s && Trim(" " + s) == s
  {
    var t := " " + s;
    assert t[|t| - 1] == s[|s| - 1] && t[1..] == s;
  }

  lemma {:induction false} SpacesDrop(n: nat, s: string)
    requires s == "" || s[0] != ' '
    ensures DropIndent(Spaces(n) + s) == s && |Spaces(n)| == n
  {
    if n == 0 {
      assert Spaces(n) + s == s;
    } else {
      SpacesDrop(n - 1, s);
      assert (Spaces(n) + s)[1..] == Spaces(n - 1) + s;
    }
  }

  lemma {:induction false} SpacesAreSpaces(n: nat)
    ensures forall c <- Spaces(n) :: c == ' '
  {
    if n != 0 { SpacesAreSpaces(n - 1); }
  }

  // ---- lines -----------------------------------------------------------------------------

  /** str.splitlines, with the line read so far. */
  function LinesFrom(line: string, s: string): seq<string>
    decreases |s|
  {
    if s == "" then (if line == "" then [] else [line])
    else if s[0] == '\r' && |s| > 1 && s[1] == '\n' then [line] + LinesFrom("", s[2..])
    else if IsBreak(s[0]) then [line] + LinesFrom("", s[1..])
    else LinesFrom(line + [s[0]], s[1..])
  }

  function SplitLines(s: string): seq<string> { LinesFrom("", s) }

  /** "\n".join */
  function Join(lines: seq<string>): string {
    if lines == [] then "" else if |lines| == 1 then lines[0] else lines[0] + "\n" + Join(lines[1..])
  }

  // ---- words -----------------------------------------------------------------------------

  function LowerChar(c: char): char {
    if 'A' <= c <= 'Z' then ((c as int) + 32) as char else c
  }

  /** str.lower, as far as it can matter for a comparison with an ASCII word. */
  function Lower(s: string): string {
    if s == "" then "" else [LowerChar(s[0])] + Lower(s[1..])
  }

  // ---- integers --------------------------------------------------------------------------

  predicate IsDigit(c: char) { '0' <= c <= '9' }

  const DIGITS: string := "0123456789"

  function Digit(d: nat): (c: char)
    requires d < 10
  {
    DIGITS[d]
  }

  function DigitValue(c: char): nat
    requires IsDigit(c)
  {
    c as int - '0' as int
  }

  function NatText(n: nat): string {
    if n < 10 then [Digit(n)] else NatText(n / 10) + [Digit(n % 10)]
  }

  /** str of an int */
  function IntText(i: int): string { if i < 0 then "-" + NatText(-i) else NatText(i) }

  /** Digits with single underscores between them. */
  function NatOf(s: string): Option<nat>
    decreases |s|
  {
    if s == "" || !IsDigit(s[|s| - 1]) then None
    else if |s| == 1 then Some(DigitValue(s[0]))
    else
      var front := s[..|s| - 1];
      var body := if front[|front| - 1] == '_' then front[..|front| - 1] else front;
      var v :- NatOf(body);
      Some(10 * v + DigitValue(s[|s| - 1]))
  }

  /** int(s) for stripped ASCII text */
  function IntOf(s: string): Option<int> {
    if s != "" && s[0] == '-' then Signed(true, NatOf(s[1..]))
    else if s != "" && s[0] == '+' then Signed(false, NatOf(s[1..]))
    else Signed(false, NatOf(s))
  }

  function Signed(negative: bool, n: Option<nat>): Option<int> {
    match n
    case None => None
    case Some(v) =>
      var i: int := v;
      Some(if negative then -i else i)
  }

  lemma DigitRoundTrip(d: nat)
    requires d < 10
    ensures IsDigit(Digit(d)) && DigitValue(Digit(d)) == d
  {
  }

  lemma {:induction false} NatRoundTrip(n: nat)
    ensures NatText(n) != "" && (forall c <- NatText(n) :: IsDigit(c)) && NatOf(NatText(n)) == Some(n)
  {
    if n < 10 {
      DigitRoundTrip(n);
    } else {
      NatRoundTrip(n / 10);
      DigitRoundTrip(n % 10);
      var front := NatText(n / 10);
      assert NatText(n)[..|front|] == front && IsDigit(front[|front| - 1]);
    }
  }

  lemma SignedRoundTrip(t: string, n: nat)
    requires t != "" && NatOf(t) == Some(n) && IsDigit(t[0])
    ensures IntOf("-" + t) == Some(0 - n) && IntOf(t) == Some(n)
  {
    assert ("-" + t)[1..] == t;
    hide NatOf;
  }

  lemma IntRoundTrip(i: int)
    ensures IntOf(IntText(i)) == Some(i)
    ensures IntText(i) != "" && forall c <- IntText(i) :: c == '-' || IsDigit(c)
  {
    var n: nat := if i < 0 then -i else i;
    NatRoundTrip(n);
    hide NatText, NatOf, IntOf;
    var t := NatText(n);
    assert t[0] in t;
    SignedRoundTrip(t, n);
    assert IntText(i) == if i < 0 then "-" + t else t;
  }

  // ---- JSON strings ----------------------------------------------------------------------

  const HEX: string := "0123456789abcdef"

  /** The character of json.dumps for one character, ensure_ascii=False. */
  function EscapeChar(c: char): string {
    match c
    case '"' => "\\\""
    case '\\' => "\\\\"
    case '\n' => "\\n"
    case '\r' => "\\r"
    case '\t' => "\\t"
    case '\U{0008}' => "\\b"
    case '\U{000c}' => "\\f"
    case _ => if c < ' ' then "\\u00" + [HEX[c as int / 16], HEX[c as int % 16]] else [c]
  }

  function Escape(s: string): string {
    if s == "" then "" else EscapeChar(s[0]) + Escape(s[1..])
  }

  function HexValue(c: char): Option<nat> {
    if '0' <= c <= '9' then Some(c as int - '0' as int)
    else if 'a' <= c <= 'f' then Some(c as int - 'a' as int + 10)
    else if 'A' <= c <= 'F' then Some(c as int - 'A' as int + 10)
    else None
  }

  function Hex4(s: string): Option<nat> {
    if |s| < 4 then None
    else
      var a :- HexValue(s[0]);
      var b :- HexValue(s[1]);
      var c :- HexValue(s[2]);
      var d :- HexValue(s[3]);
      Some(0x1000 * a + 0x100 * b + 0x10 * c + d)
  }

  function SimpleEscape(c: char): Option<char> {
    match c
    case '"' => Some('"')
    case '\\' => Some('\\')
    case '/' => Some('/')
    case 'b' => Some('\U{0008}')
    case 'f' => Some('\U{000c}')
    case 'n' => Some('\n')
    case 'r' => Some('\r')
    case 't' => Some('\t')
    case _ => None
  }

  datatype Piece = Piece(c: char, length: nat)

  /** The character an escape or a surrogate pair of escapes at the start of `s` stands for. */
  function EscapeAt(s: string): (p: Option<Piece>)
    requires s != ""
    ensures p.Some? ==> 0 < p.value.length <= |s|
  {
    if |s| < 2 then None
    else if s[1] != 'u' then (var c :- SimpleEscape(s[1]); Some(Piece(c, 2)))
    else
      var u :- Hex4(s[2..]);
      if 0xD800 <= u < 0xDC00 then
        (if |s| >= 12 && s[6] == '\\' && s[7] == 'u' then
           var low :- Hex4(s[8..]);
           if 0xDC00 <= low < 0xE000 then Some(Piece((0x1_0000 + (u - 0xD800) * 0x400 + (low - 0xDC00)) as char, 12))
           else None
         else None)
      else if 0xDC00 <= u < 0xE000 then None
      else if u < 0x1_0000 then Some(Piece(u as char, 6)) else None
  }

  /** json.loads of a string, from behind the opening quote: None where it raises. */
  function Unquote(s: string): Option<string>
    decreases |s|
  {
    if s == "" then None
    else if s[0] == '"' then (if |s| == 1 then Some("") else None)
    else if s[0] == '\\' then
      var p :- EscapeAt(s);
      var rest :- Unquote(s[p.length..]);
      Some([p.c] + rest)
    else if s[0] < ' ' then None
    else (var rest :- Unquote(s[1..]); Some([s[0]] + rest))
  }

  /** An escaped character is the character itself or an escape that EscapeAt reads back. */
  lemma EscapeStarts(c: char, t: string)
    ensures var e := EscapeChar(c);
            || (e == [c] && c != '"' && c != '\\' && c >= ' ')
            || (1 < |e| && e[0] == '\\' && EscapeAt(e + t) == Some(Piece(c, |e|)))
  {
    if c < ' ' && EscapeChar(c)[1] == 'u' {
      ControlEscape(c, t);
      hide EscapeAt;
    } else {
      hide Hex4;
      assert |EscapeChar(c)| == 2 ==> (EscapeChar(c) + t)[1] == EscapeChar(c)[1];
    }
  }

  lemma EscapeCharRoundTrip(c: char, t: string)
    ensures Unquote(EscapeChar(c) + t) == match Unquote(t) { case None => None case Some(rest) => Some([c] + rest) }
  {
    EscapeStarts(c, t);
    hide EscapeChar, EscapeAt;
    var e := EscapeChar(c);
    assert (e + t)[0] == e[0] && (e + t)[|e|..] == t;
  }

  lemma HexRoundTrip(d: nat)
    requires d < 16
    ensures HexValue(HEX[d]) == Some(d)
  {
  }

  lemma ControlEscape(c: char, t: string)
    requires c < ' '
    ensures var s := "\\u00" + [HEX[c as int / 16], HEX[c as int % 16]] + t;
            EscapeAt(s) == Some(Piece(c, 6))
  {
    var n := c as int;
    var s := "\\u00" + [HEX[n / 16], HEX[n % 16]] + t;
    HexRoundTrip(n / 16);
    HexRoundTrip(n % 16);
    HexRoundTrip(0);
    assert s[2..][0] == '0' && s[2..][1] == '0' && s[2..][2] == HEX[n / 16] && s[2..][3] == HEX[n % 16];
    assert Hex4(s[2..]) == Some(n);
  }

  /** json.loads(json.dumps(s)) == s, for every string. */
  lemma {:induction false} JsonRoundTrip(s: string)
    ensures Unquote(Escape(s) + "\"") == Some(s)
  {
    if s != "" {
      JsonRoundTrip(s[1..]);
      EscapeCharRoundTrip(s[0], Escape(s[1..]) + "\"");
      assert Escape(s) + "\"" == EscapeChar(s[0]) + (Escape(s[1..]) + "\"");
      assert [s[0]] + s[1..] == s;
    }
  }

  lemma CutEscapeIsNoString(c: char, n: nat)
    requires n < |EscapeChar(c)|
    ensures Unquote(EscapeChar(c)[..n]) == None
  {
    var e := EscapeChar(c)[..n];
    if n > 1 {
      assert |e[2..]| < 4;
      assert EscapeAt(e) == None;
    }
  }

  /** No proper or improper prefix of an escaped string is closed: json.loads rejects it. */
  lemma {:induction false} PrefixIsUnterminated(s: string, n: nat)
    requires n <= |Escape(s)|
    ensures Unquote(Escape(s)[..n]) == None
    decreases |s|
  {
    if s != "" {
      var e, rest := EscapeChar(s[0]), Escape(s[1..]);
      if n < |e| {
        assert Escape(s)[..n] == e[..n];
        CutEscapeIsNoString(s[0], n);
      } else {
        PrefixIsUnterminated(s[1..], n - |e|);
        assert Escape(s)[..n] == e + rest[..n - |e|];
        EscapeCharRoundTrip(s[0], rest[..n - |e|]);
      }
    }
  }
}
