// The lexical parts of scripts/ja_review_inventory.py: Python's white space and line ends, and the
// regular expressions of the script as functions on strings.
module FluentSyntax {
  import opened JsMap
  import opened Strings

  /** What `str.strip` removes. */
  predicate IsSpace(c: char)
  {
    || '\t' <= c <= '\r' || '\U{001C}' <= c <= ' ' || c == '\U{0085}' || c == '\U{00A0}' || c == '\U{1680}'
    || '\U{2000}' <= c <= '\U{200A}' || c == '\U{2028}' || c == '\U{2029}' || c == '\U{202F}' || c == '\U{205F}'
    || c == '\U{3000}'
  }

  predicate Blank(s: string)
  {
    forall i :: 0 <= i < |s| ==> IsSpace(s[i])
  }

  function StripLeft(s: string): string
  {
    if s != "" && IsSpace(s[0]) then StripLeft(s[1..]) else s
  }

  function StripRight(s: string): string
  {
    if s != "" && IsSpace(s[|s| - 1]) then StripRight(s[..|s| - 1]) else s
  }

  function Strip(s: string): (r: string)
    ensures |r| <= |s|
  {
    StripShortens(s);
    StripRight(StripLeft(s))
  }

  lemma StripShortens(s: string)
    ensures |StripRight(StripLeft(s))| <= |s|
  {
    LeftShortens(s);
    RightShortens(StripLeft(s));
  }

  lemma LeftShortens(s: string)
    ensures |StripLeft(s)| <= |s|
  {
  }

  lemma RightShortens(s: string)
    ensures |StripRight(s)| <= |s|
  {
  }

  // ---------- Lines ----------

  predicate EndsLine(c: char)
  {
    || '\n' <= c <= '\r' || '\U{001C}' <= c <= '\U{001E}' || c == '\U{0085}' || c == '\U{2028}' || c == '\U{2029}'
  }

  /** Where the first line of `s` ends, its line end included. */
  function LineEnd(s: string): (n: nat)
    requires s != ""
    ensures 0 < n <= |s|
  {
    if s[0] == '\r' && |s| > 1 && s[1] == '\n' then 2
    else if EndsLine(s[0]) || |s| == 1 then 1
    else 1 + LineEnd(s[1..])
  }

  function SplitLines(s: string): seq<string>
  {
    if s == "" then [] else [s[..LineEnd(s)]] + SplitLines(s[LineEnd(s)..])
  }

  lemma {:induction false} LinesConcat(s: string)
    ensures Concat(SplitLines(s)) == s
    ensures forall i :: 0 <= i < |SplitLines(s)| ==> SplitLines(s)[i] != ""
  {
    if s != "" {
      LinesConcat(s[LineEnd(s)..]);
    }
  }

  // ---------- Names, entries and attributes ----------

  predicate IsLetter(c: char)
  {
    'A' <= c <= 'Z' || 'a' <= c <= 'z'
  }

  predicate IsDigit(c: char)
  {
    '0' <= c <= '9'
  }

  predicate IsNameChar(c: char)
  {
    IsLetter(c) || IsDigit(c) || c == '_' || c == '-'
  }

  /** How many characters from `i` on satisfy `p`. */
  function Span(s: string, i: nat, p: char -> bool): (j: nat)
    requires i <= |s|
    ensures i <= j <= |s|
    ensures forall k :: i <= k < j ==> p(s[k])
    ensures j < |s| ==> !p(s[j])
    decreases |s| - i
  {
    if i < |s| && p(s[i]) then Span(s, i + 1, p) else i
  }

  /** The end of a name `[A-Za-z][A-Za-z0-9_-]*` at `i`; `i` itself when there is none. */
  function NameEnd(s: string, i: nat): (j: nat)
    requires i <= |s|
    ensures i <= j <= |s|
  {
    if i < |s| && IsLetter(s[i]) then Span(s, i + 1, IsNameChar) else i
  }

  function SkipBlanks(s: string, i: nat): (j: nat)
    requires i <= |s|
    ensures i <= j <= |s|
  {
    Span(s, i, (c: char) => c == ' ' || c == '\t')
  }

  /** A match at the start of a line: the name it captures and where it ends. */
  datatype Match = Match(name: string, end: nat)

  /** `^(-?NAME)[ \t]*=` */
  function Entry(line: string): (m: Option<Match>)
    ensures m.Some? ==> 0 < m.value.end <= |line| && |m.value.name| > 0 && m.value.name <= line
    ensures m.Some? ==> IsLetter(line[0]) || line[0] == '-'
  {
    var start := if line != "" && line[0] == '-' then 1 else 0;
    var nameEnd := NameEnd(line, start);
    var equals := SkipBlanks(line, nameEnd);
    if nameEnd > start && equals < |line| && line[equals] == '=' then Some(Match(line[..nameEnd], equals + 1)) else None
  }

  /** `^[ \t]+\.(NAME)[ \t]*=` */
  function Attribute(line: string): (m: Option<Match>)
    ensures m.Some? ==> 0 < m.value.end <= |line| && |m.value.name| > 0
  {
    var dot := SkipBlanks(line, 0);
    if dot == 0 || dot == |line| || line[dot] != '.' then None
    else
      var nameEnd := NameEnd(line, dot + 1);
      var equals := SkipBlanks(line, nameEnd);
      if nameEnd > dot + 1 && equals < |line| && line[equals] == '=' then
        Some(Match(line[dot + 1..nameEnd], equals + 1))
      else None
  }

  predicate Comment(line: string)
  {
    line != "" && line[0] == '#'
  }

  /** A line that can continue a message. */
  predicate Continues(line: string)
  {
    line != "" && (line[0] == ' ' || line[0] == '\t' || line[0] == '}')
  }

  // ---------- Expressions ----------

  /** `\$NAME` at `i`; `i` when there is none. */
  function VariableEnd(s: string, i: nat): (j: nat)
    requires i <= |s|
    ensures i <= j <= |s|
  {
    if i < |s| && s[i] == '$' && NameEnd(s, i + 1) > i + 1 then NameEnd(s, i + 1) else i
  }

  predicate IsVariable(s: string)
  {
    |s| > 0 && VariableEnd(s, 0) == |s|
  }

  predicate IsHex(c: char)
  {
    IsDigit(c) || 'a' <= c <= 'f' || 'A' <= c <= 'F'
  }

  predicate AllHex(s: string)
  {
    forall i :: 0 <= i < |s| ==> IsHex(s[i])
  }

  /** The rest of a quoted literal: plain characters and escapes up to the closing quote, and nothing after. */
  predicate LiteralTail(s: string)
  {
    if s == "" then false
    else if s[0] == '"' then |s| == 1
    else if s[0] == '\\' then
      if |s| > 1 && (s[1] == '\\' || s[1] == '"') then LiteralTail(s[2..])
      else if |s| > 5 && s[1] == 'u' && AllHex(s[2..6]) then LiteralTail(s[6..])
      else if |s| > 7 && s[1] == 'U' && AllHex(s[2..8]) then LiteralTail(s[8..])
      else false
    else s[0] != '\r' && s[0] != '\n' && LiteralTail(s[1..])
  }

  predicate IsLiteral(s: string)
  {
    |s| > 0 && s[0] == '"' && LiteralTail(s[1..])
  }

  /** `\$NAME[ \t]*->[ \t]*\r?\n`: where the head of a select ends. A name gives a last `-` to the arrow. */
  function SelectHead(s: string): (end: Option<nat>)
    ensures end.Some? ==> 0 < end.value <= |s|
  {
    var name := VariableEnd(s, 0);
    var arrow := if 0 < name < |s| && s[name] == '>' && s[name - 1] == '-' then name - 1 else SkipBlanks(s, name);
    if name == 0 || arrow + 2 > |s| || s[arrow..arrow + 2] != "->" then None
    else
      var line := SkipBlanks(s, arrow + 2);
      if line < |s| && s[line] == '\n' then Some(line + 1)
      else if line + 1 < |s| && s[line] == '\r' && s[line + 1] == '\n' then Some(line + 2)
      else None
  }

  /** A variant header: where it starts and ends, whether it is the default, and its key. */
  datatype Header = Header(start: nat, end: nat, isDefault: bool, key: string)

  /** `-?\d+(?:\.\d+)?` at `i`; `i` when there is none. */
  function NumberEnd(s: string, i: nat): (j: nat)
    requires i <= |s|
    ensures i <= j <= |s|
  {
    var start := if i < |s| && s[i] == '-' then i + 1 else i;
    var whole := Span(s, start, IsDigit);
    if whole == start then i
    else if whole < |s| && s[whole] == '.' && Span(s, whole + 1, IsDigit) > whole + 1 then Span(s, whole + 1, IsDigit)
    else whole
  }

  /** `[ \t]*(\*?)\[(NAME|NUMBER)\]` at the start `i` of a line. */
  function HeaderAt(s: string, i: nat): (h: Option<Header>)
    requires i <= |s|
    ensures h.Some? ==> h.value.start == i < h.value.end <= |s|
  {
    var star := SkipBlanks(s, i);
    var isDefault := star < |s| && s[star] == '*';
    var bracket := if isDefault then star + 1 else star;
    if bracket >= |s| || s[bracket] != '[' then None
    else
      var name := NameEnd(s, bracket + 1);
      var end := if name > bracket + 1 then name else NumberEnd(s, bracket + 1);
      if end > bracket + 1 && end < |s| && s[end] == ']' then Some(Header(i, end + 1, isDefault, s[bracket + 1..end]))
      else None
  }

  /** Every header from `i` on; a header starts at the start of a line. */
  function Headers(s: string, i: nat): (hs: seq<Header>)
    requires i <= |s|
    ensures forall k :: 0 <= k < |hs| ==> i <= hs[k].start < hs[k].end <= |s|
    ensures forall k :: 0 < k < |hs| ==> hs[k - 1].end <= hs[k].start
    decreases |s| - i
  {
    var h := if i == 0 || s[i - 1] == '\n' then HeaderAt(s, i) else None;
    if h.Some? then [h.value] + Headers(s, h.value.end)
    else if i == |s| then [] else Headers(s, i + 1)
  }
}
