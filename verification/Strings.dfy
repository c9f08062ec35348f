// String helpers shared by the text-processing modules: splitting, joining,
// trimming and the JavaScript notion of white space.
module Strings {

  /** The pieces of `s` between occurrences of `c`; one more piece than separators. */
  function Split(s: string, c: char): (pieces: seq<string>)
    ensures |pieces| >= 1
  {
    if s == "" then
      [""]
    else
      var rest := Split(s[1..], c);
      if s[0] == c then [""] + rest else [[s[0]] + rest[0]] + rest[1..]
  }

  function Join(pieces: seq<string>, c: char): string
  {
    if pieces == [] then "" else if |pieces| == 1 then pieces[0]
    else pieces[0] + [c] + Join(pieces[1..], c)
  }

  lemma Assoc<T>(a: seq<T>, b: seq<T>, c: seq<T>)
    ensures a + b + c == a + (b + c)
  {
  }

  function Concat(pieces: seq<string>): string
  {
    if pieces == [] then "" else pieces[0] + Concat(pieces[1..])
  }

  lemma {:induction false} ConcatAppend(a: seq<string>, b: seq<string>)
    ensures Concat(a + b) == Concat(a) + Concat(b)
  {
    if a == [] {
      assert a + b == b;
    } else {
      assert (a + b)[1..] == a[1..] + b;
      ConcatAppend(a[1..], b);
    }
  }

  /** Splitting loses nothing. */
  lemma {:induction false} JoinSplit(s: string, c: char)
    ensures Join(Split(s, c), c) == s
    ensures forall i :: 0 <= i < |Split(s, c)| ==> c !in Split(s, c)[i]
  {
    if s != "" {
      JoinSplit(s[1..], c);
      var rest := Split(s[1..], c);
      var pieces := Split(s, c);
      if s[0] == c {
        assert pieces[1..] == rest;
        assert forall i :: 1 <= i < |pieces| ==> pieces[i] == rest[i - 1];
      } else {
        assert pieces[1..] == rest[1..];
        assert forall i :: 1 <= i < |pieces| ==> pieces[i] == rest[i];
        assert pieces[0] == [s[0]] + rest[0];
      }
    }
  }

  /** Pieces that do not hold the separator come back unchanged. */
  lemma {:induction false} SplitJoin(pieces: seq<string>, c: char)
    requires |pieces| >= 1
    requires forall i :: 0 <= i < |pieces| ==> c !in pieces[i]
    ensures Split(Join(pieces, c), c) == pieces
    decreases |pieces|, |pieces[0]|
  {
    if pieces[0] == "" {
      if |pieces| > 1 {
        SplitJoin(pieces[1..], c);
        assert Join(pieces, c)[1..] == Join(pieces[1..], c);
        assert pieces == [""] + pieces[1..];
      }
    } else {
      var shorter := [pieces[0][1..]] + pieces[1..];
      assert shorter[1..] == pieces[1..];
      SplitJoin(shorter, c);
      assert Join(pieces, c)[0] == pieces[0][0];
      assert pieces[0][0] in pieces[0];
      assert Join(pieces, c)[1..] == Join(shorter, c);
      assert [pieces[0][0]] + shorter[0] == pieces[0];
      assert pieces == [[pieces[0][0]] + shorter[0]] + shorter[1..];
    }
  }

  /** White space as `String.prototype.trim` and the `\s` class define it. */
  predicate IsJsWhitespace(c: char)
  {
    c == '\t' || c == '\n' || c == '\U{000B}' || c == '\U{000C}' || c == '\r' || c == ' '
    || c == '\U{00A0}' || c == '\U{1680}' || '\U{2000}' <= c <= '\U{200A}' || c == '\U{2028}'
    || c == '\U{2029}' || c == '\U{202F}' || c == '\U{205F}' || c == '\U{3000}' || c == '\U{FEFF}'
  }

  function TrimStart(s: string): string
  {
    if s != "" && IsJsWhitespace(s[0]) then TrimStart(s[1..]) else s
  }

  function TrimEnd(s: string): string
  {
    if s != "" && IsJsWhitespace(s[|s| - 1]) then TrimEnd(s[..|s| - 1]) else s
  }

  function Trim(s: string): string
  {
    TrimEnd(TrimStart(s))
  }
}
