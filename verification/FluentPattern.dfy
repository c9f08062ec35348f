// `validate_pattern` of scripts/ja_review_inventory.py: which patterns the inventory accepts. Every
// nested select is validated again, so termination is part of what is proved.
module FluentPattern {
  import opened JsMap
  import opened Strings
  import opened FluentSyntax

  datatype Fault =
    | UnmatchedBrace | Unclosed | BadLiteral | BadExpression | NoVariants | NotOneDefault | DuplicateVariant | EmptyVariant

  // ---------- Placeables ----------

  /** The scan of a placeable: how deep it is, and whether it is inside a string or after a backslash there. */
  datatype Scan = Scan(at: nat, depth: int, quoted: bool, escaped: bool)

  /** One character inside a placeable. */
  function Advance(s: Scan, c: char): Scan
  {
    var quoted := if c == '"' && !s.escaped then !s.quoted else s.quoted;
    var depth := if quoted then s.depth else if c == '{' then s.depth + 1 else if c == '}' then s.depth - 1 else s.depth;
    Scan(s.at + 1, depth, quoted, quoted && c == '\\' && !s.escaped)
  }

  function ScanPlaceable(p: string, s: Scan): (r: Scan)
    requires s.at <= |p|
    ensures s.at <= r.at <= |p| && (r.at == |p| || r.depth == 0)
    ensures s.depth != 0 && r.depth == 0 ==> r.at > s.at
    decreases |p| - s.at
  {
    if s.at == |p| || s.depth == 0 then s else ScanPlaceable(p, Advance(s, p[s.at]))
  }

  // ---------- Variants ----------

  /** The scan that marks what lies inside nested placeables; only there does a quote open a string. */
  function MaskAdvance(s: Scan, c: char): Scan
  {
    var quoted := if s.depth != 0 && c == '"' && !s.escaped then !s.quoted else s.quoted;
    var depth := if quoted then s.depth else if c == '{' then s.depth + 1 else if c == '}' then s.depth - 1 else s.depth;
    Scan(s.at + 1, depth, quoted, quoted && c == '\\' && !s.escaped)
  }

  function MaskChar(s: Scan, c: char): char
  {
    if (MaskAdvance(s, c).depth != 0 || c == '}') && c != '\r' && c != '\n' then ' ' else c
  }

  /** The variants with every nested placeable blanked out, line ends kept. */
  function Mask(v: string, s: Scan): (m: string)
    requires s.at <= |v|
    ensures |m| == |v| - s.at
    decreases |v| - s.at
  {
    if s.at == |v| then "" else [MaskChar(s, v[s.at])] + Mask(v, MaskAdvance(s, v[s.at]))
  }

  function Defaults(hs: seq<Header>): nat
  {
    if hs == [] then 0 else (if hs[0].isDefault then 1 else 0) + Defaults(hs[1..])
  }

  predicate DistinctKeys(hs: seq<Header>)
  {
    forall i, j :: 0 <= i < j < |hs| ==> hs[i].key != hs[j].key
  }

  function VariantHeaders(v: string): seq<Header>
  {
    Headers(Mask(v, Scan(0, 0, false, false)), 0)
  }

  // ---------- Validation ----------

  /** The first fault of a pattern from `i` on. */
  function Validate(p: string, i: nat): Option<Fault>
    requires i <= |p|
    decreases |p|, 2, |p| - i
  {
    if i == |p| then None
    else if p[i] == '}' then Some(UnmatchedBrace)
    else if p[i] != '{' then Validate(p, i + 1)
    else
      var end := ScanPlaceable(p, Scan(i + 1, 1, false, false));
      if end.depth != 0 || end.quoted then Some(Unclosed)
      else
        var fault := Expression(p[i + 1..end.at - 1]);
        if fault.Some? then fault else Validate(p, end.at)
  }

  function Expression(text: string): Option<Fault>
    decreases |text|, 4
  {
    var body := Strip(text);
    if IsVariable(body) then None
    else if body != "" && body[0] == '"' then (if IsLiteral(body) then None else Some(BadLiteral))
    else
      var head := SelectHead(body);
      if head.None? then Some(BadExpression) else Variants(body[head.value..])
  }

  function Variants(v: string): Option<Fault>
    decreases |v|, 5
  {
    var hs := VariantHeaders(v);
    if hs == [] || !Blank(v[..hs[0].start]) then Some(NoVariants)
    else if Defaults(hs) != 1 then Some(NotOneDefault)
    else if !DistinctKeys(hs) then Some(DuplicateVariant)
    else VariantValues(v, hs, 0)
  }

  predicate Ordered(v: string, hs: seq<Header>)
  {
    && (forall k :: 0 <= k < |hs| ==> hs[k].start < hs[k].end <= |v|)
    && (forall k :: 0 < k < |hs| ==> hs[k - 1].end <= hs[k].start)
  }

  /** The text of variant `k`: up to the next header. */
  function VariantValue(v: string, hs: seq<Header>, k: nat): (value: string)
    requires Ordered(v, hs) && k < |hs|
    ensures |value| < |v|
  {
    v[hs[k].end..if k + 1 < |hs| then hs[k + 1].start else |v|]
  }

  function VariantValues(v: string, hs: seq<Header>, k: nat): Option<Fault>
    requires Ordered(v, hs) && k <= |hs|
    decreases |v|, 3, |hs| - k
  {
    if k == |hs| then None
    else
      var value := VariantValue(v, hs, k);
      if Blank(value) then Some(EmptyVariant)
      else
        var fault := Validate(value, 0);
        if fault.Some? then fault else VariantValues(v, hs, k + 1)
  }

  // ---------- The program ----------

  method ScanTo(p: string, start: nat) returns (at: nat, depth: int, quoted: bool)
    requires start <= |p|
    ensures var end := ScanPlaceable(p, Scan(start, 1, false, false));
      at == end.at && depth == end.depth && quoted == end.quoted
  {
    var escaped := false;
    at, depth, quoted := start, 1, false;
    while at < |p| && depth != 0
      invariant start <= at <= |p|
      invariant ScanPlaceable(p, Scan(at, depth, quoted, escaped)) == ScanPlaceable(p, Scan(start, 1, false, false))
    {
      var c := p[at];
      if c == '"' && !escaped {
        quoted := !quoted;
      }
      if !quoted {
        if c == '{' {
          depth := depth + 1;
        } else if c == '}' {
          depth := depth - 1;
        }
      }
      escaped := if quoted then c == '\\' && !escaped else false;
      at := at + 1;
    }
  }

  method ValidatePattern(p: string) returns (fault: Option<Fault>)
    ensures fault == Validate(p, 0)
    decreases |p|, 2
  {
    hide ScanPlaceable, Expression, Advance;
    var i := 0;
    while i < |p|
      invariant 0 <= i <= |p|
      invariant Validate(p, i) == Validate(p, 0)
      decreases |p| - i
    {
      if p[i] == '}' {
        return Some(UnmatchedBrace);
      }
      if p[i] != '{' {
        i := i + 1;
        continue;
      }
      var start := i + 1;
      var depth, quoted;
      i, depth, quoted := ScanTo(p, start);
      if depth != 0 || quoted {
        return Some(Unclosed);
      }
      fault := ValidateExpression(p[start..i - 1]);
      if fault.Some? {
        return;
      }
    }
    fault := None;
  }

  method ValidateExpression(text: string) returns (fault: Option<Fault>)
    ensures fault == Expression(text)
    decreases |text|, 4
  {
    var body := Strip(text);
    if IsVariable(body) {
      return None;
    }
    if body != "" && body[0] == '"' {
      return if IsLiteral(body) then None else Some(BadLiteral);
    }
    var head := SelectHead(body);
    if head.None? {
      return Some(BadExpression);
    }
    fault := ValidateVariants(body[head.value..]);
  }

  method ValidateVariants(variants: string) returns (fault: Option<Fault>)
    ensures fault == Variants(variants)
    decreases |variants|, 5
  {
    hide Validate, Headers, Mask, Defaults, DistinctKeys, Blank;
    var masked := MaskPlaceables(variants);
    var headers := Headers(masked, 0);
    if headers == [] || !Blank(variants[..headers[0].start]) {
      return Some(NoVariants);
    }
    if Defaults(headers) != 1 {
      return Some(NotOneDefault);
    }
    if !DistinctKeys(headers) {
      return Some(DuplicateVariant);
    }
    for k := 0 to |headers|
      invariant VariantValues(variants, headers, k) == VariantValues(variants, headers, 0)
    {
      var value := VariantValue(variants, headers, k);
      if Blank(value) {
        return Some(EmptyVariant);
      }
      fault := ValidatePattern(value);
      if fault.Some? {
        return;
      }
    }
    fault := None;
  }

  method MaskPlaceables(v: string) returns (masked: string)
    ensures masked == Mask(v, Scan(0, 0, false, false))
  {
    hide Mask;
    masked := v;
    var depth, quoted, escaped := 0, false, false;
    for at := 0 to |v|
      invariant |masked| == |v| && masked[at..] == v[at..]
      invariant masked[..at] + Mask(v, Scan(at, depth, quoted, escaped)) == Mask(v, Scan(0, 0, false, false))
    {
      ghost var s := Scan(at, depth, quoted, escaped);
      ghost var before := masked;
      var c := v[at];
      if depth != 0 && c == '"' && !escaped {
        quoted := !quoted;
      }
      if !quoted {
        if c == '{' {
          depth := depth + 1;
        } else if c == '}' {
          depth := depth - 1;
        }
      }
      if (depth != 0 || c == '}') && c != '\r' && c != '\n' {
        masked := masked[at := ' '];
      }
      escaped := if quoted then c == '\\' && !escaped else false;
      assert before[at] == c && MaskAdvance(s, c) == Scan(at + 1, depth, quoted, escaped);
      assert masked[..at + 1] == before[..at] + [MaskChar(s, c)];
      MaskNext(before[..at], v, s);
    }
  }

  lemma MaskNext(front: string, v: string, s: Scan)
    requires s.at < |v|
    ensures front + Mask(v, s) == front + [MaskChar(s, v[s.at])] + Mask(v, MaskAdvance(s, v[s.at]))
  {
    hide MaskChar;
    Assoc(front, [MaskChar(s, v[s.at])], Mask(v, MaskAdvance(s, v[s.at])));
  }

  // ---------- What an accepted pattern is ----------

  datatype Piece = Text(text: string) | Placeable(body: string)

  function SourceOf(piece: Piece): string
  {
    match piece
    case Text(text) => text
    case Placeable(body) => "{" + body + "}"
  }

  function Source(pieces: seq<Piece>): string
  {
    if pieces == [] then "" else SourceOf(pieces[0]) + Source(pieces[1..])
  }

  predicate Accepted(piece: Piece)
  {
    match piece
    case Text(text) => '{' !in text && '}' !in text
    case Placeable(body) => Expression(body) == None
  }

  /** The pieces the loop walks over: single characters of text, and whole placeables. */
  function Pieces(p: string, i: nat): seq<Piece>
    requires i <= |p| && Validate(p, i) == None
    decreases |p| - i
  {
    if i == |p| then []
    else if p[i] != '{' then [Text([p[i]])] + Pieces(p, i + 1)
    else
      var end := ScanPlaceable(p, Scan(i + 1, 1, false, false));
      [Placeable(p[i + 1..end.at - 1])] + Pieces(p, end.at)
  }

  lemma {:induction false} ClosingBrace(p: string, s: Scan)
    requires s.at < |p| && s.depth > 0
    requires var r := ScanPlaceable(p, s); r.depth == 0 && !r.quoted
    ensures var r := ScanPlaceable(p, s); r.at > s.at && p[r.at - 1] == '}'
    decreases |p| - s.at
  {
    var next := Advance(s, p[s.at]);
    if next.depth != 0 {
      assert next.at < |p|;
      ClosingBrace(p, next);
    }
  }

  lemma NoSource()
    ensures Source([]) == ""
  {
  }

  lemma SourceFirst(first: Piece, rest: seq<Piece>)
    ensures Source([first] + rest) == SourceOf(first) + Source(rest)
  {
    assert ([first] + rest)[1..] == rest;
  }

  /** An accepted pattern is made of brace-free text and of accepted placeables, with nothing left out. */
  lemma {:induction false} AcceptedIsPieces(p: string, i: nat)
    requires i <= |p| && Validate(p, i) == None
    ensures Source(Pieces(p, i)) == p[i..]
    ensures forall k :: 0 <= k < |Pieces(p, i)| ==> Accepted(Pieces(p, i)[k])
    decreases |p| - i
  {
    hide Expression, ScanPlaceable, Source, Accepted;
    if i == |p| {
      NoSource();
    } else {
      var first, next := FirstPiece(p, i);
      AcceptedIsPieces(p, next);
      SourceFirst(first, Pieces(p, next));
      assert p[i..] == p[i..next] + p[next..];
    }
  }

  function End(p: string, i: nat): nat
    requires i < |p|
  {
    if p[i] == '{' then ScanPlaceable(p, Scan(i + 1, 1, false, false)).at else i + 1
  }

  lemma ValidateNext(p: string, i: nat)
    requires i < |p| && Validate(p, i) == None
    ensures i < End(p, i) <= |p| && Validate(p, End(p, i)) == None
    ensures p[i] == '{' ==>
      && i + 1 < End(p, i) && p[End(p, i) - 1] == '}' && Expression(p[i + 1..End(p, i) - 1]) == None
    ensures p[i] != '{' ==> p[i] != '}'
  {
    hide Expression, Advance;
    if p[i] == '{' {
      assert i + 1 < |p|;
      ClosingBrace(p, Scan(i + 1, 1, false, false));
      hide ScanPlaceable;
    }
  }

  lemma {:induction false} PiecesNext(p: string, i: nat)
    requires i < |p| && Validate(p, i) == None && i < End(p, i) <= |p| && Validate(p, End(p, i)) == None
    requires p[i] == '{' ==> i + 1 < End(p, i)
    ensures Pieces(p, i)
         == [if p[i] == '{' then Placeable(p[i + 1..End(p, i) - 1]) else Text([p[i]])] + Pieces(p, End(p, i))
  {
    hide Expression, ScanPlaceable, Validate;
  }

  lemma FirstPiece(p: string, i: nat) returns (first: Piece, next: nat)
    requires i < |p| && Validate(p, i) == None
    ensures i < next <= |p| && Validate(p, next) == None && Pieces(p, i) == [first] + Pieces(p, next)
    ensures Accepted(first) && SourceOf(first) == p[i..next]
  {
    hide Expression, Validate, Pieces, ScanPlaceable;
    ValidateNext(p, i);
    PiecesNext(p, i);
    next := End(p, i);
    hide End;
    if p[i] == '{' {
      first := Placeable(p[i + 1..next - 1]);
      assert p[i..next] == "{" + p[i + 1..next - 1] + "}";
    } else {
      first := Text([p[i]]);
    }
  }

  /** Text without braces is always accepted. */
  lemma {:induction false} PlainTextIsAccepted(p: string, i: nat)
    requires i <= |p| && '{' !in p && '}' !in p
    ensures Validate(p, i) == None
    decreases |p| - i
  {
    if i < |p| {
      assert p[i] in p;
      PlainTextIsAccepted(p, i + 1);
    }
  }

  /** An accepted select has one default, distinct keys and an accepted value for every variant. */
  lemma {:induction false} VariantsAccepted(v: string, hs: seq<Header>, k: nat, j: nat)
    requires Ordered(v, hs) && k <= j < |hs| && VariantValues(v, hs, k) == None
    ensures !Blank(VariantValue(v, hs, j)) && Validate(VariantValue(v, hs, j), 0) == None
    decreases |hs| - k
  {
    if k < j {
      VariantsAccepted(v, hs, k + 1, j);
    }
  }
}
