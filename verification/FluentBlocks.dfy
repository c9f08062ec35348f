// `parse_fluent` of scripts/ja_review_inventory.py: a catalog is cut into blank, comment and message
// blocks that keep every character.
module FluentBlocks {
  import opened JsMap
  import opened Strings
  import opened FluentSyntax
  import FluentPattern

  datatype Error =
    | Unsupported | MalformedEntry(line: nat) | DuplicateId(line: nat, id: string) | MalformedContinuation(line: nat)
    | DuplicateAttribute(line: nat, name: string) | EmptyMessage(line: nat, id: string)
    | TermWithoutValue(line: nat, id: string) | EmptyAttribute(line: nat, name: string)
    | BadPattern(line: nat, fault: FluentPattern.Fault) | LossyExtraction

  datatype Result<+T> = Ok(value: T) | Err(error: Error)

  /** `header` is the text up to the equals sign; the program drops it, `source` keeps it. */
  datatype AttributeText = AttributeText(name: string, header: string, body: string)

  datatype Block =
    | Plain(comment: bool, startLine: nat, endLine: nat, source: string)
    | Message(id: string, header: string, value: string, attributes: seq<AttributeText>, comments: string,
              startLine: nat, endLine: nat, source: string)

  // ---------- Blocks ----------

  predicate PlainLine(line: string, comment: bool)
  {
    if comment then Comment(line) else Blank(line)
  }

  /** The end of the run of comment lines, or of blank lines, at `i`. */
  function RunEnd(lines: seq<string>, i: nat, comment: bool): (j: nat)
    requires i <= |lines|
    ensures i <= j <= |lines|
    ensures forall k :: i <= k < j ==> PlainLine(lines[k], comment)
    ensures j < |lines| ==> !PlainLine(lines[j], comment)
    decreases |lines| - i
  {
    if i < |lines| && PlainLine(lines[i], comment) then RunEnd(lines, i + 1, comment) else i
  }

  /** The end of the message whose lines go on at `i`: blank lines belong to it when a continuation follows. */
  function MessageEnd(lines: seq<string>, i: nat): (r: Result<nat>)
    requires i <= |lines|
    ensures r.Ok? ==> i <= r.value <= |lines|
    decreases |lines| - i
  {
    if i == |lines| || Entry(lines[i]).Some? || Comment(lines[i]) then Ok(i)
    else if Blank(lines[i]) then
      var j := RunEnd(lines, i, false);
      if j == |lines| || !Continues(lines[j]) then Ok(i) else MessageEnd(lines, j)
    else if !Continues(lines[i]) then Err(MalformedContinuation(i + 1))
    else MessageEnd(lines, i + 1)
  }

  predicate Named(attributes: seq<AttributeText>, name: string)
  {
    exists k :: 0 <= k < |attributes| && attributes[k].name == name
  }

  /** What a message has gathered so far: its value, and its attributes in order. */
  datatype Text = Text(value: string, attributes: seq<AttributeText>)

  /** A line goes to the value until the first attribute, then to the last one; an attribute may not repeat. */
  function Grow(t: Text, line: string): Option<Text>
  {
    var m := Attribute(line);
    if m.Some? then
      if Named(t.attributes, m.value.name) then None
      else
        var a := AttributeText(m.value.name, line[..m.value.end], line[m.value.end..]);
        Some(t.(attributes := t.attributes + [a]))
    else if t.attributes == [] then Some(t.(value := t.value + line))
    else
      var last := t.attributes[|t.attributes| - 1];
      Some(t.(attributes := t.attributes[|t.attributes| - 1 := last.(body := last.body + line)]))
  }

  function Body(rest: seq<string>, t: Text, start: nat): Result<Text>
    decreases |rest|
  {
    if rest == [] then Ok(t)
    else
      match Grow(t, rest[0])
      case None => Err(DuplicateAttribute(start, if Attribute(rest[0]).Some? then Attribute(rest[0]).value.name else ""))
      case Some(longer) => Body(rest[1..], longer, start)
  }

  function CheckPattern(p: string, line: nat): Option<Error>
  {
    match FluentPattern.Validate(p, 0)
    case None => None
    case Some(fault) => Some(BadPattern(line, fault))
  }

  function CheckAttributes(attributes: seq<AttributeText>, line: nat): Option<Error>
  {
    if attributes == [] then None
    else if Blank(attributes[0].body) then Some(EmptyAttribute(line, attributes[0].name))
    else
      var error := CheckPattern(attributes[0].body, line);
      if error.Some? then error else CheckAttributes(attributes[1..], line)
  }

  predicate IsTerm(id: string)
  {
    id != "" && id[0] == '-'
  }

  function CheckMessage(id: string, value: string, attributes: seq<AttributeText>, line: nat): Option<Error>
  {
    if Blank(value) && attributes == [] then Some(EmptyMessage(line, id))
    else if IsTerm(id) && Blank(value) then Some(TermWithoutValue(line, id))
    else
      var error := CheckPattern(value, line);
      if error.Some? then error else CheckAttributes(attributes, line)
  }

  function MessageAt(lines: seq<string>, start: nat, end: nat, comments: string): Result<Block>
    requires start < end <= |lines| && Entry(lines[start]).Some?
  {
    var m := Entry(lines[start]).value;
    match Body(lines[start + 1..end], Text(lines[start][m.end..], []), start + 1)
    case Err(e) => Err(e)
    case Ok(Text(value, attributes)) =>
      match CheckMessage(m.name, value, attributes, start + 1)
      case Some(e) => Err(e)
      case None =>
        Ok(Message(m.name, lines[start][..m.end], value, attributes, comments, start + 1, end, Concat(lines[start..end])))
  }

  /** What happens at line `i`: the next block, or an error. */
  function NextBlock(lines: seq<string>, i: nat, ids: set<string>, comments: string): (r: Result<Block>)
    requires i < |lines|
    ensures r.Ok? ==> r.value.startLine == i + 1 && i < r.value.endLine <= |lines|
  {
    var line := lines[i];
    if Blank(line) || Comment(line) then
      var end := RunEnd(lines, i + 1, Comment(line));
      Ok(Plain(Comment(line), i + 1, end, Concat(lines[i..end])))
    else
      match Entry(line)
      case None => Err(MalformedEntry(i + 1))
      case Some(m) =>
        if m.name in ids then Err(DuplicateId(i + 1, m.name))
        else
          match MessageEnd(lines, i + 1)
          case Err(e) => Err(e)
          case Ok(end) => MessageAt(lines, i, end, comments)
  }

  function IdsAfter(ids: set<string>, block: Block): set<string>
  {
    if block.Message? then ids + {block.id} else ids
  }

  /** Comments gather until a message takes them. */
  function CommentsAfter(comments: string, block: Block): string
  {
    match block
    case Plain(comment, _, _, source) => if comment then comments + source else comments
    case Message(_, _, _, _, _, _, _, _) => ""
  }

  function Parse(lines: seq<string>, i: nat, ids: set<string>, comments: string): Result<seq<Block>>
    requires i <= |lines|
    decreases |lines| - i
  {
    if i == |lines| then Ok([])
    else
      match NextBlock(lines, i, ids, comments)
      case Err(e) => Err(e)
      case Ok(block) =>
        match Parse(lines, block.endLine, IdsAfter(ids, block), CommentsAfter(comments, block))
        case Err(e) => Err(e)
        case Ok(rest) => Ok([block] + rest)
  }

  function ParseText(text: string): Result<seq<Block>>
  {
    if '\0' in text || (text != "" && text[0] == '\U{FEFF}') then Err(Unsupported)
    else Parse(SplitLines(text), 0, {}, "")
  }

  function Sources(blocks: seq<Block>): seq<string>
  {
    if blocks == [] then [] else [blocks[0].source] + Sources(blocks[1..])
  }

  // ---------- The program ----------

  method SkipRun(lines: seq<string>, start: nat, comment: bool) returns (i: nat)
    requires start <= |lines|
    ensures i == RunEnd(lines, start, comment)
  {
    i := start;
    while i < |lines| && PlainLine(lines[i], comment)
      invariant start <= i <= |lines| && RunEnd(lines, i, comment) == RunEnd(lines, start, comment)
    {
      i := i + 1;
    }
  }

  method SkipContinuations(lines: seq<string>, start: nat) returns (end: Result<nat>)
    requires start <= |lines|
    ensures end == MessageEnd(lines, start)
  {
    hide RunEnd;
    var i := start;
    while i < |lines|
      invariant start <= i <= |lines| && MessageEnd(lines, i) == MessageEnd(lines, start)
    {
      var following := lines[i];
      if Entry(following).Some? || Comment(following) {
        break;
      }
      if Blank(following) {
        var j := SkipRun(lines, i, false);
        if j == |lines| || !Continues(lines[j]) {
          break;
        }
        i := j;
        continue;
      }
      if !Continues(following) {
        return Err(MalformedContinuation(i + 1));
      }
      i := i + 1;
    }
    end := Ok(i);
  }

  method SplitBody(rest: seq<string>, first: string, start: nat) returns (body: Result<Text>)
    ensures body == Body(rest, Text(first, []), start)
  {
    var value, attributes: seq<AttributeText> := first, [];
    var i := 0;
    assert rest[0..] == rest;
    while i < |rest|
      invariant 0 <= i <= |rest|
      invariant Body(rest[i..], Text(value, attributes), start) == Body(rest, Text(first, []), start)
    {
      assert rest[i..][1..] == rest[i + 1..];
      var m := Attribute(rest[i]);
      if m.Some? {
        if exists k :: 0 <= k < |attributes| && attributes[k].name == m.value.name {
          return Err(DuplicateAttribute(start, m.value.name));
        }
        attributes := attributes + [AttributeText(m.value.name, rest[i][..m.value.end], rest[i][m.value.end..])];
      } else if attributes == [] {
        value := value + rest[i];
      } else {
        var last := attributes[|attributes| - 1];
        attributes := attributes[|attributes| - 1 := last.(body := last.body + rest[i])];
      }
      i := i + 1;
    }
    body := Ok(Text(value, attributes));
  }

  method ValidateMessage(id: string, value: string, attributes: seq<AttributeText>, line: nat)
    returns (error: Option<Error>)
    ensures error == CheckMessage(id, value, attributes, line)
  {
    if Blank(value) && attributes == [] {
      return Some(EmptyMessage(line, id));
    }
    if IsTerm(id) && Blank(value) {
      return Some(TermWithoutValue(line, id));
    }
    var fault := FluentPattern.ValidatePattern(value);
    if fault.Some? {
      return Some(BadPattern(line, fault.value));
    }
    var i := 0;
    assert attributes[0..] == attributes;
    while i < |attributes|
      invariant 0 <= i <= |attributes|
      invariant CheckAttributes(attributes[i..], line) == CheckAttributes(attributes, line)
    {
      assert attributes[i..][1..] == attributes[i + 1..];
      if Blank(attributes[i].body) {
        return Some(EmptyAttribute(line, attributes[i].name));
      }
      fault := FluentPattern.ValidatePattern(attributes[i].body);
      if fault.Some? {
        return Some(BadPattern(line, fault.value));
      }
      i := i + 1;
    }
    error := None;
  }

  /** One turn of the loop over blocks. */
  method ReadBlock(lines: seq<string>, start: nat, ids: set<string>, comments: string) returns (block: Result<Block>)
    requires start < |lines|
    ensures block == NextBlock(lines, start, ids, comments)
  {
    hide RunEnd, MessageEnd, Body, CheckMessage;
    var line := lines[start];
    if Blank(line) || Comment(line) {
      var comment := Comment(line);
      var end := SkipRun(lines, start + 1, comment);
      return Ok(Plain(comment, start + 1, end, Concat(lines[start..end])));
    }
    var m := Entry(line);
    if m.None? {
      return Err(MalformedEntry(start + 1));
    }
    if m.value.name in ids {
      return Err(DuplicateId(start + 1, m.value.name));
    }
    var end := SkipContinuations(lines, start + 1);
    if end.Err? {
      return Err(end.error);
    }
    var body := SplitBody(lines[start + 1..end.value], line[m.value.end..], start + 1);
    if body.Err? {
      return Err(body.error);
    }
    var Text(value, attributes) := body.value;
    var error := ValidateMessage(m.value.name, value, attributes, start + 1);
    if error.Some? {
      return Err(error.value);
    }
    var source := Concat(lines[start..end.value]);
    block := Ok(Message(m.value.name, line[..m.value.end], value, attributes, comments, start + 1, end.value, source));
  }

  /** The check at the end that nothing was lost never fails. */
  method ParseFluent(text: string) returns (blocks: Result<seq<Block>>)
    ensures blocks == ParseText(text)
    ensures blocks.Ok? ==> Concat(Sources(blocks.value)) == text
    ensures blocks != Err(LossyExtraction)
  {
    hide NextBlock;
    if '\0' in text || (text != "" && text[0] == '\U{FEFF}') {
      return Err(Unsupported);
    }
    var lines := SplitLines(text);
    NothingFound(Parse(lines, 0, {}, ""));
    var found: seq<Block>, ids: set<string>, comments := [], {}, "";
    var i := 0;
    while i < |lines|
      invariant 0 <= i <= |lines|
      invariant Parse(lines, 0, {}, "") == After(found, Parse(lines, i, ids, comments))
    {
      var block := ReadBlock(lines, i, ids, comments);
      if block.Err? {
        BlockIsNotLossy(lines, i, ids, comments);
        return Err(block.error);
      }
      AfterBlock(found, block.value, lines, i, ids, comments);
      ids, comments := IdsAfter(ids, block.value), CommentsAfter(comments, block.value);
      found := found + [block.value];
      i := block.value.endLine;
    }
    assert found + [] == found;
    ParseIsLossless(lines, 0, {}, "");
    assert lines[0..] == lines;
    LinesConcat(text);
    if Concat(Sources(found)) != text {
      return Err(LossyExtraction);
    }
    blocks := Ok(found);
  }

  function After(found: seq<Block>, rest: Result<seq<Block>>): Result<seq<Block>>
  {
    match rest
    case Err(e) => Err(e)
    case Ok(blocks) => Ok(found + blocks)
  }

  lemma NothingFound(rest: Result<seq<Block>>)
    ensures After([], rest) == rest
  {
    if rest.Ok? {
      assert [] + rest.value == rest.value;
    }
  }

  lemma AfterBlock(found: seq<Block>, block: Block, lines: seq<string>, i: nat, ids: set<string>, comments: string)
    requires i < |lines| && NextBlock(lines, i, ids, comments) == Ok(block)
    ensures After(found, Parse(lines, i, ids, comments))
         == After(found + [block], Parse(lines, block.endLine, IdsAfter(ids, block), CommentsAfter(comments, block)))
  {
    hide NextBlock;
    var rest := Parse(lines, block.endLine, IdsAfter(ids, block), CommentsAfter(comments, block));
    if rest.Ok? {
      Assoc(found, [block], rest.value);
    }
  }

  // ---------- Laws ----------

  /** The blocks cover the lines after `from` up to line `to`, in order, without gap or overlap. */
  predicate Tiles(blocks: seq<Block>, from: nat, to: nat)
  {
    if blocks == [] then from == to
    else blocks[0].startLine == from + 1 && from < blocks[0].endLine <= to && Tiles(blocks[1..], blocks[0].endLine, to)
  }

  predicate Sourced(block: Block, lines: seq<string>)
  {
    0 < block.startLine <= block.endLine <= |lines| && block.source == Concat(lines[block.startLine - 1..block.endLine])
  }

  lemma {:induction false} ParseTiles(lines: seq<string>, i: nat, ids: set<string>, comments: string)
    requires i <= |lines|
    ensures var blocks := Parse(lines, i, ids, comments);
      blocks.Ok? ==>
        && Tiles(blocks.value, i, |lines|)
        && forall k :: 0 <= k < |blocks.value| ==> Sourced(blocks.value[k], lines)
    decreases |lines| - i
  {
    hide NextBlock, Sourced;
    if i < |lines| && Parse(lines, i, ids, comments).Ok? {
      var block := NextBlock(lines, i, ids, comments).value;
      ParseTiles(lines, block.endLine, IdsAfter(ids, block), CommentsAfter(comments, block));
      assert Sourced(block, lines) by { BlockIsSourced(lines, i, ids, comments); }
    }
  }

  lemma BlockIsSourced(lines: seq<string>, i: nat, ids: set<string>, comments: string)
    requires i < |lines| && NextBlock(lines, i, ids, comments).Ok?
    ensures Sourced(NextBlock(lines, i, ids, comments).value, lines)
    ensures NextBlock(lines, i, ids, comments).value.startLine == i + 1
  {
    hide RunEnd, MessageEnd, Body, CheckMessage, Entry;
  }

  lemma {:induction false} ParseIsLossless(lines: seq<string>, i: nat, ids: set<string>, comments: string)
    requires i <= |lines|
    ensures var blocks := Parse(lines, i, ids, comments);
      blocks.Ok? ==> Concat(Sources(blocks.value)) == Concat(lines[i..])
    decreases |lines| - i
  {
    hide NextBlock;
    if i < |lines| && Parse(lines, i, ids, comments).Ok? {
      var block := NextBlock(lines, i, ids, comments).value;
      BlockIsSourced(lines, i, ids, comments);
      ParseIsLossless(lines, block.endLine, IdsAfter(ids, block), CommentsAfter(comments, block));
      assert lines[i..] == lines[i..block.endLine] + lines[block.endLine..];
      ConcatAppend(lines[i..block.endLine], lines[block.endLine..]);
      var blocks := Parse(lines, i, ids, comments).value;
      assert Sources(blocks)[0] == block.source && Sources(blocks)[1..] == Sources(blocks[1..]);
    }
  }

  lemma BlockIsNotLossy(lines: seq<string>, i: nat, ids: set<string>, comments: string)
    requires i < |lines|
    ensures NextBlock(lines, i, ids, comments) != Err(LossyExtraction)
  {
    EndIsNotLossy(lines, i + 1);
    hide MessageEnd, Body, CheckMessage;
    if Entry(lines[i]).Some? && MessageEnd(lines, i + 1).Ok? {
      var m := Entry(lines[i]).value;
      var rest := lines[i + 1..MessageEnd(lines, i + 1).value];
      BodyIsNotLossy(rest, Text(lines[i][m.end..], []), i + 1);
      var body := Body(rest, Text(lines[i][m.end..], []), i + 1);
      if body.Ok? {
        CheckIsNotLossy(m.name, body.value.value, body.value.attributes, i + 1);
      }
    }
  }

  lemma {:induction false} EndIsNotLossy(lines: seq<string>, i: nat)
    requires i <= |lines|
    ensures MessageEnd(lines, i) != Err(LossyExtraction)
    decreases |lines| - i
  {
    if i < |lines| {
      EndIsNotLossy(lines, i + 1);
      var j := RunEnd(lines, i, false);
      if j > i {
        EndIsNotLossy(lines, j);
      }
    }
  }

  lemma {:induction false} BodyIsNotLossy(rest: seq<string>, t: Text, start: nat)
    ensures Body(rest, t, start) != Err(LossyExtraction)
    decreases |rest|
  {
    if rest != [] && Grow(t, rest[0]).Some? {
      BodyIsNotLossy(rest[1..], Grow(t, rest[0]).value, start);
    }
  }

  lemma CheckIsNotLossy(id: string, value: string, attributes: seq<AttributeText>, line: nat)
    ensures CheckMessage(id, value, attributes, line) != Some(LossyExtraction)
  {
    AttributesAreNotLossy(attributes, line);
  }

  lemma {:induction false} AttributesAreNotLossy(attributes: seq<AttributeText>, line: nat)
    ensures CheckAttributes(attributes, line) != Some(LossyExtraction)
  {
    if attributes != [] {
      AttributesAreNotLossy(attributes[1..], line);
    }
  }

  // ---------- What the blocks are ----------

  /** A run of blank or of comment lines, and all of it. */
  predicate WholeRun(block: Block, lines: seq<string>)
  {
    block.Plain? ==>
      && 0 < block.startLine <= block.endLine <= |lines|
      && (forall k :: block.startLine - 1 <= k < block.endLine ==> PlainLine(lines[k], block.comment))
      && (block.endLine < |lines| ==> !PlainLine(lines[block.endLine], block.comment))
  }

  function AttributesSource(attributes: seq<AttributeText>): string
  {
    if attributes == [] then ""
    else
      AttributesSource(attributes[..|attributes| - 1])
      + attributes[|attributes| - 1].header + attributes[|attributes| - 1].body
  }

  /** An attribute header is what the attribute expression matches at the start of some line of the message. */
  predicate HeaderIn(a: AttributeText, lines: seq<string>)
  {
    exists k :: 0 <= k < |lines| && a.header <= lines[k] && Attribute(lines[k]) == Some(Match(a.name, |a.header|))
  }

  /** The message's header, value, attribute headers and attribute bodies are its lines, in order. */
  predicate Accounted(block: Block, lines: seq<string>)
  {
    block.Message? ==>
      && 0 < block.startLine <= block.endLine <= |lines|
      && block.header <= lines[block.startLine - 1]
      && Entry(lines[block.startLine - 1]) == Some(Match(block.id, |block.header|))
      && block.source == block.header + block.value + AttributesSource(block.attributes)
      && (forall k :: 0 <= k < |block.attributes| ==>
            HeaderIn(block.attributes[k], lines[block.startLine..block.endLine]))
      && (forall j, k :: 0 <= j < k < |block.attributes| ==> block.attributes[j].name != block.attributes[k].name)
  }

  /** Every pattern of the message was accepted, and none of them is empty where it must not be. */
  predicate Validated(block: Block)
  {
    block.Message? ==>
      && FluentPattern.Validate(block.value, 0) == None
      && (Blank(block.value) ==> block.attributes != [] && !IsTerm(block.id))
      && (forall k :: 0 <= k < |block.attributes| ==>
            !Blank(block.attributes[k].body) && FluentPattern.Validate(block.attributes[k].body, 0) == None)
  }

  /** What the gathered text stands for in the file. */
  function Gathered(t: Text): string
  {
    t.value + AttributesSource(t.attributes)
  }

  /** The attributes gathered have headers in these lines and distinct names. */
  predicate Headed(t: Text, lines: seq<string>)
  {
    && (forall k :: 0 <= k < |t.attributes| ==> HeaderIn(t.attributes[k], lines))
    && (forall j, k :: 0 <= j < k < |t.attributes| ==> t.attributes[j].name != t.attributes[k].name)
  }

  lemma AttributesSourceLast(attributes: seq<AttributeText>, a: AttributeText)
    ensures AttributesSource(attributes + [a]) == AttributesSource(attributes) + a.header + a.body
  {
    assert (attributes + [a])[..|attributes|] == attributes;
  }

  lemma GrowGathers(t: Text, line: string)
    requires Grow(t, line).Some?
    ensures Gathered(Grow(t, line).value) == Gathered(t) + line
  {
    hide Attribute;
    var m := Attribute(line);
    if m.Some? {
      var a := AttributeText(m.value.name, line[..m.value.end], line[m.value.end..]);
      AttributesSourceLast(t.attributes, a);
      assert line == a.header + a.body;
    } else if t.attributes == [] {
      assert AttributesSource([]) == "";
    } else {
      var front, last := t.attributes[..|t.attributes| - 1], t.attributes[|t.attributes| - 1];
      var longer := last.(body := last.body + line);
      assert t.attributes == front + [last] && t.attributes[|t.attributes| - 1 := longer] == front + [longer];
      AttributesSourceLast(front, last);
      AttributesSourceLast(front, longer);
    }
  }

  lemma GrowHeads(t: Text, all: seq<string>, n: nat)
    requires n < |all| && Grow(t, all[n]).Some? && Headed(t, all)
    ensures Headed(Grow(t, all[n]).value, all)
  {
    hide Attribute;
    var m := Attribute(all[n]);
    if m.Some? {
      assert HeaderIn(AttributeText(m.value.name, all[n][..m.value.end], all[n][m.value.end..]), all);
    } else if t.attributes != [] {
      var last := t.attributes[|t.attributes| - 1];
      assert HeaderIn(last, all);
      assert HeaderIn(last.(body := last.body + all[n]), all);
    }
  }

  /** The body of a message keeps its lines in order. */
  lemma {:induction false} BodyAccounts(all: seq<string>, n: nat, t: Text, start: nat)
    requires n <= |all| && Body(all[n..], t, start).Ok? && Headed(t, all)
    ensures var body := Body(all[n..], t, start).value;
      Gathered(body) == Gathered(t) + Concat(all[n..]) && Headed(body, all)
    decreases |all| - n
  {
    hide Grow, Headed, Gathered;
    if n < |all| {
      assert all[n..][1..] == all[n + 1..];
      GrowGathers(t, all[n]);
      GrowHeads(t, all, n);
      BodyAccounts(all, n + 1, Grow(t, all[n]).value, start);
      Assoc(Gathered(t), all[n], Concat(all[n + 1..]));
    }
  }

  lemma {:induction false} ChecksValidate(attributes: seq<AttributeText>, line: nat, k: nat)
    requires CheckAttributes(attributes, line) == None && k < |attributes|
    ensures !Blank(attributes[k].body) && FluentPattern.Validate(attributes[k].body, 0) == None
  {
    if k > 0 {
      ChecksValidate(attributes[1..], line, k - 1);
    }
  }

  lemma MessageAccounts(lines: seq<string>, start: nat, end: nat, comments: string)
    requires start < end <= |lines| && Entry(lines[start]).Some? && MessageAt(lines, start, end, comments).Ok?
    ensures Accounted(MessageAt(lines, start, end, comments).value, lines)
  {
    hide Entry, Body, CheckMessage, AttributesSource, Concat, HeaderIn;
    var block := MessageAt(lines, start, end, comments).value;
    var first := Text(lines[start][Entry(lines[start]).value.end..], []);
    var rest := lines[start + 1..end];
    assert rest[0..] == rest;
    BodyAccounts(rest, 0, first, start + 1);
    FirstLine(lines[start..end]);
    assert lines[start..end][1..] == rest;
    NoAttributes();
    assert lines[start] == block.header + first.value;
    Assoc(block.header, first.value, Concat(rest));
    Assoc(block.header, block.value, AttributesSource(block.attributes));
    assert first.value + "" == first.value;
  }

  lemma FirstLine(lines: seq<string>)
    requires lines != []
    ensures Concat(lines) == lines[0] + Concat(lines[1..])
  {
  }

  lemma NoAttributes()
    ensures AttributesSource([]) == ""
  {
  }

  lemma MessageValidates(lines: seq<string>, start: nat, end: nat, comments: string)
    requires start < end <= |lines| && Entry(lines[start]).Some? && MessageAt(lines, start, end, comments).Ok?
    ensures var block := MessageAt(lines, start, end, comments).value;
      Validated(block) && block.Message? && block.comments == comments && block.id == Entry(lines[start]).value.name
  {
    hide Entry, Body, FluentPattern.Validate, Blank;
    var block := MessageAt(lines, start, end, comments).value;
    forall k | 0 <= k < |block.attributes|
      ensures !Blank(block.attributes[k].body) && FluentPattern.Validate(block.attributes[k].body, 0) == None
    {
      ChecksValidate(block.attributes, start + 1, k);
    }
  }

  predicate Sound(block: Block, lines: seq<string>)
  {
    Sourced(block, lines) && WholeRun(block, lines) && Accounted(block, lines) && Validated(block)
  }

  lemma BlockIsSound(lines: seq<string>, i: nat, ids: set<string>, comments: string)
    requires i < |lines| && NextBlock(lines, i, ids, comments).Ok?
    ensures var block := NextBlock(lines, i, ids, comments).value;
      && Sound(block, lines)
      && (block.Message? ==> block.id !in ids && block.comments == comments)
  {
    hide Entry, MessageEnd, Blank, Comment;
    if !Blank(lines[i]) && !Comment(lines[i]) {
      MessageAccounts(lines, i, MessageEnd(lines, i + 1).value, comments);
      MessageValidates(lines, i, MessageEnd(lines, i + 1).value, comments);
      hide MessageAt;
    }
  }

  /** Every message has an id of its own, and the comments gathered since the message before it. */
  predicate Labelled(blocks: seq<Block>, ids: set<string>, comments: string)
  {
    blocks != [] ==>
      && (blocks[0].Message? ==> blocks[0].id !in ids && blocks[0].comments == comments)
      && Labelled(blocks[1..], IdsAfter(ids, blocks[0]), CommentsAfter(comments, blocks[0]))
  }

  /**
   * The blocks of an accepted catalog: each is a whole run of blank or comment lines, or a message
   * whose header, value and attributes account for all of its lines; ids are distinct.
   */
  lemma {:induction false} ParseIsSound(lines: seq<string>, i: nat, ids: set<string>, comments: string)
    requires i <= |lines|
    ensures var blocks := Parse(lines, i, ids, comments);
      blocks.Ok? ==>
        && Labelled(blocks.value, ids, comments)
        && forall k :: 0 <= k < |blocks.value| ==> Sound(blocks.value[k], lines)
    decreases |lines| - i
  {
    hide NextBlock, Sound;
    if i < |lines| && Parse(lines, i, ids, comments).Ok? {
      var block := NextBlock(lines, i, ids, comments).value;
      BlockIsSound(lines, i, ids, comments);
      ParseIsSound(lines, block.endLine, IdsAfter(ids, block), CommentsAfter(comments, block));
    }
  }
}
