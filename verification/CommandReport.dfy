// The terminal line breaker of packages/cli/src/command-report.ts: text is cut into atoms, and
// the atoms are placed greedily into lines. A character is a Unicode scalar value, and the
// width of a text is the sum of the widths `w` of its characters.
module CommandReport {
  import opened Strings

  datatype Locale = En | Ja | ZhHans | ZhHant

  /** The input: running text, which breaks where the locale allows, and values kept in one piece. */
  datatype Segment = Natural(text: string) | ProtectedValue(value: string)

  datatype Atom = Text(text: string) | Space(text: string) | Protected(text: string) | Break

  type Line = seq<Atom>

  // ---------- Characters ----------

  /** What must not stand first on a line (JLReq section 3.1.7). */
  predicate IsClosingCharacter(c: char)
  {
    c in {'、', '。', '，', '．', '：', '；', '？', '！', '）', '］', '｝', '〕', '〉', '》',
          '」', '』', '】', '〙', '〗', '〟', '｠', '»', 'ぁ', 'ぃ', 'ぅ', 'ぇ', 'ぉ', 'っ',
          'ゃ', 'ゅ', 'ょ', 'ゎ', 'ゕ', 'ゖ', 'ァ', 'ィ', 'ゥ', 'ェ', 'ォ', 'ッ', 'ャ', 'ュ',
          'ョ', 'ヮ', 'ヵ', 'ヶ', 'ゝ', 'ゞ', 'ヽ', 'ヾ', '々', 'ー'}
  }

  /** What must not stand last on a line (JLReq section 3.1.8). */
  predicate IsOpeningCharacter(c: char)
  {
    c in {'（', '［', '｛', '〔', '〈', '《', '「', '『', '【', '〘', '〖', '〝', '｟', '«'}
  }

  predicate IsCjkCharacter(c: char)
  {
    '\U{2E80}' <= c <= '\U{2EFF}' || '\U{3000}' <= c <= '\U{303F}' || '\U{3040}' <= c <= '\U{309F}'
    || '\U{30A0}' <= c <= '\U{30FF}' || '\U{31F0}' <= c <= '\U{31FF}' || '\U{3400}' <= c <= '\U{4DBF}'
    || '\U{4E00}' <= c <= '\U{9FFF}' || '\U{F900}' <= c <= '\U{FAFF}' || '\U{FF00}' <= c <= '\U{FFEF}'
    || '\U{20000}' <= c <= '\U{2FA1F}'
  }

  predicate IsLineStartProhibited(text: string)
  {
    text != "" && IsClosingCharacter(text[0])
  }

  predicate IsLineEndProhibited(text: string)
  {
    text != "" && IsOpeningCharacter(text[|text| - 1])
  }

  // ---------- Width and joining ----------

  function TextWidth(w: char -> nat, s: string): nat
  {
    if s == "" then 0 else w(s[0]) + TextWidth(w, s[1..])
  }

  lemma {:induction false} TextWidthAppend(w: char -> nat, a: string, b: string)
    ensures TextWidth(w, a + b) == TextWidth(w, a) + TextWidth(w, b)
  {
    if a == "" {
      assert a + b == b;
    } else {
      assert (a + b)[1..] == a[1..] + b;
      TextWidthAppend(w, a[1..], b);
    }
  }

  function AtomText(atom: Atom): string
  {
    if atom.Break? then "" else atom.text
  }

  function JoinAtoms(atoms: seq<Atom>): string
  {
    if atoms == [] then "" else AtomText(atoms[0]) + JoinAtoms(atoms[1..])
  }

  lemma {:induction false} JoinAtomsAppend(a: seq<Atom>, b: seq<Atom>)
    ensures JoinAtoms(a + b) == JoinAtoms(a) + JoinAtoms(b)
  {
    if a == [] {
      assert a + b == b;
    } else {
      assert (a + b)[1..] == a[1..] + b;
      JoinAtomsAppend(a[1..], b);
    }
  }

  function LineWidth(w: char -> nat, line: Line): nat
  {
    TextWidth(w, JoinAtoms(line))
  }

  lemma LineWidthAppend(w: char -> nat, a: Line, b: Line)
    ensures LineWidth(w, a + b) == LineWidth(w, a) + LineWidth(w, b)
  {
    JoinAtomsAppend(a, b);
    TextWidthAppend(w, JoinAtoms(a), JoinAtoms(b));
  }

  /** The text of every line. */
  function JoinLines(lines: seq<Line>): (texts: seq<string>)
    ensures |texts| == |lines|
    ensures forall i :: 0 <= i < |lines| ==> texts[i] == JoinAtoms(lines[i])
  {
    if lines == [] then [] else [JoinAtoms(lines[0])] + JoinLines(lines[1..])
  }

  // ---------- Cutting text into atoms ----------

  /** How many leading characters of `s` are spaces (`space`) or are not (`!space`). */
  function RunEnd(s: string, space: bool): (n: nat)
    ensures n <= |s|
    ensures forall i :: 0 <= i < n ==> (s[i] == ' ') == space
    ensures n < |s| ==> (s[n] == ' ') != space
  {
    if s == "" || (s[0] == ' ') != space then 0 else 1 + RunEnd(s[1..], space)
  }

  /** The maximal runs of spaces and of other characters, in order. */
  function Runs(s: string): seq<string>
  {
    if s == "" then []
    else
      var n := RunEnd(s, s[0] == ' ');
      [s[..n]] + Runs(s[n..])
  }

  /** How many leading characters of `s` are not CJK. */
  function NonCjkEnd(s: string): (n: nat)
    ensures n <= |s|
    ensures forall i :: 0 <= i < n ==> !IsCjkCharacter(s[i])
    ensures n < |s| ==> IsCjkCharacter(s[n])
  {
    if s == "" || IsCjkCharacter(s[0]) then 0 else 1 + NonCjkEnd(s[1..])
  }

  /** Every CJK character alone, and the stretches between them whole. */
  function CjkAtoms(s: string): seq<Atom>
  {
    if s == "" then []
    else if IsCjkCharacter(s[0]) then [Text([s[0]])] + CjkAtoms(s[1..])
    else
      var n := NonCjkEnd(s);
      [Text(s[..n])] + CjkAtoms(s[n..])
  }

  function TextAtoms(text: string, locale: Locale): seq<Atom>
  {
    if text == "" then [] else if locale == En then [Text(text)] else CjkAtoms(text)
  }

  function RunAtoms(run: string, locale: Locale): seq<Atom>
  {
    if run != "" && run[0] == ' ' then [Space(run)] else TextAtoms(run, locale)
  }

  function RunsAtoms(runs: seq<string>, locale: Locale): seq<Atom>
  {
    if runs == [] then [] else RunAtoms(runs[0], locale) + RunsAtoms(runs[1..], locale)
  }

  function ParagraphAtoms(paragraph: string, locale: Locale): seq<Atom>
  {
    RunsAtoms(Runs(paragraph), locale)
  }

  function ParagraphsAtoms(paragraphs: seq<string>, locale: Locale): seq<Atom>
  {
    if paragraphs == [] then []
    else [Break] + ParagraphAtoms(paragraphs[0], locale) + ParagraphsAtoms(paragraphs[1..], locale)
  }

  function SegmentAtoms(segment: string, locale: Locale): seq<Atom>
  {
    var paragraphs := Split(segment, '\n');
    ParagraphAtoms(paragraphs[0], locale) + ParagraphsAtoms(paragraphs[1..], locale)
  }

  function ContentAtoms(content: seq<Segment>, locale: Locale): seq<Atom>
  {
    if content == [] then []
    else
      (match content[0]
       case Natural(text) => SegmentAtoms(text, locale)
       case ProtectedValue(value) => [Protected(value)])
      + ContentAtoms(content[1..], locale)
  }

  lemma RunEndUnique(s: string, n: nat, space: bool)
    requires n <= |s|
    requires forall i :: 0 <= i < n ==> (s[i] == ' ') == space
    requires n < |s| ==> (s[n] == ' ') != space
    ensures RunEnd(s, space) == n
  {
  }

  lemma NonCjkEndUnique(s: string, n: nat)
    requires n <= |s|
    requires forall i :: 0 <= i < n ==> !IsCjkCharacter(s[i])
    requires n < |s| ==> IsCjkCharacter(s[n])
    ensures NonCjkEnd(s) == n
  {
  }

  /** Text atoms pushed, a buffered stretch without CJK characters, and the text still to scan. */
  predicate CjkScan(pushed: seq<Atom>, buffer: string, rest: string, goal: seq<Atom>)
  {
    (forall k :: 0 <= k < |buffer| ==> !IsCjkCharacter(buffer[k])) && pushed + CjkAtoms(buffer + rest) == goal
  }

  function FlushText(pushed: seq<Atom>, buffer: string): seq<Atom>
  {
    if buffer == "" then pushed else pushed + [Text(buffer)]
  }

  /** A buffered stretch is one atom as soon as a CJK character or the end follows. */
  lemma {:induction false} FlushCjkBuffer(pushed: seq<Atom>, buffer: string, rest: string, goal: seq<Atom>)
    requires CjkScan(pushed, buffer, rest, goal)
    requires rest == "" || IsCjkCharacter(rest[0])
    ensures FlushText(pushed, buffer) + CjkAtoms(rest) == goal
  {
    var s := buffer + rest;
    if buffer == "" {
      assert s == rest;
    } else {
      NonCjkEndUnique(s, |buffer|);
      assert s[..|buffer|] == buffer && s[|buffer|..] == rest;
      Assoc(pushed, [Text(buffer)], CjkAtoms(rest));
    }
  }

  lemma ScanCjkCharacter(pushed: seq<Atom>, buffer: string, s: string, i: nat, goal: seq<Atom>)
    requires i < |s| && IsCjkCharacter(s[i])
    requires CjkScan(pushed, buffer, s[i..], goal)
    ensures CjkScan(FlushText(pushed, buffer) + [Text([s[i]])], "", s[i + 1..], goal)
  {
    FlushCjkBuffer(pushed, buffer, s[i..], goal);
    Assoc(FlushText(pushed, buffer), [Text([s[i]])], CjkAtoms(s[i + 1..]));
    assert CjkAtoms(s[i..]) == [Text([s[i]])] + CjkAtoms(s[i + 1..]);
    assert "" + s[i + 1..] == s[i + 1..];
  }

  lemma ScanOtherCharacter(pushed: seq<Atom>, buffer: string, s: string, i: nat, goal: seq<Atom>)
    requires i < |s| && !IsCjkCharacter(s[i])
    requires CjkScan(pushed, buffer, s[i..], goal)
    ensures CjkScan(pushed, buffer + [s[i]], s[i + 1..], goal)
  {
    NextCharacter(buffer, s, i);
  }

  method PushTextAtoms(atoms: seq<Atom>, text: string, locale: Locale) returns (pushed: seq<Atom>)
    ensures pushed == atoms + TextAtoms(text, locale)
  {
    hide CjkAtoms, CjkScan, IsCjkCharacter;
    if text == "" {
      return atoms;
    }
    if locale == En {
      return atoms + [Text(text)];
    }
    pushed := atoms;
    var buffer := "";
    var i := 0;
    ghost var goal := atoms + CjkAtoms(text);
    StartScan(atoms, text);
    while i < |text|
      invariant 0 <= i <= |text|
      invariant CjkScan(pushed, buffer, text[i..], goal)
    {
      var character := text[i];
      if IsCjkCharacter(character) {
        ScanCjkCharacter(pushed, buffer, text, i, goal);
        if buffer != "" {
          pushed := pushed + [Text(buffer)];
        }
        buffer := "";
        pushed := pushed + [Text([character])];
      } else {
        ScanOtherCharacter(pushed, buffer, text, i, goal);
        buffer := buffer + [character];
      }
      i := i + 1;
    }
    EndScan(pushed, buffer, text[i..], goal);
    if buffer != "" {
      pushed := pushed + [Text(buffer)];
    }
  }

  lemma StartScan(atoms: seq<Atom>, text: string)
    ensures CjkScan(atoms, "", text[0..], atoms + CjkAtoms(text))
  {
    assert "" + text[0..] == text;
  }

  lemma EndScan(pushed: seq<Atom>, buffer: string, rest: string, goal: seq<Atom>)
    requires CjkScan(pushed, buffer, rest, goal) && rest == ""
    ensures FlushText(pushed, buffer) == goal
  {
    FlushCjkBuffer(pushed, buffer, rest, goal);
  }

  predicate Uniform(s: string, space: bool)
  {
    forall k :: 0 <= k < |s| ==> (s[k] == ' ') == space
  }

  lemma UniformSnoc(s: string, c: char)
    requires s == "" || Uniform(s, c == ' ')
    ensures Uniform(s + [c], c == ' ')
  {
  }

  lemma NextCharacter(buffer: string, s: string, i: nat)
    requires i < |s|
    ensures buffer + s[i..] == (buffer + [s[i]]) + s[i + 1..]
  {
  }

  /** Atoms pushed, a buffered run of one kind, and the text still to scan. */
  predicate RunScan(pushed: seq<Atom>, buffer: string, spaces: bool, rest: string, locale: Locale, goal: seq<Atom>)
  {
    Uniform(buffer, spaces) && pushed + ParagraphAtoms(buffer + rest, locale) == goal
  }

  /** A buffered run is complete as soon as a character of the other kind or the end follows. */
  lemma FlushRun(pushed: seq<Atom>, buffer: string, spaces: bool, rest: string, locale: Locale, goal: seq<Atom>)
    requires buffer != "" && RunScan(pushed, buffer, spaces, rest, locale, goal)
    requires rest == "" || (rest[0] == ' ') != spaces
    ensures RunScan(pushed + RunAtoms(buffer, locale), "", spaces, rest, locale, goal)
    ensures rest == "" ==> pushed + RunAtoms(buffer, locale) == goal
  {
    var s := buffer + rest;
    RunEndUnique(s, |buffer|, spaces);
    assert s[..|buffer|] == buffer && s[|buffer|..] == rest;
    assert Runs(s)[1..] == Runs(rest);
    assert "" + rest == rest;
    Assoc(pushed, RunAtoms(buffer, locale), ParagraphAtoms(rest, locale));
  }

  lemma ScanCharacter(pushed: seq<Atom>, buffer: string, spaces: bool, s: string, i: nat, locale: Locale,
                      goal: seq<Atom>)
    requires i < |s| && (buffer == "" || (s[i] == ' ') == spaces)
    requires RunScan(pushed, buffer, spaces, s[i..], locale, goal)
    ensures RunScan(pushed, buffer + [s[i]], s[i] == ' ', s[i + 1..], locale, goal)
  {
    UniformSnoc(buffer, s[i]);
    NextCharacter(buffer, s, i);
  }

  method PushParagraphAtoms(atoms: seq<Atom>, paragraph: string, locale: Locale) returns (pushed: seq<Atom>)
    ensures pushed == atoms + ParagraphAtoms(paragraph, locale)
  {
    hide ParagraphAtoms, RunScan, Uniform;
    pushed := atoms;
    var buffer, spaces := "", false;
    var i := 0;
    ghost var goal := atoms + ParagraphAtoms(paragraph, locale);
    StartRunScan(atoms, paragraph, locale);
    while i < |paragraph|
      invariant 0 <= i <= |paragraph|
      invariant RunScan(pushed, buffer, spaces, paragraph[i..], locale, goal)
    {
      var character := paragraph[i];
      var isSpace := character == ' ';
      if buffer != "" && isSpace != spaces {
        FlushRun(pushed, buffer, spaces, paragraph[i..], locale, goal);
        assert Uniform(buffer, spaces) by { BufferIsUniform(pushed, buffer, spaces, paragraph[i..], locale, goal); }
        pushed := FlushBuffer(pushed, buffer, spaces, locale);
        buffer := "";
      }
      ScanCharacter(pushed, buffer, spaces, paragraph, i, locale, goal);
      spaces := isSpace;
      buffer := buffer + [character];
      i := i + 1;
    }
    EndRunScan(pushed, buffer, spaces, paragraph[i..], locale, goal);
    pushed := FlushBuffer(pushed, buffer, spaces, locale);
  }

  lemma BufferIsUniform(pushed: seq<Atom>, buffer: string, spaces: bool, rest: string, locale: Locale, goal: seq<Atom>)
    requires RunScan(pushed, buffer, spaces, rest, locale, goal)
    ensures Uniform(buffer, spaces)
  {
  }

  lemma StartRunScan(atoms: seq<Atom>, paragraph: string, locale: Locale)
    ensures RunScan(atoms, "", false, paragraph[0..], locale, atoms + ParagraphAtoms(paragraph, locale))
  {
    assert "" + paragraph[0..] == paragraph;
  }

  lemma EndRunScan(pushed: seq<Atom>, buffer: string, spaces: bool, rest: string, locale: Locale, goal: seq<Atom>)
    requires RunScan(pushed, buffer, spaces, rest, locale, goal) && rest == ""
    ensures Uniform(buffer, spaces) && pushed + RunAtoms(buffer, locale) == goal
  {
    if buffer != "" {
      FlushRun(pushed, buffer, spaces, rest, locale, goal);
    }
  }

  method FlushBuffer(atoms: seq<Atom>, buffer: string, spaces: bool, locale: Locale) returns (pushed: seq<Atom>)
    requires Uniform(buffer, spaces)
    ensures pushed == atoms + RunAtoms(buffer, locale)
  {
    if buffer == "" {
      pushed := atoms;
    } else if spaces {
      pushed := atoms + [Space(buffer)];
    } else {
      pushed := PushTextAtoms(atoms, buffer, locale);
    }
  }

  method PushSegmentAtoms(atoms: seq<Atom>, segment: string, locale: Locale) returns (pushed: seq<Atom>)
    ensures pushed == atoms + SegmentAtoms(segment, locale)
  {
    var paragraphs := Split(segment, '\n');
    pushed := PushParagraphAtoms(atoms, paragraphs[0], locale);
    Assoc(atoms, ParagraphAtoms(paragraphs[0], locale), ParagraphsAtoms(paragraphs[1..], locale));
    var index := 1;
    while index < |paragraphs|
      invariant 1 <= index <= |paragraphs|
      invariant pushed + ParagraphsAtoms(paragraphs[index..], locale) == atoms + SegmentAtoms(segment, locale)
    {
      NextParagraph(pushed, paragraphs[index..], locale);
      assert paragraphs[index..][1..] == paragraphs[index + 1..];
      pushed := PushParagraphAtoms(pushed + [Break], paragraphs[index], locale);
      index := index + 1;
    }
  }

  lemma NextParagraph(pushed: seq<Atom>, paragraphs: seq<string>, locale: Locale)
    requires paragraphs != []
    ensures pushed + ParagraphsAtoms(paragraphs, locale)
         == pushed + [Break] + ParagraphAtoms(paragraphs[0], locale) + ParagraphsAtoms(paragraphs[1..], locale)
  {
    var a, b := ParagraphAtoms(paragraphs[0], locale), ParagraphsAtoms(paragraphs[1..], locale);
    Assoc(pushed + [Break], a, b);
    Assoc(pushed, [Break], a + b);
    Assoc([Break], a, b);
  }

  // ---------- Placing atoms into lines ----------

  /** Finished lines, the line being built, and the space run waiting for the next word. */
  datatype WrapState = WrapState(done: seq<Line>, current: Line, pending: string)

  const START := WrapState([], [], "")

  /** The column limit the loop compares with: whole, and at least one. */
  function ColumnLimit(columns: real): nat
  {
    if columns.Floor < 1 then 1 else columns.Floor
  }

  function Separator(space: string): seq<Atom>
  {
    if space == "" then [] else [Space(space)]
  }

  /** The line ends with a text of a single character: the only tail that an overflow may take along. */
  predicate HasMovableTail(line: Line)
  {
    line != [] && line[|line| - 1].Text? && |line[|line| - 1].text| == 1
  }

  function Tail(line: Line): Atom
    requires line != []
  {
    line[|line| - 1]
  }

  /** The tail goes to the next line together with `atom`. */
  function MoveTailDown(s: WrapState, atom: Atom): WrapState
    requires s.current != []
  {
    var rest := s.current[..|s.current| - 1];
    WrapState(if rest == [] then s.done else s.done + [rest], [Tail(s.current), atom], "")
  }

  /** What the overflowing `atom` does to the line it does not fit on. */
  datatype Overflow = Hang | MoveDown | NewLine

  function OverflowAction(locale: Locale, line: Line, atom: Atom): Overflow
    requires line != []
  {
    if locale != En && atom.Text? && IsLineStartProhibited(atom.text) then
      if HasMovableTail(line) && !IsLineStartProhibited(Tail(line).text) && !IsLineEndProhibited(Tail(line).text)
      then MoveDown else Hang
    else if locale != En && Tail(line).Text? && IsLineEndProhibited(Tail(line).text)
            && HasMovableTail(line) && !IsLineStartProhibited(Tail(line).text)
    then MoveDown
    else NewLine
  }

  predicate FitsAfter(w: char -> nat, columns: nat, s: WrapState, atom: Atom)
  {
    TextWidth(w, JoinAtoms(s.current) + s.pending + AtomText(atom)) <= columns
  }

  function Place(w: char -> nat, columns: nat, locale: Locale, s: WrapState, atom: Atom): WrapState
  {
    if s.current == [] then WrapState(s.done, [atom], "")
    else if FitsAfter(w, columns, s, atom) then
      WrapState(s.done, s.current + Separator(s.pending) + [atom], "")
    else
      match OverflowAction(locale, s.current, atom)
      case Hang => WrapState(s.done, s.current + [atom], "")
      case MoveDown => MoveTailDown(s, atom)
      case NewLine => WrapState(s.done + [s.current], [atom], "")
  }

  function Step(w: char -> nat, columns: nat, locale: Locale, s: WrapState, atom: Atom): WrapState
  {
    match atom
    case Break => WrapState(s.done + [s.current], [], "")
    case Space(text) => if s.current == [] then s else s.(pending := text)
    case _ => Place(w, columns, locale, s, atom)
  }

  /** The lines after placing `atoms` from state `s` and flushing the last line. */
  function Run(w: char -> nat, columns: nat, locale: Locale, s: WrapState, atoms: seq<Atom>): (lines: seq<Line>)
    ensures |lines| >= 1
    decreases |atoms|
  {
    if atoms == [] then s.done + [s.current]
    else Run(w, columns, locale, Step(w, columns, locale, s, atoms[0]), atoms[1..])
  }

  function Wrap(w: char -> nat, columns: nat, locale: Locale, atoms: seq<Atom>): (lines: seq<Line>)
    ensures |lines| >= 1
  {
    Run(w, columns, locale, START, atoms)
  }

  lemma JoinLinesSnoc(lines: seq<Line>, line: Line)
    ensures JoinLines(lines + [line]) == JoinLines(lines) + [JoinAtoms(line)]
  {
  }

  method ToAtoms(content: seq<Segment>, locale: Locale) returns (atoms: seq<Atom>)
    ensures atoms == ContentAtoms(content, locale)
  {
    atoms := [];
    var k := 0;
    while k < |content|
      invariant 0 <= k <= |content|
      invariant atoms + ContentAtoms(content[k..], locale) == ContentAtoms(content, locale)
    {
      assert content[k..][1..] == content[k + 1..];
      ghost var rest := ContentAtoms(content[k + 1..], locale);
      match content[k] {
        case Natural(text) =>
          Assoc(atoms, SegmentAtoms(text, locale), rest);
          atoms := PushSegmentAtoms(atoms, text, locale);
        case ProtectedValue(value) =>
          Assoc(atoms, [Protected(value)], rest);
          atoms := atoms + [Protected(value)];
      }
      k := k + 1;
    }
  }

  method WrapHumanText(w: char -> nat, content: seq<Segment>, columns: real, locale: Locale)
    returns (lines: seq<string>)
    ensures lines == JoinLines(Wrap(w, ColumnLimit(columns), locale, ContentAtoms(content, locale)))
  {
    var limit := ColumnLimit(columns);
    var atoms := ToAtoms(content, locale);
    lines := [];
    var current: seq<Atom>, pendingSpace := [], "";
    ghost var s := START;
    var i := 0;
    while i < |atoms|
      invariant 0 <= i <= |atoms|
      invariant Shows(lines, current, pendingSpace, s)
      invariant Run(w, limit, locale, s, atoms[i..]) == Wrap(w, limit, locale, atoms)
    {
      assert atoms[i..][1..] == atoms[i + 1..];
      lines, current, pendingSpace := PlaceAtom(w, limit, locale, lines, current, pendingSpace, atoms[i], s);
      s := Step(w, limit, locale, s, atoms[i]);
      i := i + 1;
    }
    JoinLinesSnoc(s.done, current);
    lines := lines + [JoinAtoms(current)];
  }

  /** One iteration of the placing loop, on the loop's own variables. */
  method PlaceAtom(w: char -> nat, limit: nat, locale: Locale, lines0: seq<string>, current0: seq<Atom>,
                   pendingSpace0: string, atom: Atom, ghost s: WrapState)
    returns (lines: seq<string>, current: seq<Atom>, pendingSpace: string)
    requires lines0 == JoinLines(s.done) && current0 == s.current && pendingSpace0 == s.pending
    ensures Shows(lines, current, pendingSpace, Step(w, limit, locale, s, atom))
  {
    hide IsLineStartProhibited, IsLineEndProhibited, JoinLines, JoinAtoms, TextWidth;
    lines, current, pendingSpace := lines0, current0, pendingSpace0;
    JoinLinesSnoc(s.done, current);
    if atom.Break? {
      lines, current, pendingSpace := lines + [JoinAtoms(current)], [], "";
    } else if atom.Space? {
      if current != [] {
        pendingSpace := atom.text;
      }
    } else if current == [] {
      current, pendingSpace := [atom], "";
    } else if TextWidth(w, JoinAtoms(current) + pendingSpace + atom.text) <= limit {
      if pendingSpace != "" {
        current := current + [Space(pendingSpace)];
      }
      current, pendingSpace := current + [atom], "";
    } else {
      lines, current := BreakLine(locale, lines, current, atom, s);
      pendingSpace := "";
    }
  }

  /** The loop's variables hold the state `s`. */
  predicate Shows(lines: seq<string>, current: seq<Atom>, pendingSpace: string, s: WrapState)
  {
    lines == JoinLines(s.done) && current == s.current && pendingSpace == s.pending
  }

  /** What an atom that does not fit does to the line, on the loop's own variables. */
  method BreakLine(locale: Locale, lines0: seq<string>, current0: seq<Atom>, atom: Atom, ghost s: WrapState)
    returns (lines: seq<string>, current: seq<Atom>)
    requires lines0 == JoinLines(s.done) && current0 == s.current && current0 != []
    requires atom.Text? || atom.Protected?
    ensures match OverflowAction(locale, s.current, atom)
            case Hang => lines == lines0 && current == s.current + [atom]
            case MoveDown => lines == JoinLines(MoveTailDown(s, atom).done) && current == [Tail(s.current), atom]
            case NewLine => lines == JoinLines(s.done + [s.current]) && current == [atom]
  {
    hide IsLineStartProhibited, IsLineEndProhibited, JoinLines, JoinAtoms;
    lines, current := lines0, current0;
    var tail := current[|current| - 1];
    JoinLinesSnoc(s.done, current);
    JoinLinesSnoc(s.done, current[..|current| - 1]);
    if locale != En && atom.Text? && IsLineStartProhibited(atom.text) {
      if HasMovableTail(current) && !IsLineStartProhibited(tail.text) && !IsLineEndProhibited(tail.text) {
        current := current[..|current| - 1];
        if current != [] {
          lines := lines + [JoinAtoms(current)];
        }
        current := [tail, atom];
      } else {
        current := current + [atom];
      }
      return;
    }
    if locale != En && tail.Text? && IsLineEndProhibited(tail.text) {
      if HasMovableTail(current) && !IsLineStartProhibited(tail.text) {
        current := current[..|current| - 1];
        if current != [] {
          lines := lines + [JoinAtoms(current)];
        }
        current := [tail, atom];
        return;
      }
    }
    lines := lines + [JoinAtoms(current)];
    current := [atom];
  }
}
