// `wrapTerminalWords`, the simpler breaker for data, compared with `wrapHumanText` in `en`;
// and re-wrapping of lines that are already wrapped.
module WrapAgreement {
  import opened Strings
  import opened CommandReport
  import opened WrapConservation
  import opened WrapGreedy

  // ---------- The simpler breaker ----------

  datatype WordState = WordState(lines: seq<string>, current: string, separator: string)

  const WORD_START := WordState([], "", "")

  /** One part of a paragraph. A part of white space only waits as the separator. */
  function PlacePart(w: char -> nat, width: nat, s: WordState, part: string): WordState
  {
    if TrimStart(part) == "" then s.(separator := if s.current == "" then "" else part)
    else if s.current == "" then WordState(s.lines, part, "")
    else if TextWidth(w, s.current + s.separator + part) <= width then
      WordState(s.lines, s.current + s.separator + part, "")
    else WordState(s.lines + [s.current], part, "")
  }

  function PlaceParts(w: char -> nat, width: nat, s: WordState, parts: seq<string>): seq<string>
    decreases |parts|
  {
    if parts == [] then s.lines + [s.current]
    else PlaceParts(w, width, PlacePart(w, width, s, parts[0]), parts[1..])
  }

  function TerminalLines(w: char -> nat, width: nat, paragraphs: seq<string>): seq<string>
  {
    if paragraphs == [] then []
    else PlaceParts(w, width, WORD_START, Runs(paragraphs[0])) + TerminalLines(w, width, paragraphs[1..])
  }

  /** The parts of a paragraph are its runs; the empty pieces a split yields are skipped. */
  method WrapTerminalWords(w: char -> nat, value: string, columns: real) returns (lines: seq<string>)
    ensures lines == TerminalLines(w, ColumnLimit(columns), Split(value, '\n'))
  {
    hide TrimStart, Runs, TextWidth, Split;
    var width := ColumnLimit(columns);
    lines := [];
    var paragraphs := Split(value, '\n');
    ghost var goal := TerminalLines(w, width, paragraphs);
    var k := 0;
    while k < |paragraphs|
      invariant 0 <= k <= |paragraphs|
      invariant lines + TerminalLines(w, width, paragraphs[k..]) == goal
    {
      var current, separator := "", "";
      var parts := Runs(paragraphs[k]);
      ghost var before := lines;
      ghost var paragraph := PlaceParts(w, width, WORD_START, parts);
      assert paragraphs[k..][1..] == paragraphs[k + 1..];
      Assoc(before, paragraph, TerminalLines(w, width, paragraphs[k + 1..]));
      ghost var done: seq<string> := [];
      var i := 0;
      while i < |parts|
        invariant 0 <= i <= |parts|
        invariant lines == before + done
        invariant PlaceParts(w, width, WordState(done, current, separator), parts[i..]) == paragraph
      {
        var part := parts[i];
        assert parts[i..][1..] == parts[i + 1..];
        i := i + 1;
        if TrimStart(part) == "" {
          separator := if current == "" then "" else part;
          continue;
        }
        if current == "" {
          current := part;
        } else if TextWidth(w, current + separator + part) <= width {
          current := current + separator + part;
        } else {
          Assoc(before, done, [current]);
          done := done + [current];
          lines := lines + [current];
          current := part;
        }
        separator := "";
      }
      Assoc(before, done, [current]);
      lines := lines + [current];
      k := k + 1;
    }
  }

  // ---------- Runs ----------

  /** Non-empty runs of spaces and of other characters, in turn. */
  predicate Alternating(parts: seq<string>)
  {
    parts == [] ||
    (&& parts[0] != "" && Uniform(parts[0], parts[0][0] == ' ')
     && Alternating(parts[1..])
     && (|parts| > 1 ==> (parts[1][0] == ' ') != (parts[0][0] == ' ')))
  }

  lemma {:induction false} RunsAlternate(s: string)
    ensures Alternating(Runs(s))
    ensures s != "" ==> Runs(s) != [] && Runs(s)[0] != "" && Runs(s)[0][0] == s[0]
    decreases |s|
  {
    if s != "" {
      var n := RunEnd(s, s[0] == ' ');
      RunsAlternate(s[n..]);
      assert Runs(s)[1..] == Runs(s[n..]);
    }
  }

  lemma {:induction false} SpacesTrim(s: string)
    requires Uniform(s, true)
    ensures TrimStart(s) == ""
  {
    if s != "" {
      assert s[0] == ' ';
      assert Uniform(s[1..], true) by {
        assert forall k :: 0 <= k < |s[1..]| ==> s[1..][k] == s[k + 1];
      }
      SpacesTrim(s[1..]);
    }
  }

  /** A word made only of white space other than spaces, such as a tab. */
  predicate IsBlankWord(part: string)
  {
    part != "" && part[0] != ' ' && TrimStart(part) == ""
  }

  predicate HasBlankWord(parts: seq<string>)
  {
    parts != [] && (IsBlankWord(parts[0]) || HasBlankWord(parts[1..]))
  }

  predicate HasBlankWords(paragraphs: seq<string>)
  {
    paragraphs != [] && (HasBlankWord(Runs(paragraphs[0])) || HasBlankWords(paragraphs[1..]))
  }

  // ---------- Without blank words the two breakers agree ----------

  ghost predicate Same(s: WrapState, t: WordState)
  {
    && JoinLines(s.done) == t.lines && JoinAtoms(s.current) == t.current
    && (s.current == [] <==> t.current == "") && s.pending == t.separator
    && (s.current == [] ==> s.pending == "")
  }

  lemma SameStep(w: char -> nat, width: nat, s: WrapState, t: WordState, part: string)
    requires Same(s, t) && part != "" && Uniform(part, part[0] == ' ')
    requires part[0] != ' ' ==> TrimStart(part) != ""
    ensures |RunAtoms(part, En)| == 1
    ensures Same(Step(w, width, En, s, RunAtoms(part, En)[0]), PlacePart(w, width, t, part))
  {
    hide TrimStart, TextWidth, JoinLines, JoinAtoms;
    JoinLinesSnoc(s.done, s.current);
    if part[0] == ' ' {
      SpacesTrim(part);
    } else {
      var atom := Text(part);
      SingleAtom(atom);
      if s.current != [] {
        var gap := Separator(s.pending);
        assert JoinAtoms(gap) == s.pending by { GapText(s.pending); }
        JoinAtomsAppend(s.current, gap);
        JoinAtomsAppend(s.current + gap, [atom]);
      }
    }
  }

  lemma GapText(space: string)
    ensures JoinAtoms(Separator(space)) == space
  {
    if space != "" {
      assert JoinAtoms([Space(space)]) == space + JoinAtoms([]);
    }
  }

  lemma {:induction false} SameLines(w: char -> nat, width: nat, s: WrapState, t: WordState, parts: seq<string>)
    requires Same(s, t) && Alternating(parts) && !HasBlankWord(parts)
    ensures JoinLines(Run(w, width, En, s, RunsAtoms(parts, En))) == PlaceParts(w, width, t, parts)
    decreases |parts|
  {
    if parts == [] {
      JoinLinesSnoc(s.done, s.current);
    } else {
      hide Step, PlacePart, RunAtoms, TrimStart, Uniform;
      SameStep(w, width, s, t, parts[0]);
      var atoms := RunsAtoms(parts, En);
      var atom := RunAtoms(parts[0], En)[0];
      assert atoms == [atom] + RunsAtoms(parts[1..], En);
      assert atoms[1..] == RunsAtoms(parts[1..], En);
      SameLines(w, width, Step(w, width, En, s, atom), PlacePart(w, width, t, parts[0]), parts[1..]);
    }
  }

  function EachParagraph(paragraphs: seq<string>, locale: Locale): (each: seq<seq<Atom>>)
    ensures |each| == |paragraphs|
    ensures forall i :: 0 <= i < |each| ==> each[i] == ParagraphAtoms(paragraphs[i], locale)
  {
    if paragraphs == [] then []
    else [ParagraphAtoms(paragraphs[0], locale)] + EachParagraph(paragraphs[1..], locale)
  }

  lemma {:induction false} CjkAtomsBreakFree(s: string)
    ensures Break !in CjkAtoms(s)
    decreases |s|
  {
    hide IsCjkCharacter;
    if s != "" {
      CjkAtomsBreakFree(s[(if IsCjkCharacter(s[0]) then 1 else NonCjkEnd(s))..]);
    }
  }

  lemma {:induction false} BreakFree(parts: seq<string>, locale: Locale)
    ensures Break !in RunsAtoms(parts, locale)
  {
    hide CjkAtoms;
    if parts != [] {
      CjkAtomsBreakFree(parts[0]);
      BreakFree(parts[1..], locale);
    }
  }

  lemma {:induction false} ParagraphsOfRest(first: seq<Atom>, paragraphs: seq<string>, locale: Locale)
    requires Break !in first
    ensures Paragraphs(first + ParagraphsAtoms(paragraphs, locale)) == [first] + EachParagraph(paragraphs, locale)
    decreases |paragraphs|, |first|
  {
    hide ParagraphAtoms;
    var after := ParagraphsAtoms(paragraphs, locale);
    var atoms := first + after;
    if first != [] {
      var head, rest := first[0], first[1..];
      ParagraphsOfRest(rest, paragraphs, locale);
      assert first == [head] + rest;
      assert atoms[0] == head && atoms[1..] == rest + after;
    } else if paragraphs != [] {
      var next := ParagraphAtoms(paragraphs[0], locale);
      assert Break !in next by { ParagraphBreakFree(paragraphs[0], locale); }
      ParagraphsOfRest(next, paragraphs[1..], locale);
      Assoc([Break], next, ParagraphsAtoms(paragraphs[1..], locale));
      assert atoms == after && after[0] == Break;
      assert after[1..] == next + ParagraphsAtoms(paragraphs[1..], locale);
    }
  }

  lemma ParagraphBreakFree(paragraph: string, locale: Locale)
    ensures Break !in ParagraphAtoms(paragraph, locale)
  {
    BreakFree(Runs(paragraph), locale);
  }

  /** Every newline of a plain string starts a new paragraph. */
  lemma SegmentParagraphs(value: string, locale: Locale)
    ensures Paragraphs(SegmentAtoms(value, locale)) == EachParagraph(Split(value, '\n'), locale)
  {
    var pieces := Split(value, '\n');
    ParagraphBreakFree(pieces[0], locale);
    ParagraphsOfRest(ParagraphAtoms(pieces[0], locale), pieces[1..], locale);
  }

  lemma {:induction false} JoinLinesAppend(a: seq<Line>, b: seq<Line>)
    ensures JoinLines(a + b) == JoinLines(a) + JoinLines(b)
  {
  }

  lemma {:induction false} SameParagraphs(w: char -> nat, width: nat, paragraphs: seq<string>)
    requires !HasBlankWords(paragraphs)
    ensures JoinLines(WrapEach(w, width, En, EachParagraph(paragraphs, En))) == TerminalLines(w, width, paragraphs)
  {
    if paragraphs != [] {
      hide JoinLines, Runs, HasBlankWord, Alternating;
      var each := EachParagraph(paragraphs, En);
      RunsAlternate(paragraphs[0]);
      StartsSame();
      SameLines(w, width, START, WORD_START, Runs(paragraphs[0]));
      SameParagraphs(w, width, paragraphs[1..]);
      assert each[1..] == EachParagraph(paragraphs[1..], En);
      JoinLinesAppend(Wrap(w, width, En, each[0]), WrapEach(w, width, En, each[1..]));
    }
  }

  lemma StartsSame()
    ensures Same(START, WORD_START)
  {
  }

  // ---------- A blank word is kept by one breaker and dropped by the other ----------

  /** The visible text of the parts that are not white space. */
  function WordInk(parts: seq<string>): string
  {
    if parts == [] then "" else (if TrimStart(parts[0]) == "" then "" else Visible(parts[0])) + WordInk(parts[1..])
  }

  lemma {:induction false} VisibleWord(s: string)
    requires Uniform(s, false)
    ensures Visible(s) == s
  {
    if s != "" {
      assert s[0] != ' ';
      assert Uniform(s[1..], false) by {
        assert forall k :: 0 <= k < |s[1..]| ==> s[1..][k] == s[k + 1];
      }
      VisibleWord(s[1..]);
    }
  }

  /** The waiting separator is dropped or written before a word; then it is a run of spaces. */
  lemma {:induction false} TerminalInk(w: char -> nat, width: nat, s: WordState, parts: seq<string>)
    requires Alternating(parts)
    requires OnlySpaces(s.separator) || (parts != [] ==> parts[0][0] == ' ')
    ensures Visible(Concat(PlaceParts(w, width, s, parts))) == Visible(Concat(s.lines) + s.current) + WordInk(parts)
    decreases |parts|
  {
    hide TrimStart, TextWidth, Visible;
    ConcatAppend(s.lines, [s.current]);
    assert Concat([s.current]) == s.current;
    if parts != [] {
      var next := PlacePart(w, width, s, parts[0]);
      var before, part := Concat(s.lines) + s.current, parts[0];
      if parts[0][0] == ' ' {
        SpacesTrim(part);
        UniformSpacesOnly(part);
        UniformSpacesOnly("");
        TerminalInk(w, width, next, parts[1..]);
      } else if TrimStart(part) == "" {
        TerminalInk(w, width, next, parts[1..]);
      } else {
        UniformSpacesOnly("");
        TerminalInk(w, width, next, parts[1..]);
        VisibleAppend(before, part);
        VisibleAppend(before, s.separator);
        VisibleAppend(before + s.separator, part);
        assert Visible(before + s.separator) == Visible(before);
        assert Concat(s.lines) + (s.current + s.separator + part) == before + s.separator + part;
        assert s.current == "" ==> Concat(s.lines) + part == before + part;
        Assoc(Visible(before), Visible(part), WordInk(parts[1..]));
      }
    }
  }

  lemma {:induction false} InkShortfall(s: string)
    ensures |WordInk(Runs(s))| <= |Visible(s)|
    ensures HasBlankWord(Runs(s)) <==> |WordInk(Runs(s))| < |Visible(s)|
    decreases |s|
  {
    if s != "" {
      var run, rest := FirstRun(s);
      hide Runs, TrimStart;
      InkShortfall(rest);
      VisibleAppend(run, rest);
      var parts := Runs(s);
      assert parts == [run] + Runs(rest) && parts[1..] == Runs(rest);
      if run[0] == ' ' {
        SpacesTrim(run);
        UniformSpacesOnly(run);
      } else {
        VisibleWord(run);
      }
    } else {
      assert Runs(s) == [];
    }
  }

  /** The words of all paragraphs, in order, without those made of white space only. */
  function InkOfWords(paragraphs: seq<string>): string
  {
    if paragraphs == [] then "" else WordInk(Runs(paragraphs[0])) + InkOfWords(paragraphs[1..])
  }

  lemma ParagraphText(w: char -> nat, width: nat, paragraph: string)
    ensures Visible(Concat(PlaceParts(w, width, WORD_START, Runs(paragraph)))) == WordInk(Runs(paragraph))
  {
    hide Runs, PlaceParts, WordInk;
    RunsAlternate(paragraph);
    UniformSpacesOnly("");
    TerminalInk(w, width, WORD_START, Runs(paragraph));
    assert Concat(WORD_START.lines) + WORD_START.current == "";
  }

  /** The lines of the terminal breaker spell exactly the words not made of white space only, in order. */
  lemma {:induction false} TerminalText(w: char -> nat, width: nat, paragraphs: seq<string>)
    ensures Visible(Concat(TerminalLines(w, width, paragraphs))) == InkOfWords(paragraphs)
  {
    if paragraphs != [] {
      hide Runs, Visible, WordInk, PlaceParts, Concat;
      var first := PlaceParts(w, width, WORD_START, Runs(paragraphs[0]));
      var rest := TerminalLines(w, width, paragraphs[1..]);
      ParagraphText(w, width, paragraphs[0]);
      TerminalText(w, width, paragraphs[1..]);
      ConcatAppend(first, rest);
      VisibleAppend(Concat(first), Concat(rest));
    } else {
      assert Concat([]) == "";
      UniformSpacesOnly("");
    }
  }

  lemma {:induction false} WordsShortfall(paragraphs: seq<string>)
    ensures |InkOfWords(paragraphs)| <= |Visible(Concat(paragraphs))|
    ensures HasBlankWords(paragraphs) <==> |InkOfWords(paragraphs)| < |Visible(Concat(paragraphs))|
  {
    if paragraphs != [] {
      hide Runs, Visible, HasBlankWord, WordInk;
      InkShortfall(paragraphs[0]);
      WordsShortfall(paragraphs[1..]);
      VisibleAppend(paragraphs[0], Concat(paragraphs[1..]));
    }
  }

  /**
   * The visible text of its lines is the input's without the words made of white space only, and it
   * falls short of the input exactly when there is such a word.
   */
  lemma TerminalShortfall(w: char -> nat, width: nat, paragraphs: seq<string>)
    ensures var written := Visible(Concat(TerminalLines(w, width, paragraphs)));
      && written == InkOfWords(paragraphs)
      && |written| <= |Visible(Concat(paragraphs))|
      && (HasBlankWords(paragraphs) <==> |written| < |Visible(Concat(paragraphs))|)
  {
    TerminalText(w, width, paragraphs);
    WordsShortfall(paragraphs);
  }

  /**
   * In `en` the two breakers give the same lines for a plain text exactly when none of its words is
   * made of white space only; this does not depend on the width.
   */
  lemma BreakersAgree(w: char -> nat, width: nat, value: string)
    ensures JoinLines(Wrap(w, width, En, SegmentAtoms(value, En))) == TerminalLines(w, width, Split(value, '\n'))
       <==> !HasBlankWords(Split(value, '\n'))
  {
    hide HasBlankWords, Visible, SegmentAtoms, Split;
    var pieces := Split(value, '\n');
    var atoms := SegmentAtoms(value, En);
    if HasBlankWords(pieces) {
      TerminalShortfall(w, width, pieces);
      WrapConservesText(w, width, En, [Natural(value)]);
      SingleContent(value);
    } else {
      WrapByParagraph(w, width, En, atoms);
      SegmentParagraphs(value, En);
      SameParagraphs(w, width, pieces);
    }
  }

  lemma SingleContent(value: string)
    ensures ContentAtoms([Natural(value)], En) == SegmentAtoms(value, En)
    ensures ContentText([Natural(value)]) == Concat(Split(value, '\n'))
  {
    assert ContentAtoms([Natural(value)][1..], En) == [];
    assert ContentText([Natural(value)][1..]) == "";
  }

  /** A text with such a word, a single tab: one breaker keeps it and the other drops it, at any width. */
  lemma TabIsDropped(w: char -> nat, width: nat)
    ensures HasBlankWords(Split("\t", '\n'))
    ensures JoinLines(Wrap(w, width, En, SegmentAtoms("\t", En))) == ["\t"]
    ensures TerminalLines(w, width, Split("\t", '\n')) == [""]
  {
    TabAlone();
    hide Split, SegmentAtoms, Runs, TrimStart, TextWidth;
    var atoms := SegmentAtoms("\t", En);
    var placed := CommandReport.Step(w, width, En, START, atoms[0]);
    assert Run(w, width, En, START, atoms) == Run(w, width, En, placed, []) == [atoms];
    assert JoinLines([atoms]) == [JoinAtoms(atoms)] && atoms[1..] == [] && JoinAtoms([]) == "";
    assert AtomText(atoms[0]) + "" == "\t";
    assert PlaceParts(w, width, WORD_START, ["\t"]) == PlaceParts(w, width, WORD_START, []);
  }

  /** The tab is one paragraph, one run and one atom, and all of it is white space. */
  lemma TabAlone()
    ensures Split("\t", '\n') == ["\t"] && Runs("\t") == ["\t"] && TrimStart("\t") == ""
    ensures SegmentAtoms("\t", En) == [Text("\t")]
  {
    var s := "\t";
    assert s[1..] == "" && RunEnd(s, false) == 1 && s[..1] == s;
    assert Split("", '\n') == [""] && [s[0]] + "" == s;
    assert ParagraphsAtoms([s][1..], En) == [];
    assert RunsAtoms([s], En) == [Text(s)] by {
      assert RunsAtoms([s][1..], En) == [];
    }
  }
}
