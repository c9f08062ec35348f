// In `en`, wrapping the joined output of a plain text again changes nothing.
module Rewrap {
  import opened Strings
  import opened CommandReport
  import opened WrapConservation
  import opened WrapGreedy
  import opened WrapAgreement

  /** A word as the scanner makes it: non-empty, without spaces or newlines. */
  predicate IsWord(atom: Atom)
  {
    atom.Text? && atom.text != "" && Uniform(atom.text, false) && '\n' !in atom.text
  }

  predicate IsGap(space: string)
  {
    space != "" && Uniform(space, true)
  }

  predicate AllWords(units: seq<Unit>)
  {
    units == [] || (IsWord(units[0].word) && AllWords(units[1..]))
  }

  predicate AllGaps(units: seq<Unit>)
  {
    units == [] || (IsGap(units[0].space) && AllGaps(units[1..]))
  }

  /** Words with a run of spaces between any two of them. */
  predicate Spaced(units: seq<Unit>)
  {
    AllWords(units) && (units == [] || AllGaps(units[1..]))
  }

  lemma {:induction false} AllAppend(a: seq<Unit>, b: seq<Unit>)
    ensures AllWords(a + b) <==> AllWords(a) && AllWords(b)
    ensures AllGaps(a + b) <==> AllGaps(a) && AllGaps(b)
  {
    hide IsWord, IsGap;
    if a == [] {
      assert a + b == b;
    } else {
      assert (a + b)[1..] == a[1..] + b;
      AllAppend(a[1..], b);
    }
  }

  lemma SpacedAppend(a: seq<Unit>, b: seq<Unit>)
    requires Spaced(a + b)
    ensures Spaced(a) && Spaced(b)
  {
    hide AllWords, AllGaps;
    AllAppend(a, b);
    if a == [] {
      assert a + b == b;
    } else if b == [] {
      assert a + b == a;
    } else {
      assert (a + b)[1..] == a[1..] + b;
      AllAppend(a[1..], b);
      assert b == [b[0]] + b[1..];
      AllAppend([b[0]], b[1..]);
    }
  }

  lemma {:induction false} SpacedLines(layout: seq<seq<Unit>>)
    requires Spaced(AllUnits(layout))
    ensures forall i :: 0 <= i < |layout| ==> Spaced(layout[i])
  {
    hide Spaced;
    if layout != [] {
      SpacedAppend(layout[0], AllUnits(layout[1..]));
      SpacedLines(layout[1..]);
      assert forall i :: 1 <= i < |layout| ==> layout[i] == layout[1..][i - 1];
    }
  }

  // ---------- What the scanner makes of a paragraph is spaced ----------

  predicate NewlineFree(parts: seq<string>)
  {
    parts == [] || ('\n' !in parts[0] && NewlineFree(parts[1..]))
  }

  lemma {:induction false} RunsNewlineFree(s: string)
    requires '\n' !in s
    ensures NewlineFree(Runs(s))
    decreases |s|
  {
    if s != "" {
      var run, rest := FirstRun(s);
      hide Runs;
      RunsNewlineFree(rest);
      assert Runs(s)[1..] == Runs(rest);
    }
  }

  /** Words and gaps alternate, so a word after the first has a gap before it. */
  lemma {:induction false} UnitsSpaced(parts: seq<string>, started: bool, pending: string)
    requires Alternating(parts) && NewlineFree(parts)
    requires started && parts != [] && parts[0][0] != ' ' ==> IsGap(pending)
    ensures AllWords(Units(RunsAtoms(parts, En), started, pending))
    ensures var units := Units(RunsAtoms(parts, En), started, pending);
            AllGaps(if started || units == [] then units else units[1..])
    decreases |parts|
  {
    if parts != [] {
      hide IsGap, IsWord, Alternating;
      var part, rest := parts[0], parts[1..];
      FirstPart(parts);
      var atoms := RunsAtoms(parts, En);
      assert RunAtoms(part, En) == [if part[0] == ' ' then Space(part) else Text(part)];
      assert atoms[1..] == RunsAtoms(rest, En);
      var units := Units(atoms, started, pending);
      if part[0] == ' ' {
        UnitsSpaced(rest, started, if started then part else pending);
      } else {
        UnitsSpaced(rest, true, "");
        assert units[1..] == Units(RunsAtoms(rest, En), true, "");
      }
    }
  }

  lemma FirstPart(parts: seq<string>)
    requires parts != [] && Alternating(parts) && NewlineFree(parts)
    ensures parts[0] != "" && Alternating(parts[1..]) && NewlineFree(parts[1..])
    ensures |parts| > 1 ==> parts[1] != "" && (parts[1][0] == ' ') != (parts[0][0] == ' ')
    ensures if parts[0][0] == ' ' then IsGap(parts[0]) else IsWord(Text(parts[0]))
  {
  }

  lemma ParagraphSpaced(paragraph: string)
    requires '\n' !in paragraph
    ensures Spaced(ParagraphUnits(ParagraphAtoms(paragraph, En)))
  {
    hide Runs, Alternating, NewlineFree;
    RunsAlternate(paragraph);
    RunsNewlineFree(paragraph);
    UnitsSpaced(Runs(paragraph), false, "");
  }

  // ---------- Scanning a spaced line gives the line back ----------

  lemma {:induction false} RunsCons(run: string, rest: string)
    requires run != "" && Uniform(run, run[0] == ' ')
    requires rest != "" ==> (rest[0] == ' ') != (run[0] == ' ')
    ensures Runs(run + rest) == [run] + Runs(rest)
  {
    var s := run + rest;
    RunEndUnique(s, |run|, run[0] == ' ');
    assert s[..|run|] == run && s[|run|..] == rest;
  }

  lemma ScanWord(word: Atom, rest: string)
    requires IsWord(word) && (rest != "" ==> rest[0] == ' ')
    ensures ParagraphAtoms(word.text + rest, En) == [word] + ParagraphAtoms(rest, En)
  {
    RunsCons(word.text, rest);
    assert Runs(word.text + rest)[1..] == Runs(rest);
  }

  lemma ScanGap(space: string, rest: string)
    requires IsGap(space) && rest != "" && rest[0] != ' '
    ensures ParagraphAtoms(space + rest, En) == [Space(space)] + ParagraphAtoms(rest, En)
  {
    RunsCons(space, rest);
    assert Runs(space + rest)[1..] == Runs(rest);
  }

  lemma FollowingText(units: seq<Unit>)
    requires units != []
    ensures JoinAtoms(Following(units))
         == units[0].space + (AtomText(units[0].word) + JoinAtoms(Following(units[1..])))
  {
    hide Following, JoinAtoms;
    SingleFollowing(units[0]);
    assert [units[0]] + units[1..] == units;
    FollowingAppend([units[0]], units[1..]);
    JoinAtomsAppend(Following([units[0]]), Following(units[1..]));
    Assoc(units[0].space, AtomText(units[0].word), JoinAtoms(Following(units[1..])));
  }

  lemma {:induction false} FollowingNewlineFree(units: seq<Unit>)
    requires AllWords(units) && AllGaps(units)
    ensures '\n' !in JoinAtoms(Following(units))
  {
    hide Following, JoinAtoms;
    if units == [] {
      NothingFollows();
    } else {
      FollowingText(units);
      FollowingNewlineFree(units[1..]);
    }
  }

  lemma NothingFollows()
    ensures Following([]) == [] && JoinAtoms([]) == "" && ParagraphAtoms("", En) == []
  {
    assert Runs("") == [];
  }

  lemma {:induction false} ScanFollowing(units: seq<Unit>)
    requires AllWords(units) && AllGaps(units)
    ensures ParagraphAtoms(JoinAtoms(Following(units)), En) == Following(units)
    ensures units != [] ==> JoinAtoms(Following(units)) != "" && JoinAtoms(Following(units))[0] == ' '
  {
    hide ParagraphAtoms, JoinAtoms;
    if units == [] {
      NothingFollows();
    } else {
      var space, word, after := units[0].space, units[0].word, Following(units[1..]);
      var rest := JoinAtoms(after);
      ScanFollowing(units[1..]);
      if units[1..] == [] {
        NothingFollows();
      }
      FollowingText(units);
      ScanWord(word, rest);
      assert word.text[0] != ' ' && space[0] == ' ';
      ScanGap(space, word.text + rest);
      assert Following(units) == [Space(space)] + [word] + after;
      Assoc([Space(space)], [word], after);
    }
  }

  lemma ScanLine(units: seq<Unit>)
    requires Spaced(units)
    ensures ParagraphAtoms(JoinAtoms(LineOf(units)), En) == LineOf(units)
    ensures '\n' !in JoinAtoms(LineOf(units))
  {
    if units == [] {
      NothingFollows();
    } else {
      hide ParagraphAtoms;
      var word, after := units[0].word, Following(units[1..]);
      ScanFollowing(units[1..]);
      FollowingNewlineFree(units[1..]);
      JoinAtomsAppend([word], after);
      assert JoinAtoms([word]) == word.text + JoinAtoms([]);
      ScanWord(word, JoinAtoms(after));
    }
  }

  // ---------- A line that fits wraps to itself ----------

  lemma {:induction false} UnitsOfFollowing(units: seq<Unit>)
    requires AllWords(units) && AllGaps(units)
    ensures Units(Following(units), true, "") == units
    ensures Break !in Following(units)
  {
    if units != [] {
      var space, word, rest := units[0].space, units[0].word, Following(units[1..]);
      UnitsOfFollowing(units[1..]);
      var atoms := Following(units);
      assert atoms == [Space(space)] + ([word] + rest);
      assert atoms[1..] == [word] + rest;
      assert ([word] + rest)[1..] == rest;
    }
  }

  lemma {:induction false} GreedyKeepsFitting(w: char -> nat, columns: nat, current: seq<Unit>, units: seq<Unit>)
    requires units != [] ==> Fits(w, columns, current + units)
    ensures Greedy(w, columns, [], current, units) == [current + units]
    decreases |units|
  {
    if units == [] {
      assert current + units == current;
    } else {
      hide Fits;
      var u, rest := units[0], units[1..];
      assert [u] + rest == units;
      Assoc(current, [u], rest);
      PrefixFits(w, columns, current + [u], rest);
      GreedyKeepsFitting(w, columns, current + [u], rest);
    }
  }

  lemma WrapsToItself(w: char -> nat, columns: nat, units: seq<Unit>)
    requires Spaced(units) && (Fits(w, columns, units) || |units| <= 1)
    ensures Wrap(w, columns, En, LineOf(units)) == [LineOf(units)]
  {
    var line := LineOf(units);
    if units == [] {
      assert Wrap(w, columns, En, []) == [[]];
    } else {
      UnitsOfFollowing(units[1..]);
      var first := Unit("", units[0].word);
      assert line[1..] == Following(units[1..]);
      assert ParagraphUnits(line) == [first] + units[1..];
      var us := [first] + units[1..];
      assert us[1..] == units[1..];
      assert LineOf(us) == line;
      WrapIsGreedy(w, columns, line);
      if |units| == 1 {
        assert Greedy(w, columns, [], [first], []) == [[first]];
        assert us == [first] && [] + [first] == [first];
      } else {
        assert [] + us == us;
        GreedyKeepsFitting(w, columns, [], us);
      }
      assert LinesOf([us]) == [LineOf(us)];
    }
  }

  // ---------- Whole texts ----------

  /** Scanning and wrapping the text of this line gives the line back. */
  predicate Stable(w: char -> nat, columns: nat, line: Line)
  {
    && '\n' !in JoinAtoms(line)
    && ParagraphAtoms(JoinAtoms(line), En) == line
    && Wrap(w, columns, En, line) == [line]
  }

  lemma ParagraphLinesStable(w: char -> nat, columns: nat, paragraph: string)
    requires '\n' !in paragraph
    ensures forall line :: line in Wrap(w, columns, En, ParagraphAtoms(paragraph, En)) ==> Stable(w, columns, line)
  {
    hide Spaced, LineOf, ParagraphAtoms, Stable;
    var atoms := ParagraphAtoms(paragraph, En);
    ParagraphBreakFree(paragraph, En);
    var layout := WrapIsLayout(w, columns, atoms);
    ParagraphSpaced(paragraph);
    SpacedLines(layout);
    forall i | 0 <= i < |layout| ensures Stable(w, columns, LineOf(layout[i])) {
      LineStable(w, columns, layout[i]);
    }
    var lines := LinesOf(layout);
    forall line | line in lines ensures Stable(w, columns, line) {
      var i :| 0 <= i < |lines| && lines[i] == line;
    }
  }

  lemma LineStable(w: char -> nat, columns: nat, units: seq<Unit>)
    requires Spaced(units) && (Fits(w, columns, units) || |units| <= 1)
    ensures Stable(w, columns, LineOf(units))
  {
    ScanLine(units);
    WrapsToItself(w, columns, units);
  }

  lemma {:induction false} TextLinesStable(w: char -> nat, columns: nat, paragraphs: seq<string>)
    requires forall i :: 0 <= i < |paragraphs| ==> '\n' !in paragraphs[i]
    ensures forall line :: line in WrapEach(w, columns, En, EachParagraph(paragraphs, En)) ==> Stable(w, columns, line)
  {
    hide Stable, ParagraphAtoms;
    if paragraphs != [] {
      ParagraphLinesStable(w, columns, paragraphs[0]);
      TextLinesStable(w, columns, paragraphs[1..]);
      assert EachParagraph(paragraphs, En)[1..] == EachParagraph(paragraphs[1..], En);
    }
  }

  lemma {:induction false} WrapStableLines(w: char -> nat, columns: nat, lines: seq<Line>)
    requires forall i :: 0 <= i < |lines| ==> Stable(w, columns, lines[i])
    ensures WrapEach(w, columns, En, EachParagraph(JoinLines(lines), En)) == lines
  {
    hide ParagraphAtoms;
    if lines != [] {
      WrapStableLines(w, columns, lines[1..]);
      var texts := JoinLines(lines);
      assert texts[1..] == JoinLines(lines[1..]);
      assert EachParagraph(texts, En)[1..] == EachParagraph(texts[1..], En);
    }
  }

  /** Joining the lines of a plain text and wrapping them again at the same width gives the same lines. */
  lemma RewrapIsStable(w: char -> nat, columns: nat, value: string)
    ensures var lines := Wrap(w, columns, En, SegmentAtoms(value, En));
            Wrap(w, columns, En, SegmentAtoms(Join(JoinLines(lines), '\n'), En)) == lines
  {
    hide Stable, SegmentAtoms, JoinLines;
    var lines := Wrap(w, columns, En, SegmentAtoms(value, En));
    WrapByParagraph(w, columns, En, SegmentAtoms(value, En));
    SegmentParagraphs(value, En);
    JoinSplit(value, '\n');
    TextLinesStable(w, columns, Split(value, '\n'));
    var texts := JoinLines(lines);
    forall i | 0 <= i < |texts| ensures '\n' !in texts[i] {
      assert lines[i] in lines;
      StableText(w, columns, lines[i]);
    }
    SplitJoin(texts, '\n');
    var again := SegmentAtoms(Join(texts, '\n'), En);
    SegmentParagraphs(Join(texts, '\n'), En);
    WrapByParagraph(w, columns, En, again);
    WrapStableLines(w, columns, lines);
  }

  lemma StableText(w: char -> nat, columns: nat, line: Line)
    requires Stable(w, columns, line)
    ensures '\n' !in JoinAtoms(line)
  {
  }
}
