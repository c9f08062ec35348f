// The `en` locale: the greedy loop uses the fewest lines any split of the same words can use.
module WrapGreedy {
  import opened Strings
  import opened CommandReport
  import opened WrapConservation

  /** A word or protected value, with the space run before it that stays when the line goes on. */
  datatype Unit = Unit(space: string, word: Atom)

  /** The break opportunities of one paragraph. Of several space runs in a row, the last one counts. */
  function Units(atoms: seq<Atom>, started: bool, pending: string): seq<Unit>
  {
    if atoms == [] then []
    else if atoms[0].Space? then Units(atoms[1..], started, if started then atoms[0].text else pending)
    else [Unit(pending, atoms[0])] + Units(atoms[1..], true, "")
  }

  function ParagraphUnits(paragraph: seq<Atom>): seq<Unit>
  {
    Units(paragraph, false, "")
  }

  function Following(units: seq<Unit>): Line
  {
    if units == [] then [] else Separator(units[0].space) + [units[0].word] + Following(units[1..])
  }

  /** The line that holds `units`: the space run before the first word is dropped. */
  function LineOf(units: seq<Unit>): Line
  {
    if units == [] then [] else [units[0].word] + Following(units[1..])
  }

  function LinesOf(layout: seq<seq<Unit>>): (lines: seq<Line>)
    ensures |lines| == |layout|
    ensures forall i :: 0 <= i < |layout| ==> lines[i] == LineOf(layout[i])
  {
    if layout == [] then [] else [LineOf(layout[0])] + LinesOf(layout[1..])
  }

  predicate Fits(w: char -> nat, columns: nat, units: seq<Unit>)
  {
    LineWidth(w, LineOf(units)) <= columns
  }

  function AllUnits(layout: seq<seq<Unit>>): seq<Unit>
  {
    if layout == [] then [] else layout[0] + AllUnits(layout[1..])
  }

  /** Every line fits the column or holds a single word. */
  predicate Tidy(w: char -> nat, columns: nat, layout: seq<seq<Unit>>)
  {
    forall i :: 0 <= i < |layout| ==> layout[i] != [] && (Fits(w, columns, layout[i]) || |layout[i]| == 1)
  }

  /** A way to split the paragraph at its break opportunities; no words make one empty line. */
  predicate IsLayout(w: char -> nat, columns: nat, units: seq<Unit>, layout: seq<seq<Unit>>)
  {
    AllUnits(layout) == units && (if units == [] then layout == [[]] else Tidy(w, columns, layout))
  }

  /** The greedy split, given the lines finished and the line being built. */
  function Greedy(w: char -> nat, columns: nat, done: seq<seq<Unit>>, current: seq<Unit>, units: seq<Unit>)
    : (layout: seq<seq<Unit>>)
    ensures |layout| >= 1
    decreases |units|
  {
    if units == [] then done + [current]
    else if current == [] || Fits(w, columns, current + [units[0]]) then
      Greedy(w, columns, done, current + [units[0]], units[1..])
    else
      Greedy(w, columns, done + [current], [units[0]], units[1..])
  }

  // ---------- The placing loop is greedy ----------

  lemma {:induction false} FollowingAppend(a: seq<Unit>, b: seq<Unit>)
    ensures Following(a + b) == Following(a) + Following(b)
  {
    if a == [] {
      assert a + b == b;
    } else {
      assert (a + b)[1..] == a[1..] + b;
      FollowingAppend(a[1..], b);
      Assoc(Separator(a[0].space) + [a[0].word], Following(a[1..]), Following(b));
    }
  }

  lemma LineOfAppend(a: seq<Unit>, b: seq<Unit>)
    requires a != []
    ensures LineOf(a + b) == LineOf(a) + Following(b)
  {
    assert (a + b)[1..] == a[1..] + b;
    FollowingAppend(a[1..], b);
    Assoc([a[0].word], Following(a[1..]), Following(b));
  }

  lemma LineOfSnoc(a: seq<Unit>, u: Unit)
    requires a != []
    ensures LineOf(a + [u]) == LineOf(a) + Separator(u.space) + [u.word]
    ensures JoinAtoms(LineOf(a + [u])) == JoinAtoms(LineOf(a)) + u.space + AtomText(u.word)
  {
    hide LineOf;
    LineOfAppend(a, [u]);
    SingleFollowing(u);
    Assoc(LineOf(a), Separator(u.space), [u.word]);
    JoinAtomsAppend(LineOf(a), Following([u]));
    Assoc(JoinAtoms(LineOf(a)), u.space, AtomText(u.word));
  }

  lemma SingleFollowing(u: Unit)
    ensures Following([u]) == Separator(u.space) + [u.word]
    ensures JoinAtoms(Following([u])) == u.space + AtomText(u.word)
  {
    assert Following([u]) == Separator(u.space) + [u.word] + Following([]);
    assert JoinAtoms([u.word]) == AtomText(u.word) + JoinAtoms([]);
    JoinAtomsAppend(Separator(u.space), [u.word]);
    assert u.space != "" ==> JoinAtoms(Separator(u.space)) == u.space + JoinAtoms([]);
  }

  lemma LinesOfSnoc(layout: seq<seq<Unit>>, line: seq<Unit>)
    ensures LinesOf(layout + [line]) == LinesOf(layout) + [LineOf(line)]
  {
  }

  lemma {:induction false} RunIsGreedy(w: char -> nat, columns: nat, done: seq<seq<Unit>>, current: seq<Unit>,
                                       pending: string, atoms: seq<Atom>)
    requires Break !in atoms && (current == [] ==> pending == "")
    ensures Run(w, columns, En, WrapState(LinesOf(done), LineOf(current), pending), atoms)
         == LinesOf(Greedy(w, columns, done, current, Units(atoms, current != [], pending)))
    decreases |atoms|
  {
    LinesOfSnoc(done, current);
    if atoms != [] {
      hide LinesOf, LineOf, JoinAtoms, TextWidth;
      var s := WrapState(LinesOf(done), LineOf(current), pending);
      var atom, rest := atoms[0], atoms[1..];
      var u := Unit(pending, atom);
      EmptyLine(current);
      if atom.Space? {
        var p := if current != [] then atom.text else pending;
        assert Step(w, columns, En, s, atom) == s.(pending := p);
        RunIsGreedy(w, columns, done, current, p, rest);
      } else {
        var units := Units(atoms, current != [], pending);
        assert units == [u] + Units(rest, true, "");
        assert units[1..] == Units(rest, true, "");
        if current == [] {
          assert current + [u] == [u];
          SingleUnit(u);
          RunIsGreedy(w, columns, done, [u], "", rest);
        } else {
          LineOfSnoc(current, u);
          SingleUnit(u);
          if Fits(w, columns, current + [u]) {
            RunIsGreedy(w, columns, done, current + [u], "", rest);
          } else {
            RunIsGreedy(w, columns, done + [current], [u], "", rest);
          }
        }
      }
    }
  }

  lemma EmptyLine(units: seq<Unit>)
    ensures LineOf(units) == [] <==> units == []
  {
  }

  lemma SingleUnit(u: Unit)
    ensures LineOf([u]) == [u.word]
  {
  }

  lemma WrapIsGreedy(w: char -> nat, columns: nat, paragraph: seq<Atom>)
    requires Break !in paragraph
    ensures Wrap(w, columns, En, paragraph) == LinesOf(Greedy(w, columns, [], [], ParagraphUnits(paragraph)))
  {
    RunIsGreedy(w, columns, [], [], "", paragraph);
  }

  // ---------- Greedy is a layout ----------

  lemma {:induction false} AllUnitsSnoc(layout: seq<seq<Unit>>, line: seq<Unit>)
    ensures AllUnits(layout + [line]) == AllUnits(layout) + line
  {
    if layout == [] {
      assert layout + [line] == [line];
    } else {
      assert (layout + [line])[1..] == layout[1..] + [line];
      AllUnitsSnoc(layout[1..], line);
    }
  }

  lemma {:induction false} GreedyTidy(w: char -> nat, columns: nat, done: seq<seq<Unit>>, current: seq<Unit>,
                                      units: seq<Unit>)
    requires Tidy(w, columns, done) && (current == [] ==> units != [])
    requires current != [] ==> Fits(w, columns, current) || |current| == 1
    ensures Tidy(w, columns, Greedy(w, columns, done, current, units))
    decreases |units|
  {
    hide Fits;
    if units != [] {
      if current == [] || Fits(w, columns, current + [units[0]]) {
        GreedyTidy(w, columns, done, current + [units[0]], units[1..]);
      } else {
        GreedyTidy(w, columns, done + [current], [units[0]], units[1..]);
      }
    }
  }

  lemma {:induction false} GreedyKeepsUnits(w: char -> nat, columns: nat, done: seq<seq<Unit>>, current: seq<Unit>,
                                            units: seq<Unit>)
    ensures AllUnits(Greedy(w, columns, done, current, units)) == AllUnits(done) + current + units
    decreases |units|
  {
    hide Fits, AllUnits;
    AllUnitsSnoc(done, current);
    if units != [] {
      var u, rest := units[0], units[1..];
      assert units == [u] + rest;
      GreedyKeepsUnits(w, columns, done, current + [u], rest);
      GreedyKeepsUnits(w, columns, done + [current], [u], rest);
      assert AllUnits(done) + (current + [u]) + rest == AllUnits(done) + current + units;
      assert AllUnits(done) + current + [u] + rest == AllUnits(done) + current + units;
    }
  }

  lemma GreedyIsLayout(w: char -> nat, columns: nat, units: seq<Unit>)
    ensures IsLayout(w, columns, units, Greedy(w, columns, [], [], units))
  {
    if units == [] {
      assert AllUnits([[]]) == [];
    } else {
      GreedyTidy(w, columns, [], [], units);
      GreedyKeepsUnits(w, columns, [], [], units);
      NoUnits();
    }
  }

  // ---------- Greedy stays ahead ----------

  lemma PrefixFits(w: char -> nat, columns: nat, a: seq<Unit>, b: seq<Unit>)
    requires a != [] && Fits(w, columns, a + b)
    ensures Fits(w, columns, a)
  {
    LineOfAppend(a, b);
    LineWidthAppend(w, LineOf(a), Following(b));
  }

  lemma SuffixFits(w: char -> nat, columns: nat, a: seq<Unit>, b: seq<Unit>)
    requires Fits(w, columns, a + b)
    ensures Fits(w, columns, b)
  {
    if a == [] || b == [] {
      if b == [] {
        assert JoinAtoms(LineOf(b)) == "";
      } else {
        assert a + b == b;
      }
    } else {
      LineOfAppend(a, b);
      assert Following(b) == Separator(b[0].space) + [b[0].word] + Following(b[1..]);
      Assoc(Separator(b[0].space), [b[0].word], Following(b[1..]));
      LineWidthAppend(w, LineOf(a), Following(b));
      LineWidthAppend(w, Separator(b[0].space), LineOf(b));
    }
  }

  predicate IsSuffix(b: seq<Unit>, a: seq<Unit>)
  {
    |b| <= |a| && a[|a| - |b|..] == b
  }

  /**
   * Side by side with any tidy layout, greedy has finished fewer lines, or as many and its current
   * line starts no earlier. `taken` and `left` are the parts of the layout's current line.
   */
  lemma {:induction false} StaysAhead(w: char -> nat, columns: nat, done: seq<seq<Unit>>, current: seq<Unit>,
                                      finished: nat, taken: seq<Unit>, left: seq<Unit>, later: seq<seq<Unit>>)
    requires current != [] && taken != []
    requires |done| < finished || (|done| == finished && IsSuffix(current, taken))
    requires left != [] ==> Fits(w, columns, taken + left)
    requires Tidy(w, columns, later)
    ensures |Greedy(w, columns, done, current, left + AllUnits(later))| <= finished + 1 + |later|
    decreases |left| + |AllUnits(later)|, |later|
  {
    hide Fits, AllUnits;
    var units := left + AllUnits(later);
    if left == [] {
      if later == [] {
        assert units == [] by { NoUnits(); }
      } else {
        NextLine(w, columns, later);
        var u, rest := later[0][0], later[0][1..];
        var us := rest + AllUnits(later[1..]);
        assert units == [u] + us;
        assert units[1..] == us;
        if Fits(w, columns, current + [u]) {
          StaysAhead(w, columns, done, current + [u], finished + 1, [u], rest, later[1..]);
        } else {
          StaysAhead(w, columns, done + [current], [u], finished + 1, [u], rest, later[1..]);
        }
      }
    } else {
      var u, rest := left[0], left[1..];
      var us := rest + AllUnits(later);
      assert units[0] == u && units[1..] == us;
      assert taken + left == (taken + [u]) + rest;
      PrefixFits(w, columns, taken + [u], rest);
      if Fits(w, columns, current + [u]) {
        assert |done| == finished ==> IsSuffix(current + [u], taken + [u]);
        StaysAhead(w, columns, done, current + [u], finished, taken + [u], rest, later);
      } else {
        if |done| == finished {
          var before := taken[..|taken| - |current|];
          assert taken + [u] == before + (current + [u]);
          SuffixFits(w, columns, before, current + [u]);
        }
        assert IsSuffix([u], taken + [u]);
        StaysAhead(w, columns, done + [current], [u], finished, taken + [u], rest, later);
      }
    }
  }

  lemma NoUnits()
    ensures AllUnits([]) == []
  {
  }

  lemma NextLine(w: char -> nat, columns: nat, layout: seq<seq<Unit>>)
    requires layout != [] && Tidy(w, columns, layout)
    ensures layout[0] != [] && Tidy(w, columns, layout[1..])
    ensures layout[0] == [layout[0][0]] + layout[0][1..]
    ensures layout[0][1..] != [] ==> Fits(w, columns, [layout[0][0]] + layout[0][1..])
    ensures AllUnits(layout) == [layout[0][0]] + (layout[0][1..] + AllUnits(layout[1..]))
  {
    hide Fits;
    var line := layout[0];
    assert line == [line[0]] + line[1..];
    assert AllUnits(layout) == line + AllUnits(layout[1..]);
    Assoc([line[0]], line[1..], AllUnits(layout[1..]));
  }

  /** No split of a paragraph at the same break opportunities has fewer lines than greedy. */
  lemma GreedyIsShortest(w: char -> nat, columns: nat, units: seq<Unit>, layout: seq<seq<Unit>>)
    requires IsLayout(w, columns, units, layout)
    ensures |Greedy(w, columns, [], [], units)| <= |layout|
  {
    if units != [] {
      if layout == [] {
        NoUnits();
        assert false;
      } else {
        NextLine(w, columns, layout);
        var u, rest := layout[0][0], layout[0][1..];
        assert units[0] == u && units[1..] == rest + AllUnits(layout[1..]);
        assert [] + [u] == [u];
        StaysAhead(w, columns, [], [u], 0, [u], rest, layout[1..]);
      }
    }
  }

  // ---------- Whole texts ----------

  /** One layout for every paragraph. */
  predicate AreLayouts(w: char -> nat, columns: nat, paragraphs: seq<seq<Atom>>, layouts: seq<seq<seq<Unit>>>)
  {
    && |layouts| == |paragraphs|
    && forall i :: 0 <= i < |layouts| ==> IsLayout(w, columns, ParagraphUnits(paragraphs[i]), layouts[i])
  }

  function LineCount(layouts: seq<seq<seq<Unit>>>): nat
  {
    if layouts == [] then 0 else |layouts[0]| + LineCount(layouts[1..])
  }

  lemma {:induction false} WrapEachIsShortest(w: char -> nat, columns: nat, paragraphs: seq<seq<Atom>>,
                                              layouts: seq<seq<seq<Unit>>>)
    requires forall i :: 0 <= i < |paragraphs| ==> Break !in paragraphs[i]
    requires AreLayouts(w, columns, paragraphs, layouts)
    ensures |WrapEach(w, columns, En, paragraphs)| <= LineCount(layouts)
  {
    if paragraphs != [] {
      WrapIsGreedy(w, columns, paragraphs[0]);
      GreedyIsShortest(w, columns, ParagraphUnits(paragraphs[0]), layouts[0]);
      WrapEachIsShortest(w, columns, paragraphs[1..], layouts[1..]);
    }
  }

  /**
   * In `en`, no split of the same text at the same break points, in which every line fits the
   * column or holds one word, has fewer lines than the wrapper produces.
   */
  lemma WrapIsShortest(w: char -> nat, columns: nat, atoms: seq<Atom>, layouts: seq<seq<seq<Unit>>>)
    requires AreLayouts(w, columns, Paragraphs(atoms), layouts)
    ensures |Wrap(w, columns, En, atoms)| <= LineCount(layouts)
  {
    WrapByParagraph(w, columns, En, atoms);
    WrapEachIsShortest(w, columns, Paragraphs(atoms), layouts);
  }

  /** The wrapper's own lines are such a split of each paragraph, so the bound is reached. */
  lemma WrapIsLayout(w: char -> nat, columns: nat, paragraph: seq<Atom>) returns (layout: seq<seq<Unit>>)
    requires Break !in paragraph
    ensures IsLayout(w, columns, ParagraphUnits(paragraph), layout)
    ensures Wrap(w, columns, En, paragraph) == LinesOf(layout)
  {
    layout := Greedy(w, columns, [], [], ParagraphUnits(paragraph));
    WrapIsGreedy(w, columns, paragraph);
    GreedyIsLayout(w, columns, ParagraphUnits(paragraph));
  }
}
