// The line-end rule (W3C JLReq section 3.1.8) that the placing loop means to keep: no line ends with
// an opening mark. The code breaks it; these are exactly the states and the texts where it does.
module WrapLineEnd {
  import opened CommandReport
  import opened WrapConservation
  import opened WrapProhibitions

  /** One character is never both a closing and an opening mark. */
  lemma DisjointMarks(atom: Atom)
    ensures atom.Text? && |atom.text| == 1 ==> !(IsClosing(atom) && IsOpening(atom))
  {
  }

  /** The opening mark before the last atom of the line: what ends the line when that atom moves down. */
  predicate MarkBeforeTail(line: Line)
  {
    |line| >= 2 && IsOpening(line[|line| - 2])
  }

  /**
   * Placing `atom` finishes a line that ends with an opening mark. The atom must overflow. Then either
   * the tail moves down from behind an opening mark (to join a closing mark, or because it is an
   * opening mark itself), or the line ends with several characters of which the last is an opening
   * mark, so that nothing can move, and the atom is not a closing mark.
   */
  predicate Exposes(w: char -> nat, columns: nat, s: WrapState, atom: Atom)
  {
    && s.current != [] && (atom.Text? || atom.Protected?) && !FitsAfter(w, columns, s, atom)
    && (if IsClosing(atom)
        then HasMovableTail(s.current) && !IsClosing(Tail(s.current)) && !IsOpening(Tail(s.current))
             && MarkBeforeTail(s.current)
        else IsOpening(Tail(s.current)) && (|Tail(s.current).text| > 1 || MarkBeforeTail(s.current)))
  }

  /** The state after placing `atoms`. */
  function Scan(w: char -> nat, columns: nat, locale: Locale, s: WrapState, atoms: seq<Atom>): WrapState
  {
    if atoms == [] then s
    else Step(w, columns, locale, Scan(w, columns, locale, s, atoms[..|atoms| - 1]), atoms[|atoms| - 1])
  }

  lemma {:induction false} ScanAppend(w: char -> nat, columns: nat, locale: Locale, s: WrapState, a: seq<Atom>,
                                      b: seq<Atom>)
    ensures Scan(w, columns, locale, s, a + b) == Scan(w, columns, locale, Scan(w, columns, locale, s, a), b)
    decreases |b|
  {
    if b == [] {
      assert a + b == a;
    } else {
      var n := |b| - 1;
      assert (a + b)[..|a + b| - 1] == a + b[..n];
      ScanAppend(w, columns, locale, s, a, b[..n]);
    }
  }

  lemma {:induction false} RunIsScan(w: char -> nat, columns: nat, locale: Locale, s: WrapState, atoms: seq<Atom>)
    ensures var after := Scan(w, columns, locale, s, atoms);
      Run(w, columns, locale, s, atoms) == after.done + [after.current]
    decreases |atoms|
  {
    hide Step;
    if atoms != [] {
      var next := Step(w, columns, locale, s, atoms[0]);
      RunIsScan(w, columns, locale, next, atoms[1..]);
      ScanAppend(w, columns, locale, s, [atoms[0]], atoms[1..]);
      assert [atoms[0]] + atoms[1..] == atoms && [atoms[0]][..0] == [];
      assert Scan(w, columns, locale, s, [atoms[0]]) == next;
    }
  }

  /** A line other than the last ends with an opening mark. */
  predicate EndsEarly(lines: seq<Line>)
  {
    exists i :: 0 <= i < |lines| - 1 && EndsOpening(lines[i])
  }

  predicate SomeEnds(lines: seq<Line>)
  {
    exists i :: 0 <= i < |lines| && EndsOpening(lines[i])
  }

  lemma SomeEndsSnoc(lines: seq<Line>, line: Line)
    ensures SomeEnds(lines + [line]) <==> SomeEnds(lines) || EndsOpening(line)
    ensures EndsEarly(lines + [line]) <==> SomeEnds(lines)
  {
    hide EndsOpening;
    var all := lines + [line];
    assert all[|lines|] == line && forall i :: 0 <= i < |lines| ==> all[i] == lines[i];
  }

  /** The line that one step finishes, if it finishes one, ends with an opening mark exactly as said. */
  lemma StepEnds(w: char -> nat, columns: nat, locale: Locale, s: WrapState, atom: Atom)
    requires locale != En && !atom.Break?
    ensures SomeEnds(Step(w, columns, locale, s, atom).done) <==> SomeEnds(s.done) || Exposes(w, columns, s, atom)
  {
    hide IsLineStartProhibited, IsLineEndProhibited, SomeEnds, FitsAfter;
    if !atom.Space? && s.current != [] && !FitsAfter(w, columns, s, atom) {
      var rest := s.current[..|s.current| - 1];
      SomeEndsSnoc(s.done, rest);
      SomeEndsSnoc(s.done, s.current);
      DisjointMarks(Tail(s.current));
      OpeningHasText(Tail(s.current));
      assert |s.current| >= 2 ==> Tail(rest) == s.current[|s.current| - 2];
    }
  }

  lemma OpeningHasText(atom: Atom)
    ensures IsOpening(atom) ==> atom.text != ""
  {
  }

  /** Some step of the run, from the state the atoms before it leave, finishes such a line. */
  predicate SomeExposes(w: char -> nat, columns: nat, locale: Locale, atoms: seq<Atom>)
  {
    exists n :: 0 <= n < |atoms| && Exposes(w, columns, Scan(w, columns, locale, START, atoms[..n]), atoms[n])
  }

  lemma SomeExposesSnoc(w: char -> nat, columns: nat, locale: Locale, atoms: seq<Atom>)
    requires atoms != []
    ensures var front := atoms[..|atoms| - 1];
      SomeExposes(w, columns, locale, atoms) <==>
        || SomeExposes(w, columns, locale, front)
        || Exposes(w, columns, Scan(w, columns, locale, START, front), atoms[|atoms| - 1])
  {
    hide Exposes, Scan;
    var n := |atoms| - 1;
    var front := atoms[..n];
    assert forall i :: 0 <= i < n ==> front[..i] == atoms[..i] && front[i] == atoms[i];
    if SomeExposes(w, columns, locale, front) {
      var i :| 0 <= i < n && Exposes(w, columns, Scan(w, columns, locale, START, front[..i]), front[i]);
      assert Exposes(w, columns, Scan(w, columns, locale, START, atoms[..i]), atoms[i]);
    }
    if SomeExposes(w, columns, locale, atoms) {
      var i :| 0 <= i < |atoms| && Exposes(w, columns, Scan(w, columns, locale, START, atoms[..i]), atoms[i]);
      assert i < n ==> Exposes(w, columns, Scan(w, columns, locale, START, front[..i]), front[i]);
    }
  }

  lemma {:induction false} ScanEnds(w: char -> nat, columns: nat, locale: Locale, atoms: seq<Atom>)
    requires locale != En && Break !in atoms
    ensures SomeEnds(Scan(w, columns, locale, START, atoms).done) <==> SomeExposes(w, columns, locale, atoms)
  {
    hide Step, Exposes;
    if atoms != [] {
      var front := atoms[..|atoms| - 1];
      ScanEnds(w, columns, locale, front);
      StepEnds(w, columns, locale, Scan(w, columns, locale, START, front), atoms[|atoms| - 1]);
      SomeExposesSnoc(w, columns, locale, atoms);
    }
  }

  // ---------- The ink at the end of the line being built ----------

  /** The line being built ends with the last ink, and so does what stands before its tail. */
  predicate EndsWithInk(s: WrapState, ink: seq<Atom>)
  {
    && (s.current == [] <==> ink == [])
    && (ink != [] ==> Tail(s.current) == Tail(ink))
    && (MarkBeforeTail(s.current) ==> |ink| >= 2 && ink[|ink| - 2] == s.current[|s.current| - 2])
  }

  lemma StepEndsWithInk(w: char -> nat, columns: nat, locale: Locale, s: WrapState, atom: Atom, ink: seq<Atom>)
    requires !atom.Break? && EndsWithInk(s, ink)
    ensures EndsWithInk(Step(w, columns, locale, s, atom), if atom.Space? then ink else ink + [atom])
  {
    hide IsLineStartProhibited, IsLineEndProhibited, FitsAfter;
  }

  lemma InkSnoc(atoms: seq<Atom>, front: seq<Atom>, atom: Atom)
    requires atoms == front + [atom] && !atom.Break?
    ensures Ink(atoms) == if atom.Space? then Ink(front) else Ink(front) + [atom]
  {
    hide Ink;
    InkAppend(front, [atom]);
    InkOfOne(atom);
  }

  lemma InkOfOne(atom: Atom)
    ensures Ink([atom]) == if atom.Space? || atom.Break? then [] else [atom]
  {
    assert [atom][1..] == [] && Ink([]) == [];
  }

  lemma {:induction false} ScanEndsWithInk(w: char -> nat, columns: nat, locale: Locale, atoms: seq<Atom>)
    requires Break !in atoms
    ensures EndsWithInk(Scan(w, columns, locale, START, atoms), Ink(atoms))
  {
    hide Step, EndsWithInk;
    if atoms == [] {
      NothingPlaced();
    } else {
      var n := |atoms| - 1;
      ScanEndsWithInk(w, columns, locale, atoms[..n]);
      StepEndsWithInk(w, columns, locale, Scan(w, columns, locale, START, atoms[..n]), atoms[n], Ink(atoms[..n]));
      InkSnoc(atoms, atoms[..n], atoms[n]);
    }
  }

  lemma NothingPlaced()
    ensures EndsWithInk(START, [])
  {
  }

  /**
   * Over every run of a paragraph in a CJK locale: a line other than the last ends with an opening mark
   * exactly when some atom meets, in the state that the atoms before it leave, one of the guards of
   * `Exposes`; and the last line ends with one exactly when the paragraph's last ink does.
   */
  lemma LineEndsExactly(w: char -> nat, columns: nat, locale: Locale, paragraph: seq<Atom>)
    requires locale != En && Break !in paragraph
    ensures var lines := Wrap(w, columns, locale, paragraph);
      && (EndsEarly(lines) <==> SomeExposes(w, columns, locale, paragraph))
      && (EndsOpening(lines[|lines| - 1]) <==> Ink(paragraph) != [] && IsOpening(Tail(Ink(paragraph))))
  {
    hide Exposes, Step, SomeExposes, SomeEnds, EndsEarly, IsOpening;
    var after := Scan(w, columns, locale, START, paragraph);
    RunIsScan(w, columns, locale, START, paragraph);
    ScanEnds(w, columns, locale, paragraph);
    SomeEndsSnoc(after.done, after.current);
    ScanEndsWithInk(w, columns, locale, paragraph);
  }

  /** The paragraph breaks the rule: at some step, or because its ink ends with an opening mark. */
  predicate Breaks(w: char -> nat, columns: nat, locale: Locale, paragraph: seq<Atom>)
  {
    SomeExposes(w, columns, locale, paragraph) || (Ink(paragraph) != [] && IsOpening(Tail(Ink(paragraph))))
  }

  lemma ParagraphEnds(w: char -> nat, columns: nat, locale: Locale, paragraph: seq<Atom>)
    requires locale != En && Break !in paragraph
    ensures SomeEnds(Wrap(w, columns, locale, paragraph)) <==> Breaks(w, columns, locale, paragraph)
  {
    hide Wrap, SomeExposes, EndsOpening, Ink;
    var lines := Wrap(w, columns, locale, paragraph);
    LineEndsExactly(w, columns, locale, paragraph);
    SomeEndsSnoc(lines[..|lines| - 1], lines[|lines| - 1]);
    assert lines[..|lines| - 1] + [lines[|lines| - 1]] == lines;
  }

  lemma SomeEndsAppend(a: seq<Line>, b: seq<Line>)
    ensures SomeEnds(a + b) <==> SomeEnds(a) || SomeEnds(b)
  {
    hide EndsOpening;
    assert forall i :: 0 <= i < |a| ==> (a + b)[i] == a[i];
    assert forall i :: 0 <= i < |b| ==> (a + b)[|a| + i] == b[i];
    if SomeEnds(a + b) {
      var i :| 0 <= i < |a + b| && EndsOpening((a + b)[i]);
      assert if i < |a| then EndsOpening(a[i]) else EndsOpening(b[i - |a|]);
    }
  }

  lemma {:induction false} EachEnds(w: char -> nat, columns: nat, locale: Locale, paragraphs: seq<seq<Atom>>)
    requires locale != En && forall k :: 0 <= k < |paragraphs| ==> Break !in paragraphs[k]
    ensures SomeEnds(WrapEach(w, columns, locale, paragraphs)) <==>
      exists k :: 0 <= k < |paragraphs| && Breaks(w, columns, locale, paragraphs[k])
  {
    hide SomeEnds, Breaks, Wrap;
    if paragraphs == [] {
      assert !SomeEnds([]) by { NoLineEnds(); }
    } else {
      ParagraphEnds(w, columns, locale, paragraphs[0]);
      SomeEndsAppend(Wrap(w, columns, locale, paragraphs[0]), WrapEach(w, columns, locale, paragraphs[1..]));
      EachEnds(w, columns, locale, paragraphs[1..]);
      assert forall k :: 1 <= k < |paragraphs| ==> paragraphs[k] == paragraphs[1..][k - 1];
    }
  }

  lemma NoLineEnds()
    ensures !SomeEnds([])
  {
  }

  /** The lines of a whole text keep the line-end rule exactly when none of its paragraphs breaks it. */
  lemma LineEndRule(w: char -> nat, columns: nat, locale: Locale, atoms: seq<Atom>)
    requires locale != En
    ensures SomeEnds(Wrap(w, columns, locale, atoms)) <==>
      exists k :: 0 <= k < |Paragraphs(atoms)| && Breaks(w, columns, locale, Paragraphs(atoms)[k])
  {
    WrapByParagraph(w, columns, locale, atoms);
    EachEnds(w, columns, locale, Paragraphs(atoms));
  }

  // ---------- The texts that can break the rule ----------

  /**
   * An opening mark whose text cannot move, or one followed by a character that can leave it behind:
   * an ordinary character with a closing mark after it, or another opening mark with none after it.
   * Spaces between them make no difference.
   */
  predicate Stranded(ink: seq<Atom>, i: nat)
  {
    && i + 1 < |ink| && IsOpening(ink[i]) && !IsClosing(ink[i + 1])
    && (|ink[i].text| > 1
        || (i + 2 < |ink| && HasMovableTail([ink[i + 1]]) && IsClosing(ink[i + 2]) != IsOpening(ink[i + 1])))
  }

  predicate SomeStranded(ink: seq<Atom>)
  {
    exists i :: 0 <= i < |ink| && Stranded(ink, i)
  }

  lemma StrandedSnoc(ink: seq<Atom>, atom: Atom, i: nat)
    requires Stranded(ink, i)
    ensures Stranded(ink + [atom], i)
  {
    hide IsOpening, IsClosing;
    assert forall j :: 0 <= j < |ink| ==> (ink + [atom])[j] == ink[j];
  }

  lemma ExposedIsStranded(w: char -> nat, columns: nat, s: WrapState, atom: Atom, ink: seq<Atom>)
    requires EndsWithInk(s, ink) && Exposes(w, columns, s, atom)
    ensures SomeStranded(ink + [atom])
  {
    hide IsLineStartProhibited, IsLineEndProhibited, FitsAfter;
    var all := ink + [atom];
    var n := |ink|;
    assert all[n] == atom && all[n - 1] == Tail(ink);
    DisjointMarks(Tail(ink));
    OpeningHasText(Tail(ink));
    if !IsClosing(atom) && |Tail(ink).text| > 1 {
      assert Stranded(all, n - 1);
    } else {
      assert all[n - 2] == ink[n - 2];
      assert Stranded(all, n - 2);
    }
  }

  lemma {:induction false} ExposedOnlyStranded(w: char -> nat, columns: nat, locale: Locale, atoms: seq<Atom>)
    requires Break !in atoms && SomeExposes(w, columns, locale, atoms)
    ensures SomeStranded(Ink(atoms))
  {
    hide Exposes, Scan, Stranded, EndsWithInk;
    var n := |atoms| - 1;
    InkSnoc(atoms, atoms[..n], atoms[n]);
    SomeExposesSnoc(w, columns, locale, atoms);
    if SomeExposes(w, columns, locale, atoms[..n]) {
      ExposedOnlyStranded(w, columns, locale, atoms[..n]);
      var i :| 0 <= i < |Ink(atoms[..n])| && Stranded(Ink(atoms[..n]), i);
      if !atoms[n].Space? {
        StrandedSnoc(Ink(atoms[..n]), atoms[n], i);
      }
    } else {
      ScanEndsWithInk(w, columns, locale, atoms[..n]);
      assert !atoms[n].Space? by { ExposersAreInk(w, columns, Scan(w, columns, locale, START, atoms[..n]), atoms[n]); }
      ExposedIsStranded(w, columns, Scan(w, columns, locale, START, atoms[..n]), atoms[n], Ink(atoms[..n]));
    }
  }

  lemma ExposersAreInk(w: char -> nat, columns: nat, s: WrapState, atom: Atom)
    requires Exposes(w, columns, s, atom)
    ensures !atom.Space?
  {
  }

  // ---------- And do break it, in a narrow column ----------

  /** The width that every character has in the witness: two columns. */
  function Wide(c: char): nat
  {
    2
  }

  lemma {:induction false} WideText(s: string)
    ensures TextWidth(Wide, s) == 2 * |s|
  {
    if s != "" {
      WideText(s[1..]);
    }
  }

  /** In a single column nothing fits behind a text. */
  lemma NothingFits(s: WrapState, atom: Atom)
    requires s.current != [] && Tail(s.current).Text? && Tail(s.current).text != ""
    ensures !FitsAfter(Wide, 1, s, atom)
  {
    var n := |s.current| - 1;
    assert s.current == s.current[..n] + [s.current[n]];
    JoinAtomsAppend(s.current[..n], [s.current[n]]);
    assert JoinAtoms([s.current[n]]) == s.current[n].text + JoinAtoms([]);
    WideText(JoinAtoms(s.current) + s.pending + AtomText(atom));
  }

  /** A single opening mark takes whatever follows it to the next line, unless that is a closing mark. */
  predicate CarriesMark(s: WrapState, ink: seq<Atom>)
  {
    |ink| >= 2 && IsOpening(ink[|ink| - 2]) && |ink[|ink| - 2].text| == 1 && !IsClosing(ink[|ink| - 1])
    ==> s.current == [ink[|ink| - 2], ink[|ink| - 1]]
  }

  lemma StepCarriesMark(locale: Locale, s: WrapState, atom: Atom, ink: seq<Atom>)
    requires locale != En && !atom.Break? && EndsWithInk(s, ink) && CarriesMark(s, ink)
    ensures CarriesMark(Step(Wide, 1, locale, s, atom), if atom.Space? then ink else ink + [atom])
  {
    hide IsLineStartProhibited, IsLineEndProhibited, FitsAfter;
    if !atom.Space? && ink != [] && IsOpening(Tail(ink)) && |Tail(ink).text| == 1 && !IsClosing(atom) {
      NothingFits(s, atom);
      DisjointMarks(Tail(ink));
    }
  }

  lemma {:induction false} ScanCarriesMark(locale: Locale, atoms: seq<Atom>)
    requires locale != En && Break !in atoms
    ensures CarriesMark(Scan(Wide, 1, locale, START, atoms), Ink(atoms))
  {
    hide Step, EndsWithInk, CarriesMark;
    if atoms == [] {
      NoMarkToCarry();
    } else {
      var n := |atoms| - 1;
      ScanCarriesMark(locale, atoms[..n]);
      ScanEndsWithInk(Wide, 1, locale, atoms[..n]);
      StepCarriesMark(locale, Scan(Wide, 1, locale, START, atoms[..n]), atoms[n], Ink(atoms[..n]));
      InkSnoc(atoms, atoms[..n], atoms[n]);
    }
  }

  lemma NoMarkToCarry()
    ensures CarriesMark(START, [])
  {
  }

  /** Where the ink at `i` stands among the atoms. */
  lemma {:induction false} PlaceOfInk(atoms: seq<Atom>, i: nat) returns (n: nat)
    requires Break !in atoms && i < |Ink(atoms)|
    ensures n < |atoms| && atoms[n] == Ink(atoms)[i] && Ink(atoms[..n]) == Ink(atoms)[..i]
    ensures atoms[n].Text? || atoms[n].Protected?
  {
    var m := |atoms| - 1;
    InkSnoc(atoms, atoms[..m], atoms[m]);
    if i < |Ink(atoms[..m])| {
      n := PlaceOfInk(atoms[..m], i);
      assert atoms[..m][..n] == atoms[..n];
      assert Ink(atoms)[..i] == Ink(atoms[..m])[..i];
    } else {
      n := m;
    }
  }

  lemma StrandedIsExposed(locale: Locale, atoms: seq<Atom>, i: nat)
    requires locale != En && Break !in atoms && Stranded(Ink(atoms), i)
    ensures SomeExposes(Wide, 1, locale, atoms)
  {
    hide IsLineStartProhibited, IsLineEndProhibited, FitsAfter, Scan;
    var ink := Ink(atoms);
    var at := if |ink[i].text| > 1 then i + 1 else i + 2;
    var n := PlaceOfInk(atoms, at);
    var s := Scan(Wide, 1, locale, START, atoms[..n]);
    assert ink[..at][at - 1] == ink[at - 1] && ink[..at][i] == ink[i];
    ScanEndsWithInk(Wide, 1, locale, atoms[..n]);
    ScanCarriesMark(locale, atoms[..n]);
    OpeningHasText(ink[i]);
    DisjointMarks(ink[at - 1]);
    NothingFits(s, atoms[n]);
    assert Exposes(Wide, 1, s, atoms[n]);
  }

  /**
   * Exactly which paragraphs break the line-end rule before their last line, in some column and for
   * some character widths: those whose ink strands an opening mark.
   */
  lemma LineEndRuleBreaks(locale: Locale, paragraph: seq<Atom>)
    requires locale != En && Break !in paragraph
    ensures (exists w: char -> nat, columns: nat :: columns >= 1 && EndsEarly(Wrap(w, columns, locale, paragraph)))
       <==> SomeStranded(Ink(paragraph))
  {
    hide EndsEarly, SomeExposes, Wrap, Ink, Stranded;
    forall w: char -> nat, columns: nat | EndsEarly(Wrap(w, columns, locale, paragraph))
      ensures SomeStranded(Ink(paragraph))
    {
      LineEndsExactly(w, columns, locale, paragraph);
      ExposedOnlyStranded(w, columns, locale, paragraph);
    }
    if SomeStranded(Ink(paragraph)) {
      var i :| 0 <= i < |Ink(paragraph)| && Stranded(Ink(paragraph), i);
      StrandedIsExposed(locale, paragraph, i);
      LineEndsExactly(Wide, 1, locale, paragraph);
      assert EndsEarly(Wrap(Wide, 1, locale, paragraph));
    }
  }

  // ---------- A text that breaks it ----------

  const A := Text("あ")
  const OPEN := Text("（")
  const I := Text("い")
  const COMMA := Text("、")

  /** A line of one-character atoms before a one-character atom: each of them takes two columns. */
  lemma Placing(line: Line, atom: Atom)
    requires line != [] && |JoinAtoms(line)| == |line| && atom.Text? && |atom.text| == 1
    ensures Step(Wide, 6, Ja, WrapState([], line, ""), atom) ==
      if |line| < 3 then WrapState([], line + [atom], "")
      else
        match OverflowAction(Ja, line, atom)
        case Hang => WrapState([], line + [atom], "")
        case MoveDown => MoveTailDown(WrapState([], line, ""), atom)
        case NewLine => WrapState([line], [atom], "")
    ensures |JoinAtoms(line + [atom])| == |line + [atom]|
  {
    hide OverflowAction;
    WideText(JoinAtoms(line) + "" + atom.text);
    JoinAtomsAppend(line, [atom]);
    assert JoinAtoms([atom]) == atom.text + JoinAtoms([]);
  }

  /**
   * The line-end rule is not kept by every input: at six columns, of which each character takes two,
   * "あ（い、" leaves the opening mark at the end of its first line.
   */
  lemma LineEndRuleFails()
    ensures Wrap(Wide, 6, Ja, [A, OPEN, I, COMMA]) == [[A, OPEN], [I, COMMA]]
    ensures EndsOpening([A, OPEN])
  {
    CommaMovesDown();
    hide OverflowAction, IsOpening, Step, MoveTailDown, JoinAtoms;
    assert [A] + [OPEN] == [A, OPEN] && [A, OPEN] + [I] == [A, OPEN, I];
    JoinAtomsOfOne();
    Placing([A], OPEN);
    Placing([A, OPEN], I);
    Placing([A, OPEN, I], COMMA);
    assert Step(Wide, 6, Ja, START, A) == WrapState([], [A], "") by { FirstAtom(); }
    var atoms := [A, OPEN, I, COMMA];
    assert atoms[1..] == [OPEN, I, COMMA];
    assert [OPEN, I, COMMA][1..] == [I, COMMA];
    assert [I, COMMA][1..] == [COMMA];
    calc {
      Run(Wide, 6, Ja, START, atoms);
      Run(Wide, 6, Ja, WrapState([], [A], ""), [OPEN, I, COMMA]);
      Run(Wide, 6, Ja, WrapState([], [A, OPEN], ""), [I, COMMA]);
      Run(Wide, 6, Ja, WrapState([], [A, OPEN, I], ""), [COMMA]);
      Run(Wide, 6, Ja, WrapState([[A, OPEN]], [I, COMMA], ""), []);
    }
  }

  lemma CommaMovesDown()
    ensures IsOpening(OPEN) && OverflowAction(Ja, [A, OPEN, I], COMMA) == MoveDown
    ensures MoveTailDown(WrapState([], [A, OPEN, I], ""), COMMA) == WrapState([[A, OPEN]], [I, COMMA], "")
  {
    assert [A, OPEN, I][..2] == [A, OPEN];
  }

  lemma JoinAtomsOfOne()
    ensures |JoinAtoms([A])| == 1
  {
    assert JoinAtoms([A]) == A.text + JoinAtoms([]);
  }

  lemma FirstAtom()
    ensures Step(Wide, 6, Ja, START, A) == WrapState([], [A], "")
  {
  }
}
