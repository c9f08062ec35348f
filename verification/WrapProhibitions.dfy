// The CJK line-start and line-end rules (W3C JLReq, sections 3.1.7 and 3.1.8) as the placing loop
// applies them to one paragraph, which is a sequence of atoms without breaks.
module WrapProhibitions {
  import opened CommandReport

  /** A closing mark, small kana or other character that must not begin a line. */
  predicate IsClosing(atom: Atom)
  {
    atom.Text? && IsLineStartProhibited(atom.text)
  }

  /** A text that ends with an opening mark. */
  predicate IsOpening(atom: Atom)
  {
    atom.Text? && IsLineEndProhibited(atom.text)
  }

  predicate BeginsClosing(line: Line)
  {
    line != [] && IsClosing(line[0])
  }

  predicate EndsOpening(line: Line)
  {
    line != [] && IsOpening(Tail(line))
  }

  /** The line without the closing marks hanging at its end. */
  function Unhung(line: Line): (rest: Line)
    ensures rest <= line
  {
    if line != [] && IsClosing(Tail(line)) then Unhung(line[..|line| - 1]) else line
  }

  /** Once hanging marks are set aside, a line overflows only where it cannot be divided. */
  predicate WellShaped(w: char -> nat, columns: nat, line: Line)
  {
    FitsOrIndivisible(w, columns, Unhung(line))
  }

  predicate FitsOrIndivisible(w: char -> nat, columns: nat, body: Line)
  {
    LineWidth(w, body) <= columns || |body| == 1 || (|body| == 2 && IsOpening(body[0]))
  }

  lemma PrefixWidth(w: char -> nat, line: Line, n: nat)
    requires n <= |line|
    ensures LineWidth(w, line[..n]) <= LineWidth(w, line)
  {
    LineWidthAppend(w, line[..n], line[n..]);
    assert line == line[..n] + line[n..];
  }

  lemma FittingIsWellShaped(w: char -> nat, columns: nat, line: Line)
    requires LineWidth(w, line) <= columns
    ensures WellShaped(w, columns, line)
  {
    PrefixWidth(w, line, |Unhung(line)|);
    assert Unhung(line) == line[..|Unhung(line)|];
  }

  lemma UnhungSingle(line: Line)
    requires |line| == 1
    ensures Unhung(line) == line || Unhung(line) == []
  {
    assert line[..0] == [];
  }

  lemma SmallIsWellShaped(w: char -> nat, columns: nat, line: Line)
    requires |line| <= 1
    ensures WellShaped(w, columns, line)
  {
    assert JoinAtoms([]) == "";
    if line == [] {
      assert Unhung(line) == [];
      assert WellShaped(w, columns, line);
    } else {
      UnhungSingle(line);
      if Unhung(line) == [] {
        assert LineWidth(w, Unhung(line)) == 0;
        assert WellShaped(w, columns, line);
      } else {
        assert Unhung(line) == line;
        assert WellShaped(w, columns, line);
      }
    }
  }

  /** Taking the last, unhung atom off a well-shaped line leaves a well-shaped line. */
  lemma ShorterIsWellShaped(w: char -> nat, columns: nat, line: Line)
    requires line != [] && !IsClosing(Tail(line)) && WellShaped(w, columns, line)
    ensures WellShaped(w, columns, line[..|line| - 1])
  {
    var rest := line[..|line| - 1];
    if LineWidth(w, line) <= columns {
      PrefixWidth(w, line, |line| - 1);
      FittingIsWellShaped(w, columns, rest);
    } else {
      SmallIsWellShaped(w, columns, rest);
    }
  }

  lemma HangingIsWellShaped(w: char -> nat, columns: nat, line: Line, atom: Atom)
    requires IsClosing(atom) && WellShaped(w, columns, line)
    ensures WellShaped(w, columns, line + [atom])
  {
    assert (line + [atom])[..|line|] == line;
  }

  /** What every placing step keeps while a paragraph is wrapped in a CJK locale. */
  ghost predicate Kept(w: char -> nat, columns: nat, s: WrapState)
  {
    && (s.done != [] ==> s.current != [] && !BeginsClosing(s.current))
    && (forall i :: 0 < i < |s.done| ==> !BeginsClosing(s.done[i]))
    && (forall i :: 0 <= i < |s.done| ==> s.done[i] != [] && WellShaped(w, columns, s.done[i]))
    && WellShaped(w, columns, s.current)
  }

  lemma MoveDownKeeps(w: char -> nat, columns: nat, s: WrapState, atom: Atom)
    requires Kept(w, columns, s) && s.current != []
    requires !IsClosing(Tail(s.current))
    requires IsClosing(atom) || IsOpening(Tail(s.current))
    ensures Kept(w, columns, MoveTailDown(s, atom))
  {
    hide IsClosing, IsOpening, LineWidth;
    var tail := Tail(s.current);
    var next := MoveTailDown(s, atom);
    ShorterIsWellShaped(w, columns, s.current);
    assert WellShaped(w, columns, [tail, atom]) by {
      if IsClosing(atom) {
        SmallIsWellShaped(w, columns, [tail]);
        HangingIsWellShaped(w, columns, [tail], atom);
        assert [tail] + [atom] == [tail, atom];
      }
    }
  }

  lemma StepKeeps(w: char -> nat, columns: nat, locale: Locale, s: WrapState, atom: Atom)
    requires locale != En && !atom.Break? && Kept(w, columns, s)
    ensures Kept(w, columns, Step(w, columns, locale, s, atom))
  {
    hide IsLineStartProhibited, IsLineEndProhibited, WellShaped;
    if !atom.Space? && s.current != [] {
      if FitsAfter(w, columns, s, atom) {
        FittingLine(w, columns, s, atom);
        assert (s.current + Separator(s.pending) + [atom])[0] == s.current[0];
      } else {
        match OverflowAction(locale, s.current, atom) {
          case Hang =>
            HangingIsWellShaped(w, columns, s.current, atom);
            assert (s.current + [atom])[0] == s.current[0];
          case MoveDown =>
            MoveDownKeeps(w, columns, s, atom);
          case NewLine =>
            SmallIsWellShaped(w, columns, [atom]);
        }
      }
    } else if !atom.Space? {
      SmallIsWellShaped(w, columns, [atom]);
    }
  }

  lemma FittingLine(w: char -> nat, columns: nat, s: WrapState, atom: Atom)
    requires FitsAfter(w, columns, s, atom)
    ensures WellShaped(w, columns, s.current + Separator(s.pending) + [atom])
  {
    JoinAtomsAppend(s.current, Separator(s.pending));
    JoinAtomsAppend(s.current + Separator(s.pending), [atom]);
    assert JoinAtoms([atom]) == AtomText(atom) by { assert JoinAtoms([atom][1..]) == ""; }
    assert JoinAtoms(Separator(s.pending)) == s.pending by {
      assert JoinAtoms(Separator(s.pending)) == s.pending + JoinAtoms([]);
    }
    FittingIsWellShaped(w, columns, s.current + Separator(s.pending) + [atom]);
  }

  /** No line but the first begins with a closing mark, none of these is empty, and all are well shaped. */
  ghost predicate CjkRulesHold(w: char -> nat, columns: nat, lines: seq<Line>)
  {
    && (forall i :: 0 < i < |lines| ==> lines[i] != [] && !BeginsClosing(lines[i]))
    && (forall i :: 0 <= i < |lines| ==> WellShaped(w, columns, lines[i]))
  }

  lemma {:induction false} RunKeeps(w: char -> nat, columns: nat, locale: Locale, s: WrapState, atoms: seq<Atom>)
    requires locale != En && Break !in atoms && Kept(w, columns, s)
    ensures CjkRulesHold(w, columns, Run(w, columns, locale, s, atoms))
    decreases |atoms|
  {
    hide BeginsClosing, WellShaped;
    if atoms == [] {
      var lines := s.done + [s.current];
      assert CjkRulesHold(w, columns, lines);
    } else {
      StepKeeps(w, columns, locale, s, atoms[0]);
      RunKeeps(w, columns, locale, Step(w, columns, locale, s, atoms[0]), atoms[1..]);
    }
  }

  /**
   * In a CJK locale only the first line of a paragraph may begin with a closing mark, and every
   * line without its hanging marks fits the column, is one atom, or is an opening mark and one atom.
   */
  lemma CjkLines(w: char -> nat, columns: nat, locale: Locale, paragraph: seq<Atom>)
    requires locale != En && Break !in paragraph
    ensures CjkRulesHold(w, columns, Wrap(w, columns, locale, paragraph))
  {
    SmallIsWellShaped(w, columns, []);
    RunKeeps(w, columns, locale, START, paragraph);
  }
}
