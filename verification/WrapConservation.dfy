// Wrapping conserves content, in every locale and at every width: no ink is lost, added,
// reordered or split, and every explicit newline still separates lines.
module WrapConservation {
  import opened Strings
  import opened CommandReport

  /** The atoms that are neither spaces nor breaks, in order. */
  function Ink(atoms: seq<Atom>): seq<Atom>
  {
    if atoms == [] then []
    else (if atoms[0].Space? || atoms[0].Break? then [] else [atoms[0]]) + Ink(atoms[1..])
  }

  lemma {:induction false} InkAppend(a: seq<Atom>, b: seq<Atom>)
    ensures Ink(a + b) == Ink(a) + Ink(b)
  {
    if a == [] {
      assert a + b == b;
    } else {
      assert (a + b)[1..] == a[1..] + b;
      InkAppend(a[1..], b);
      Assoc(if a[0].Space? || a[0].Break? then [] else [a[0]], Ink(a[1..]), Ink(b));
    }
  }

  function Flatten(lines: seq<Line>): seq<Atom>
  {
    if lines == [] then [] else lines[0] + Flatten(lines[1..])
  }

  lemma {:induction false} FlattenSnoc(lines: seq<Line>, line: Line)
    ensures Flatten(lines + [line]) == Flatten(lines) + line
  {
    if lines == [] {
      assert lines + [line] == [line];
    } else {
      assert (lines + [line])[1..] == lines[1..] + [line];
      FlattenSnoc(lines[1..], line);
    }
  }

  // ---------- Explicit newlines ----------

  /** The stretches between breaks. */
  function Paragraphs(atoms: seq<Atom>): (paragraphs: seq<seq<Atom>>)
    ensures |paragraphs| >= 1
    ensures forall i :: 0 <= i < |paragraphs| ==> Break !in paragraphs[i]
  {
    if atoms == [] then [[]]
    else
      var rest := Paragraphs(atoms[1..]);
      if atoms[0].Break? then [[]] + rest else [[atoms[0]] + rest[0]] + rest[1..]
  }

  /** Every paragraph wrapped on its own. */
  function WrapEach(w: char -> nat, columns: nat, locale: Locale, paragraphs: seq<seq<Atom>>): seq<Line>
  {
    if paragraphs == [] then []
    else Wrap(w, columns, locale, paragraphs[0]) + WrapEach(w, columns, locale, paragraphs[1..])
  }

  /** Lines already finished do not influence what follows. */
  lemma {:induction false} RunPrefix(w: char -> nat, columns: nat, locale: Locale,
                                     done: seq<Line>, s: WrapState, atoms: seq<Atom>)
    ensures Run(w, columns, locale, s.(done := done + s.done), atoms) == done + Run(w, columns, locale, s, atoms)
    decreases |atoms|
  {
    if atoms == [] {
      Assoc(done, s.done, [s.current]);
    } else {
      var next := Step(w, columns, locale, s, atoms[0]);
      StepPrefix(w, columns, locale, done, s, atoms[0]);
      RunPrefix(w, columns, locale, done, next, atoms[1..]);
    }
  }

  lemma StepPrefix(w: char -> nat, columns: nat, locale: Locale, done: seq<Line>, s: WrapState, atom: Atom)
    ensures Step(w, columns, locale, s.(done := done + s.done), atom)
         == Step(w, columns, locale, s, atom).(done := done + Step(w, columns, locale, s, atom).done)
  {
    hide IsLineStartProhibited, IsLineEndProhibited;
    Assoc(done, s.done, [s.current]);
    if s.current != [] {
      Assoc(done, s.done, [s.current[..|s.current| - 1]]);
    }
  }

  lemma {:induction false} RunByParagraph(w: char -> nat, columns: nat, locale: Locale, s: WrapState, atoms: seq<Atom>)
    ensures Run(w, columns, locale, s, atoms)
         == Run(w, columns, locale, s, Paragraphs(atoms)[0]) + WrapEach(w, columns, locale, Paragraphs(atoms)[1..])
    decreases |atoms|
  {
    if atoms != [] {
      var rest := Paragraphs(atoms[1..]);
      var next := Step(w, columns, locale, s, atoms[0]);
      RunByParagraph(w, columns, locale, next, atoms[1..]);
      if atoms[0].Break? {
        assert next == START.(done := s.done + [s.current] + START.done);
        RunPrefix(w, columns, locale, s.done + [s.current], START, rest[0]);
        assert Paragraphs(atoms)[1..] == rest;
        Assoc(s.done + [s.current], Wrap(w, columns, locale, rest[0]), WrapEach(w, columns, locale, rest[1..]));
      } else {
        var first := [atoms[0]] + rest[0];
        assert Paragraphs(atoms)[0] == first && first[1..] == rest[0];
        assert Paragraphs(atoms)[1..] == rest[1..];
      }
    }
  }

  /** An explicit newline always ends a line: paragraphs wrap independently of one another. */
  lemma WrapByParagraph(w: char -> nat, columns: nat, locale: Locale, atoms: seq<Atom>)
    ensures Wrap(w, columns, locale, atoms) == WrapEach(w, columns, locale, Paragraphs(atoms))
  {
    RunByParagraph(w, columns, locale, START, atoms);
  }

  // ---------- Ink ----------

  /** The ink placed so far. */
  function Placed(s: WrapState): seq<Atom>
  {
    Ink(Flatten(s.done) + s.current)
  }

  lemma MoveTailFlat(s: WrapState, atom: Atom)
    requires s.current != []
    ensures var next := MoveTailDown(s, atom);
            Flatten(next.done) + next.current == Flatten(s.done) + s.current + [atom]
  {
    FlattenSnoc(s.done, s.current[..|s.current| - 1]);
  }

  lemma SeparatedInk(a: seq<Atom>, line: Line, space: string, atom: Atom)
    ensures Ink(a + (line + Separator(space) + [atom])) == Ink(a + line) + Ink([atom])
  {
    InkAppend(a + line, Separator(space));
    InkAppend(a + line + Separator(space), [atom]);
    assert a + (line + Separator(space) + [atom]) == a + line + Separator(space) + [atom];
  }

  lemma StepInk(w: char -> nat, columns: nat, locale: Locale, s: WrapState, atom: Atom)
    ensures Placed(Step(w, columns, locale, s, atom)) == Placed(s) + Ink([atom])
  {
    hide Place, Flatten;
    FlattenSnoc(s.done, s.current);
    match atom
    case Break =>
      assert Ink([atom]) == [];
      assert Flatten(s.done + [s.current]) + [] == Flatten(s.done) + s.current;
    case Space(text) =>
      assert Ink([atom]) == [];
    case _ =>
      PlaceInk(w, columns, locale, s, atom);
  }

  lemma PlaceInk(w: char -> nat, columns: nat, locale: Locale, s: WrapState, atom: Atom)
    ensures Placed(Place(w, columns, locale, s, atom)) == Placed(s) + Ink([atom])
  {
    hide IsLineStartProhibited, IsLineEndProhibited, OverflowAction, FitsAfter, Ink, Separator, Flatten;
    InkAppend(Flatten(s.done) + s.current, [atom]);
    FlattenSnoc(s.done, s.current);
    Assoc(Flatten(s.done), s.current, [atom]);
    if s.current == [] {
      assert Flatten(s.done) + s.current == Flatten(s.done);
    } else {
      MoveTailFlat(s, atom);
      SeparatedInk(Flatten(s.done), s.current, s.pending, atom);
    }
  }

  lemma {:induction false} RunInk(w: char -> nat, columns: nat, locale: Locale, s: WrapState, atoms: seq<Atom>)
    ensures Ink(Flatten(Run(w, columns, locale, s, atoms))) == Placed(s) + Ink(atoms)
    decreases |atoms|
  {
    if atoms == [] {
      FlattenSnoc(s.done, s.current);
    } else {
      StepInk(w, columns, locale, s, atoms[0]);
      RunInk(w, columns, locale, Step(w, columns, locale, s, atoms[0]), atoms[1..]);
      assert atoms == [atoms[0]] + atoms[1..];
      InkAppend([atoms[0]], atoms[1..]);
      Assoc(Placed(s), Ink([atoms[0]]), Ink(atoms[1..]));
    }
  }

  /** The lines hold exactly the input's ink, atom by atom and in order. */
  lemma WrapConservesInk(w: char -> nat, columns: nat, locale: Locale, atoms: seq<Atom>)
    ensures Ink(Flatten(Wrap(w, columns, locale, atoms))) == Ink(atoms)
  {
    RunInk(w, columns, locale, START, atoms);
  }

  // ---------- Text ----------

  /** `s` without its spaces. */
  function Visible(s: string): string
  {
    if s == "" then "" else (if s[0] == ' ' then "" else [s[0]]) + Visible(s[1..])
  }

  lemma {:induction false} VisibleAppend(a: string, b: string)
    ensures Visible(a + b) == Visible(a) + Visible(b)
  {
    if a == "" {
      assert a + b == b;
    } else {
      assert (a + b)[1..] == a[1..] + b;
      VisibleAppend(a[1..], b);
      Assoc(if a[0] == ' ' then "" else [a[0]], Visible(a[1..]), Visible(b));
    }
  }

  predicate OnlySpaces(s: string)
  {
    Visible(s) == ""
  }

  lemma {:induction false} UniformSpacesOnly(s: string)
    requires Uniform(s, true)
    ensures OnlySpaces(s)
  {
    if s != "" {
      assert s[0] == ' ';
      assert forall k :: 0 <= k < |s[1..]| ==> s[1..][k] == s[k + 1];
      UniformSpacesOnly(s[1..]);
    }
  }

  /** Space atoms hold nothing but spaces. */
  predicate PlainSpaces(atoms: seq<Atom>)
  {
    atoms == [] || ((atoms[0].Space? ==> OnlySpaces(atoms[0].text)) && PlainSpaces(atoms[1..]))
  }

  lemma {:induction false} PlainSpacesAppend(a: seq<Atom>, b: seq<Atom>)
    ensures PlainSpaces(a + b) <==> PlainSpaces(a) && PlainSpaces(b)
  {
    if a == [] {
      assert a + b == b;
    } else {
      assert (a + b)[1..] == a[1..] + b;
      PlainSpacesAppend(a[1..], b);
    }
  }

  lemma JoinAppend(a: seq<Atom>, b: seq<Atom>)
    ensures JoinAtoms(a + b) == JoinAtoms(a) + JoinAtoms(b)
    ensures PlainSpaces(a + b) <==> PlainSpaces(a) && PlainSpaces(b)
  {
    JoinAtomsAppend(a, b);
    PlainSpacesAppend(a, b);
  }

  lemma SingleAtom(atom: Atom)
    requires atom.Space? ==> OnlySpaces(atom.text)
    ensures JoinAtoms([atom]) == AtomText(atom) && PlainSpaces([atom])
  {
    assert JoinAtoms([atom][1..]) == "";
  }

  lemma {:induction false} VisibleInk(atoms: seq<Atom>)
    requires PlainSpaces(atoms)
    ensures Visible(JoinAtoms(atoms)) == Visible(JoinAtoms(Ink(atoms)))
  {
    if atoms != [] {
      var head, tail := atoms[0], atoms[1..];
      VisibleInk(tail);
      VisibleAppend(AtomText(head), JoinAtoms(tail));
      VisibleAppend(AtomText(head), JoinAtoms(Ink(tail)));
      if head.Space? || head.Break? {
        assert Ink(atoms) == Ink(tail);
      } else {
        assert Ink(atoms) == [head] + Ink(tail);
        assert Ink(atoms)[1..] == Ink(tail);
      }
    }
  }

  lemma {:induction false} JoinFlatten(lines: seq<Line>)
    ensures Concat(JoinLines(lines)) == JoinAtoms(Flatten(lines))
  {
    if lines != [] {
      JoinFlatten(lines[1..]);
      JoinAtomsAppend(lines[0], Flatten(lines[1..]));
      assert JoinLines(lines)[1..] == JoinLines(lines[1..]);
    }
  }

  ghost predicate SpacesKept(s: WrapState)
  {
    PlainSpaces(Flatten(s.done) + s.current) && OnlySpaces(s.pending)
  }

  lemma StepSpaces(w: char -> nat, columns: nat, locale: Locale, s: WrapState, atom: Atom)
    requires SpacesKept(s) && (atom.Space? ==> OnlySpaces(atom.text))
    ensures SpacesKept(Step(w, columns, locale, s, atom))
  {
    hide IsLineStartProhibited, IsLineEndProhibited, OverflowAction, FitsAfter, Flatten, OnlySpaces, PlainSpaces;
    FlattenSnoc(s.done, s.current);
    assert OnlySpaces("") by { UniformSpacesOnly(""); }
    SingleAtom(atom);
    var flat := Flatten(s.done);
    var next := Step(w, columns, locale, s, atom);
    if atom.Break? {
      assert Flatten(next.done) + next.current == flat + s.current;
    } else if atom.Space? {
    } else {
      PlainSpacesAppend(flat + s.current, [atom]);
      if s.current == [] {
        assert flat + next.current == flat + s.current + [atom];
      } else {
        MoveTailFlat(s, atom);
        assert flat + (s.current + [atom]) == flat + s.current + [atom];
        var gap := Separator(s.pending);
        if gap != [] {
          SingleAtom(gap[0]);
        }
        assert PlainSpaces(gap) by { PlainSpacesAppend([], gap); EmptyIsPlain(); }
        PlainSpacesAppend(flat + s.current, gap);
        PlainSpacesAppend(flat + s.current + gap, [atom]);
        assert flat + (s.current + gap + [atom]) == flat + s.current + gap + [atom];
      }
    }
  }

  lemma EmptyIsPlain()
    ensures PlainSpaces([]) && JoinAtoms([]) == ""
  {
  }

  lemma {:induction false} RunSpaces(w: char -> nat, columns: nat, locale: Locale, s: WrapState, atoms: seq<Atom>)
    requires SpacesKept(s) && PlainSpaces(atoms)
    ensures PlainSpaces(Flatten(Run(w, columns, locale, s, atoms)))
    decreases |atoms|
  {
    if atoms == [] {
      FlattenSnoc(s.done, s.current);
    } else {
      StepSpaces(w, columns, locale, s, atoms[0]);
      RunSpaces(w, columns, locale, Step(w, columns, locale, s, atoms[0]), atoms[1..]);
    }
  }

  /** The content's text without the newlines of its natural segments. */
  function ContentText(content: seq<Segment>): string
  {
    if content == [] then ""
    else
      (match content[0]
       case Natural(text) => Concat(Split(text, '\n'))
       case ProtectedValue(value) => value)
      + ContentText(content[1..])
  }

  lemma {:induction false} CjkAtomsText(s: string)
    ensures JoinAtoms(CjkAtoms(s)) == s && PlainSpaces(CjkAtoms(s))
    decreases |s|
  {
    hide IsCjkCharacter, PlainSpaces, JoinAtoms;
    if s == "" {
      EmptyIsPlain();
    } else {
      var n := if IsCjkCharacter(s[0]) then 1 else NonCjkEnd(s);
      CjkAtomsText(s[n..]);
      SingleAtom(Text(s[..n]));
      JoinAppend([Text(s[..n])], CjkAtoms(s[n..]));
      assert s == s[..n] + s[n..];
      assert s[..1] == [s[0]];
    }
  }

  lemma RunAtomsText(run: string, locale: Locale)
    requires run != "" && Uniform(run, run[0] == ' ')
    ensures JoinAtoms(RunAtoms(run, locale)) == run && PlainSpaces(RunAtoms(run, locale))
  {
    hide CjkAtoms, PlainSpaces, JoinAtoms;
    if run[0] == ' ' {
      UniformSpacesOnly(run);
      SingleAtom(Space(run));
    } else if locale == En {
      SingleAtom(Text(run));
    } else {
      CjkAtomsText(run);
    }
  }

  /** The first run of a text, and what follows it. */
  lemma {:induction false} FirstRun(s: string) returns (run: string, rest: string)
    requires s != ""
    ensures s == run + rest && |rest| < |s| && run != ""
    ensures run[0] == s[0] && Uniform(run, run[0] == ' ')
    ensures Runs(s) == [run] + Runs(rest)
  {
    var n := RunEnd(s, s[0] == ' ');
    run, rest := s[..n], s[n..];
  }

  lemma {:induction false} ParagraphAtomsText(s: string, locale: Locale)
    ensures JoinAtoms(ParagraphAtoms(s, locale)) == s && PlainSpaces(ParagraphAtoms(s, locale))
    decreases |s|
  {
    hide RunAtoms, PlainSpaces, JoinAtoms, Uniform;
    if s == "" {
      EmptyIsPlain();
    } else {
      var run, rest := FirstRun(s);
      hide Runs;
      RunAtomsText(run, locale);
      ParagraphAtomsText(rest, locale);
      assert Runs(s)[1..] == Runs(rest);
      JoinAppend(RunAtoms(run, locale), ParagraphAtoms(rest, locale));
    }
  }

  lemma {:induction false} ParagraphsAtomsText(paragraphs: seq<string>, locale: Locale)
    ensures JoinAtoms(ParagraphsAtoms(paragraphs, locale)) == Concat(paragraphs)
    ensures PlainSpaces(ParagraphsAtoms(paragraphs, locale))
  {
    hide PlainSpaces, JoinAtoms, ParagraphAtoms;
    if paragraphs == [] {
      EmptyIsPlain();
    } else {
      var first := ParagraphAtoms(paragraphs[0], locale);
      ParagraphAtomsText(paragraphs[0], locale);
      ParagraphsAtomsText(paragraphs[1..], locale);
      SingleAtom(Break);
      JoinAppend([Break], first);
      JoinAppend([Break] + first, ParagraphsAtoms(paragraphs[1..], locale));
    }
  }

  lemma {:induction false} ContentAtomsText(content: seq<Segment>, locale: Locale)
    ensures JoinAtoms(ContentAtoms(content, locale)) == ContentText(content)
    ensures PlainSpaces(ContentAtoms(content, locale))
  {
    hide PlainSpaces, JoinAtoms, ParagraphAtoms, ParagraphsAtoms;
    if content == [] {
      EmptyIsPlain();
    } else {
      ContentAtomsText(content[1..], locale);
      match content[0] {
        case Natural(text) =>
          var pieces := Split(text, '\n');
          ParagraphAtomsText(pieces[0], locale);
          ParagraphsAtomsText(pieces[1..], locale);
          JoinAppend(ParagraphAtoms(pieces[0], locale), ParagraphsAtoms(pieces[1..], locale));
          JoinAppend(SegmentAtoms(text, locale), ContentAtoms(content[1..], locale));
        case ProtectedValue(value) =>
          SingleAtom(Protected(value));
          JoinAppend([Protected(value)], ContentAtoms(content[1..], locale));
      }
    }
  }

  /** Read without spaces, the lines spell exactly the content without its newlines. */
  lemma WrapConservesText(w: char -> nat, columns: nat, locale: Locale, content: seq<Segment>)
    ensures Visible(Concat(JoinLines(Wrap(w, columns, locale, ContentAtoms(content, locale)))))
         == Visible(ContentText(content))
  {
    var atoms := ContentAtoms(content, locale);
    var lines := Wrap(w, columns, locale, atoms);
    ContentAtomsText(content, locale);
    assert SpacesKept(START) by { UniformSpacesOnly(""); }
    RunSpaces(w, columns, locale, START, atoms);
    WrapConservesInk(w, columns, locale, atoms);
    JoinFlatten(lines);
    VisibleInk(Flatten(lines));
    VisibleInk(atoms);
  }

  // ---------- Protected values ----------

  lemma {:induction false} FlattenMember(lines: seq<Line>, atom: Atom) returns (i: nat)
    requires atom in Flatten(lines)
    ensures i < |lines| && atom in lines[i]
  {
    if atom in lines[0] {
      i := 0;
    } else {
      i := FlattenMember(lines[1..], atom);
      i := i + 1;
    }
  }

  lemma {:induction false} InkMember(atoms: seq<Atom>, atom: Atom)
    requires !atom.Space? && !atom.Break?
    ensures atom in Ink(atoms) <==> atom in atoms
  {
    if atoms != [] {
      InkMember(atoms[1..], atom);
    }
  }

  lemma {:induction false} AtomWithinText(line: Line, atom: Atom) returns (before: string, after: string)
    requires atom in line
    ensures JoinAtoms(line) == before + AtomText(atom) + after
  {
    if line[0] == atom {
      before, after := "", JoinAtoms(line[1..]);
    } else {
      before, after := AtomWithinText(line[1..], atom);
      before := AtomText(line[0]) + before;
    }
  }

  lemma {:induction false} ProtectedIsAtom(content: seq<Segment>, locale: Locale, value: string)
    requires ProtectedValue(value) in content
    ensures Protected(value) in ContentAtoms(content, locale)
  {
    if content[0] != ProtectedValue(value) {
      ProtectedIsAtom(content[1..], locale, value);
    }
  }

  /** A protected value lies unsplit within one line, however wide it is. */
  lemma ProtectedStaysWhole(w: char -> nat, columns: nat, locale: Locale, content: seq<Segment>, value: string)
    returns (i: nat, before: string, after: string)
    requires ProtectedValue(value) in content
    ensures i < |Wrap(w, columns, locale, ContentAtoms(content, locale))|
    ensures Protected(value) in Wrap(w, columns, locale, ContentAtoms(content, locale))[i]
    ensures JoinLines(Wrap(w, columns, locale, ContentAtoms(content, locale)))[i] == before + value + after
  {
    var atoms := ContentAtoms(content, locale);
    var lines := Wrap(w, columns, locale, atoms);
    ProtectedIsAtom(content, locale, value);
    WrapConservesInk(w, columns, locale, atoms);
    InkMember(atoms, Protected(value));
    InkMember(Flatten(lines), Protected(value));
    i := FlattenMember(lines, Protected(value));
    before, after := AtomWithinText(lines[i], Protected(value));
  }
}
