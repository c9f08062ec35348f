// What the merge of goal sections keeps: a printed section reads back as it was, a merged one is a
// normal form, and its base goals never change.
module GoalMergeLaws {
  import opened JsMap
  import opened Strings
  import opened GoalMerge

  // ---------- Goal texts ----------

  predicate Distinct(goals: seq<string>)
  {
    forall i, j :: 0 <= i < j < |goals| ==> goals[i] != goals[j]
  }

  /** What the parser keeps as one goal. */
  predicate IsGoal(text: string, notes: string -> bool)
  {
    && text != "" && Trim(text) == text && '\n' !in text && IsItem("- " + text) && text != MARKER && !notes(text)
  }

  predicate AllGoals(goals: seq<string>, notes: string -> bool)
  {
    forall i :: 0 <= i < |goals| ==> IsGoal(goals[i], notes)
  }

  predicate WellFormed(goals: Goals, notes: string -> bool)
  {
    && Distinct(goals.base) && AllGoals(goals.base, notes)
    && Distinct(OrNone(goals.scope)) && AllGoals(OrNone(goals.scope), notes)
  }

  lemma {:induction false} TrimStartSlice(s: string)
    ensures |TrimStart(s)| <= |s| && TrimStart(s) == s[|s| - |TrimStart(s)|..]
    ensures TrimStart(s) != "" ==> !IsJsWhitespace(TrimStart(s)[0])
  {
    if s != "" && IsJsWhitespace(s[0]) {
      TrimStartSlice(s[1..]);
    }
  }

  lemma {:induction false} TrimEndSlice(s: string)
    ensures |TrimEnd(s)| <= |s| && TrimEnd(s) == s[..|TrimEnd(s)|]
    ensures TrimEnd(s) != "" ==> !IsJsWhitespace(TrimEnd(s)[|TrimEnd(s)| - 1])
  {
    if s != "" && IsJsWhitespace(s[|s| - 1]) {
      TrimEndSlice(s[..|s| - 1]);
    }
  }

  /** Trimming takes a middle part, and takes it whole the second time. */
  lemma TrimSlice(s: string) returns (i: nat, j: nat)
    ensures i <= j <= |s| && Trim(s) == s[i..j] && Trim(Trim(s)) == Trim(s)
  {
    TrimStartSlice(s);
    var t := TrimStart(s);
    TrimEndSlice(t);
    i := |s| - |t|;
    j := i + |TrimEnd(t)|;
    assert s[i..][..|TrimEnd(t)|] == s[i..j];
    if Trim(s) != "" {
      assert Trim(s)[0] == t[0];
      assert TrimStart(Trim(s)) == Trim(s);
      assert TrimEnd(Trim(s)) == Trim(s);
    }
  }

  lemma ContainsInItem(line: string, i: nat, j: nat, part: string)
    requires 2 <= i <= j <= |line| && part != "" && part[0] == '<'
    requires Contains("- " + line[i..j], part)
    ensures Contains(line, part)
  {
    var item := "- " + line[i..j];
    var k :| 0 <= k <= |item| && PartAt(item, part, k);
    PartBeyondDash(line[i..j], part, k);
    PartInSlice(line, i, j, part, k - 2);
  }

  /** A part that starts with `<` lies after the dash and the space. */
  lemma PartBeyondDash(text: string, part: string, k: nat)
    requires part != "" && part[0] == '<' && PartAt("- " + text, part, k)
    ensures k >= 2 && PartAt(text, part, k - 2)
  {
    var item := "- " + text;
    var found := item[k..k + |part|];
    assert found[0] == item[k];
    assert item[0] == '-' && item[1] == ' ';
    assert text[k - 2..k - 2 + |part|] == found;
  }

  lemma PartInSlice(line: string, i: nat, j: nat, part: string, k: nat)
    requires i <= j <= |line| && PartAt(line[i..j], part, k)
    ensures PartAt(line, part, i + k)
  {
    SliceOfSlice(line, i, j, k, k + |part|);
  }

  lemma SliceOfSlice(s: string, i: nat, j: nat, a: nat, b: nat)
    requires i <= j <= |s| && a <= b <= j - i
    ensures s[i..j][a..b] == s[i + a..i + b]
  {
    assert forall m :: 0 <= m < b - a ==> s[i..j][a..b][m] == s[i..j][a + m];
  }

  /** What an item without line end holds is a goal, unless it is left out. */
  lemma ItemIsGoal(line: string, notes: string -> bool)
    requires IsItem(line) && '\n' !in line
    requires Trim(line[2..]) != "" && Trim(line[2..]) != MARKER && !notes(Trim(line[2..]))
    ensures IsGoal(Trim(line[2..]), notes)
  {
    var text := Trim(line[2..]);
    var i, j := TrimSlice(line[2..]);
    assert line[2..][i..j] == line[i + 2..j + 2];
    var item := "- " + text;
    assert item[..2] == "- ";
    if Contains(item, "<skill") {
      ContainsInItem(line, i + 2, j + 2, "<skill");
    }
    if Contains(item, "</skill") {
      ContainsInItem(line, i + 2, j + 2, "</skill");
    }
  }

  lemma TakeKeeps(goals: Goals, line: string, notes: string -> bool)
    requires WellFormed(goals, notes) && '\n' !in line
    ensures WellFormed(Take(goals, line, notes), notes)
  {
    hide IsItem, IsGoal, Trim;
    if IsItem(line) {
      ItemIsLong(line);
      var text := Trim(line[2..]);
      if text != "" && text != MARKER && !notes(text) {
        ItemIsGoal(line, notes);
      }
    }
  }

  lemma {:induction false} CollectKeeps(goals: Goals, lines: seq<string>, notes: string -> bool)
    requires WellFormed(goals, notes) && forall i :: 0 <= i < |lines| ==> '\n' !in lines[i]
    ensures WellFormed(Collect(goals, lines, notes), notes)
    decreases |lines|
  {
    hide Take, WellFormed;
    if lines != [] {
      TakeKeeps(goals, lines[0], notes);
      CollectKeeps(Take(goals, lines[0], notes), lines[1..], notes);
    }
  }

  lemma ParseIsWellFormed(section: string, notes: string -> bool)
    ensures WellFormed(Parse(section, notes), notes)
  {
    JoinSplit(Unfold(section), '\n');
    CollectKeeps(Goals([], None), Split(Unfold(section), '\n'), notes);
  }

  // ---------- Printing and parsing ----------

  /** A title and list items: none of the lines has a line end, and none but the first may be indented. */
  predicate Listed(lines: seq<string>)
  {
    && |lines| >= 1
    && (forall i :: 0 <= i < |lines| ==> '\n' !in lines[i])
    && (forall i :: 1 <= i < |lines| ==> lines[i] != "" && lines[i][0] == '-')
  }

  lemma {:induction false} UnfoldListed(lines: seq<string>)
    requires Listed(lines)
    ensures Unfold(Join(lines, '\n')) == Join(lines, '\n')
    decreases |lines|, |lines[0]|
  {
    hide Unfold;
    if lines[0] == "" {
      if |lines| == 1 {
        UnfoldNothing();
      } else {
        assert Listed(lines[1..]);
        UnfoldListed(lines[1..]);
        JoinStart(lines[1..]);
        UnfoldBreak(Join(lines[1..], '\n'));
        assert Join(lines, '\n') == ['\n'] + Join(lines[1..], '\n');
      }
    } else {
      var shorter := [lines[0][1..]] + lines[1..];
      assert shorter[1..] == lines[1..];
      assert forall i :: 1 <= i < |lines| ==> shorter[i] == lines[i];
      assert forall c :: c in lines[0][1..] ==> c in lines[0];
      assert Listed(shorter);
      UnfoldListed(shorter);
      assert lines[0][0] in lines[0];
      UnfoldPlain(lines[0][0], Join(shorter, '\n'));
      assert lines[0] == [lines[0][0]] + lines[0][1..];
      assert Join(lines, '\n') == [lines[0][0]] + Join(shorter, '\n');
    }
  }

  lemma JoinStart(lines: seq<string>)
    requires lines != [] && lines[0] != ""
    ensures Join(lines, '\n') != "" && Join(lines, '\n')[0] == lines[0][0]
  {
  }

  lemma UnfoldNothing()
    ensures Unfold("") == ""
  {
  }

  lemma UnfoldPlain(c: char, rest: string)
    requires c != '\n'
    ensures Unfold([c] + rest) == [c] + Unfold(rest)
  {
    assert ([c] + rest)[1..] == rest;
  }

  lemma UnfoldBreak(rest: string)
    requires rest != "" && rest[0] == '-'
    ensures Unfold(['\n'] + rest) == ['\n'] + Unfold(rest)
  {
    assert (['\n'] + rest)[1..] == rest;
  }

  lemma {:induction false} ItemsAt(goals: seq<string>, i: nat)
    ensures |Items(goals)| == |goals|
    ensures i < |goals| ==> Items(goals)[i] == "- " + goals[i]
  {
    if goals != [] {
      ItemsAt(goals[1..], if i > 0 then i - 1 else 0);
    }
  }

  lemma {:induction false} ItemsAppend(a: seq<string>, b: seq<string>)
    ensures Items(a + b) == Items(a) + Items(b)
  {
    if a == [] {
      assert a + b == b;
    } else {
      assert (a + b)[1..] == a[1..] + b;
      ItemsAppend(a[1..], b);
    }
  }

  lemma TakeGoal(goals: Goals, text: string, notes: string -> bool)
    requires IsGoal(text, notes)
    ensures Take(goals, "- " + text, notes)
         == if goals.scope.Some? then goals.(scope := Some(Add(goals.scope.value, text)))
            else goals.(base := Add(goals.base, text))
  {
    hide IsItem, Trim;
    assert ("- " + text)[2..] == text;
  }

  lemma {:induction false} CollectAppend(goals: Goals, a: seq<string>, b: seq<string>, notes: string -> bool)
    ensures Collect(goals, a + b, notes) == Collect(Collect(goals, a, notes), b, notes)
    decreases |a|
  {
    hide Take;
    if a == [] {
      assert a + b == b;
    } else {
      assert (a + b)[1..] == a[1..] + b;
      CollectAppend(Take(goals, a[0], notes), a[1..], b, notes);
    }
  }

  /** Reading back a list of distinct goals, after `had`. */
  lemma {:induction false} CollectBase(had: seq<string>, goals: seq<string>, notes: string -> bool)
    requires Distinct(had + goals) && AllGoals(goals, notes)
    ensures Collect(Goals(had, None), Items(goals), notes) == Goals(had + goals, None)
    decreases |goals|
  {
    hide Take, IsGoal;
    if goals == [] {
      assert had + goals == had;
    } else {
      TakeGoal(Goals(had, None), goals[0], notes);
      NotBefore(had, goals);
      assert had + goals == had + [goals[0]] + goals[1..];
      CollectBase(had + [goals[0]], goals[1..], notes);
    }
  }

  lemma {:induction false} CollectScope(base: seq<string>, had: seq<string>, goals: seq<string>, notes: string -> bool)
    requires Distinct(had + goals) && AllGoals(goals, notes)
    ensures Collect(Goals(base, Some(had)), Items(goals), notes) == Goals(base, Some(had + goals))
    decreases |goals|
  {
    hide Take, IsGoal;
    if goals == [] {
      assert had + goals == had;
    } else {
      TakeGoal(Goals(base, Some(had)), goals[0], notes);
      NotBefore(had, goals);
      assert had + goals == had + [goals[0]] + goals[1..];
      CollectScope(base, had + [goals[0]], goals[1..], notes);
    }
  }

  lemma NotBefore(had: seq<string>, goals: seq<string>)
    requires goals != [] && Distinct(had + goals)
    ensures goals[0] !in had
  {
    var all := had + goals;
    forall i | 0 <= i < |had|
      ensures had[i] != goals[0]
    {
      assert all[i] == had[i] && all[|had|] == goals[0];
    }
  }

  lemma NoSkill(s: string, part: string)
    requires part != "" && part[0] !in s
    ensures !Contains(s, part)
  {
    forall i | 0 <= i <= |s|
      ensures !PartAt(s, part, i)
    {
      if i + |part| <= |s| {
        assert s[i] in s && s[i..i + |part|][0] == s[i];
      }
    }
  }

  lemma TakeMarker(goals: Goals, notes: string -> bool)
    ensures Take(goals, "- " + MARKER, notes) == goals.(scope := Some([]))
  {
    var line := "- " + MARKER;
    NoSkill(line, "<skill");
    NoSkill(line, "</skill");
    assert line[..2] == "- " && line[2..] == MARKER;
    assert Trim(MARKER) == MARKER;
  }

  lemma TakeTitle(goals: Goals, notes: string -> bool)
    ensures Take(goals, TITLE, notes) == goals && '\n' !in TITLE && '\n' !in "- " + MARKER
  {
    assert TITLE[..2][0] == '[';
  }

  /** The lines of a printed section. */
  function Lines(base: seq<string>, changes: seq<string>): seq<string>
  {
    if changes == [] then base else base + [MARKER] + changes
  }

  lemma LinesAreListed(base: seq<string>, changes: seq<string>, notes: string -> bool)
    requires AllGoals(base, notes) && AllGoals(changes, notes)
    ensures Listed([TITLE] + Items(Lines(base, changes)))
  {
    hide IsItem, Trim;
    var lines := Lines(base, changes);
    TakeTitle(Goals([], None), notes);
    ItemsAt(lines, 0);
    forall i | 0 <= i < |lines|
      ensures '\n' !in Items(lines)[i] && Items(lines)[i] != "" && Items(lines)[i][0] == '-'
    {
      ItemsAt(lines, i);
      assert lines[i] == MARKER || IsGoal(lines[i], notes);
    }
  }

  /** Parsing a printed section gives back its goals and its scope changes. */
  lemma PrintParses(base: seq<string>, changes: seq<string>, notes: string -> bool)
    requires Distinct(base) && AllGoals(base, notes) && Distinct(changes) && AllGoals(changes, notes)
    ensures Parse(Print(base, changes), notes) == Goals(base, if changes == [] then None else Some(changes))
  {
    hide IsGoal, IsItem, Take, Trim, Unfold;
    var lines := Lines(base, changes);
    var none := Goals([], None);
    if lines == [] {
      NothingParses(notes);
    } else {
      LinesAreListed(base, changes, notes);
      UnfoldListed([TITLE] + Items(lines));
      SplitJoin([TITLE] + Items(lines), '\n');
      TakeTitle(none, notes);
      assert ([TITLE] + Items(lines))[1..] == Items(lines);
      assert [] + base == base && [] + changes == changes;
      CollectBase([], base, notes);
      if changes != [] {
        ItemsAppend(base + [MARKER], changes);
        ItemsAppend(base, [MARKER]);
        OneItem(MARKER);
        Assoc(Items(base), ["- " + MARKER], Items(changes));
        CollectAppend(none, Items(base), ["- " + MARKER] + Items(changes), notes);
        TakeMarker(Goals(base, None), notes);
        assert (["- " + MARKER] + Items(changes))[1..] == Items(changes);
        CollectScope(base, [], changes, notes);
      }
    }
  }

  lemma OneItem(goal: string)
    ensures Items([goal]) == ["- " + goal]
  {
    assert [goal][1..] == [];
  }

  lemma NothingParses(notes: string -> bool)
    ensures Parse("", notes) == Goals([], None)
  {
    assert Split("", '\n') == [""];
    assert [""][1..] == [];
    assert !IsItem("");
  }

  // ---------- Merging ----------

  lemma {:induction false} WithoutKeeps(goals: seq<string>, others: seq<string>, notes: string -> bool)
    requires Distinct(goals) && AllGoals(goals, notes)
    ensures var left := Without(goals, others);
      && Distinct(left) && AllGoals(left, notes)
      && (forall x :: x in left <==> x in goals && x !in others)
  {
    hide IsGoal;
    if goals != [] {
      assert Distinct(goals[1..]) && AllGoals(goals[1..], notes);
      WithoutKeeps(goals[1..], others, notes);
      assert goals[0] !in goals[1..];
      assert goals == [goals[0]] + goals[1..];
    }
  }

  lemma ScopeIsGoals(base: seq<string>, stored: Goals, window: Goals, notes: string -> bool, reports: string -> bool)
    requires WellFormed(stored, notes) && WellFormed(window, notes)
    ensures var scope := Scope(base, stored, window, notes, reports); Distinct(scope) && AllGoals(scope, notes)
  {
    hide Candidate, Distinct, AllGoals;
    WithoutKeeps(window.base, base, notes);
    WithoutKeeps(Without(window.base, base), OrNone(stored.scope), notes);
  }

  lemma UptoKeeps(goals: seq<string>, n: nat, notes: string -> bool)
    requires Distinct(goals) && AllGoals(goals, notes)
    ensures var some := Upto(goals, n);
      |some| <= n && Distinct(some) && AllGoals(some, notes) && forall x :: x in some ==> x in goals
  {
    hide IsGoal;
  }

  /**
   * A merge has at most eight goals and three scope changes, all of them goals, none twice and none in
   * both lists.
   */
  lemma MergeIsWellFormed(stored: Goals, window: Goals, notes: string -> bool, reports: string -> bool)
    requires WellFormed(stored, notes) && WellFormed(window, notes)
    ensures var (base, changes) := MergeGoals(stored, window, notes, reports);
      && |base| <= MAX_BASE && |changes| <= MAX_CHANGES
      && Distinct(base) && AllGoals(base, notes) && Distinct(changes) && AllGoals(changes, notes)
      && (forall x :: x in changes ==> x !in base)
  {
    hide IsGoal, Scope, Upto;
    var base := if stored.base != [] then stored.base else window.base;
    ScopeIsGoals(base, stored, window, notes, reports);
    var scope := Scope(base, stored, window, notes, reports);
    WithoutKeeps(scope, base, notes);
    UptoKeeps(base, MAX_BASE, notes);
    UptoKeeps(Without(scope, base), MAX_CHANGES, notes);
  }

  /** What a merged section says when it is read again. */
  lemma MergeMeans(prev: string, window: string, notes: string -> bool, reports: string -> bool)
    ensures var (base, changes) := MergeGoals(Parse(prev, notes), Parse(window, notes), notes, reports);
      Parse(Merge(prev, window, notes, reports), notes) == Goals(base, if changes == [] then None else Some(changes))
  {
    hide Parse, Print, MergeGoals;
    ParseIsWellFormed(prev, notes);
    ParseIsWellFormed(window, notes);
    MergeIsWellFormed(Parse(prev, notes), Parse(window, notes), notes, reports);
    var (base, changes) := MergeGoals(Parse(prev, notes), Parse(window, notes), notes, reports);
    PrintParses(base, changes, notes);
  }

  lemma {:induction false} WithoutNone(goals: seq<string>, others: seq<string>)
    requires forall x :: x in goals ==> x !in others
    ensures Without(goals, others) == goals
  {
    if goals != [] {
      assert goals[0] in goals;
      WithoutNone(goals[1..], others);
      assert goals == [goals[0]] + goals[1..];
    }
  }

  /** Merging an empty window into a merged section changes nothing. */
  lemma MergeIsNormal(prev: string, window: string, notes: string -> bool, reports: string -> bool)
    ensures var merged := Merge(prev, window, notes, reports);
      Merge(merged, "", notes, reports) == merged
  {
    hide Parse, Print, IsGoal;
    MergeMeans(prev, window, notes, reports);
    ParseIsWellFormed(prev, notes);
    ParseIsWellFormed(window, notes);
    MergeIsWellFormed(Parse(prev, notes), Parse(window, notes), notes, reports);
    NothingParses(notes);
    var (base, changes) := MergeGoals(Parse(prev, notes), Parse(window, notes), notes, reports);
    hide MergeGoals;
    UnchangedByNothing(base, changes, notes, reports);
  }

  lemma UnchangedByNothing(base: seq<string>, changes: seq<string>, notes: string -> bool, reports: string -> bool)
    requires |base| <= MAX_BASE && |changes| <= MAX_CHANGES && forall x :: x in changes ==> x !in base
    ensures MergeGoals(Goals(base, if changes == [] then None else Some(changes)), Goals([], None), notes, reports)
         == (base, changes)
  {
    WithoutNone(changes, base);
  }

  /** Once a section has base goals, no merge ever changes them. */
  lemma BaseStays(prev: string, window: string, notes: string -> bool, reports: string -> bool)
    requires 0 < |Parse(prev, notes).base| <= MAX_BASE
    ensures Parse(Merge(prev, window, notes, reports), notes).base == Parse(prev, notes).base
  {
    hide Parse, Merge;
    MergeMeans(prev, window, notes, reports);
  }

  function MergeAll(section: string, windows: seq<string>, notes: string -> bool, reports: string -> bool): string
    decreases |windows|
  {
    if windows == [] then section
    else MergeAll(Merge(section, windows[0], notes, reports), windows[1..], notes, reports)
  }

  /** Over any sequence of merges, the base goals of a merged section, once there are any, stay the same. */
  lemma {:induction false} BaseStaysForever(section: string, windows: seq<string>, notes: string -> bool,
                                            reports: string -> bool)
    requires 0 < |Parse(section, notes).base| <= MAX_BASE
    ensures Parse(MergeAll(section, windows, notes, reports), notes).base == Parse(section, notes).base
    decreases |windows|
  {
    hide Parse, Merge;
    if windows != [] {
      BaseStays(section, windows[0], notes, reports);
      BaseStaysForever(Merge(section, windows[0], notes, reports), windows[1..], notes, reports);
    }
  }

  lemma {:induction false} WithoutSubset(goals: seq<string>, others: seq<string>)
    ensures forall x :: x in Without(goals, others) <==> x in goals && x !in others
  {
    if goals != [] {
      WithoutSubset(goals[1..], others);
      assert goals == [goals[0]] + goals[1..];
    }
  }

  lemma NewIsDifferent(added: seq<string>, changes: seq<string>)
    requires added != [] && added[0] !in changes
    ensures Upto(added, MAX_CHANGES) != changes
  {
    assert changes != [] ==> changes[0] in changes;
    assert Upto(added, MAX_CHANGES)[0] == added[0];
  }

  /**
   * A window leaves a merged section with base goals as it is exactly when its own scope changes are,
   * up to three of them and without the base goals, those stored already, or, when it has none, when
   * its first new goal, if any, is a mere notification or progress report.
   */
  lemma UnchangedExactly(base: seq<string>, changes: seq<string>, window: Goals, notes: string -> bool,
                         reports: string -> bool)
    requires 0 < |base| <= MAX_BASE && |changes| <= MAX_CHANGES && forall x :: x in changes ==> x !in base
    ensures var stored := Goals(base, if changes == [] then None else Some(changes));
            var added := Added(base, stored, window);
      MergeGoals(stored, window, notes, reports) == (base, changes) <==>
        if OrNone(window.scope) != [] then Upto(Without(window.scope.value, base), MAX_CHANGES) == changes
        else added == [] || !Candidate(added[0], notes, reports)
  {
    var stored := Goals(base, if changes == [] then None else Some(changes));
    var added := Added(base, stored, window);
    WithoutNone(changes, base);
    WithoutSubset(window.base, base);
    WithoutSubset(Without(window.base, base), OrNone(stored.scope));
    WithoutNone(added, base);
    if OrNone(window.scope) == [] && added != [] && Candidate(added[0], notes, reports) {
      assert added[0] in added && added[0] !in changes;
      NewIsDifferent(added, changes);
    }
  }
}
