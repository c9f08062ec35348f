// The goal section of upstream/vcc-goals/runtime.ts: a parser, a printer and the merge of a stored
// section with the one of a fresh window. Two pattern tests on a line are parameters of the module's
// functions: `notes` for extension notifications and `reports` for bare progress statements.
module GoalMerge {
  import opened JsMap
  import opened Strings

  datatype Goals = Goals(base: seq<string>, scope: Option<seq<string>>)

  const MARKER := "[Scope change]"
  const TITLE := "[Session Goal]"
  const MAX_BASE := 8
  const MAX_CHANGES := 3

  /** How many spaces and tabs `s` starts with. */
  function Indent(s: string): (n: nat)
    ensures n <= |s|
  {
    if s != "" && (s[0] == ' ' || s[0] == '\t') then 1 + Indent(s[1..]) else 0
  }

  /** A line end before an indented continuation becomes one space. */
  function Unfold(s: string): string
    decreases |s|
  {
    if s == "" then ""
    else
      var n := if s[0] == '\n' then Indent(s[1..]) else 0;
      if n > 0 && n + 1 < |s| && !IsJsWhitespace(s[n + 1]) then [' '] + Unfold(s[n + 1..])
      else [s[0]] + Unfold(s[1..])
  }

  predicate PartAt(s: string, part: string, i: nat)
  {
    i + |part| <= |s| && s[i..i + |part|] == part
  }

  predicate Contains(s: string, part: string)
  {
    exists i :: 0 <= i <= |s| && PartAt(s, part, i)
  }

  /** A list item that is not part of an injected skill. */
  predicate IsItem(line: string)
  {
    |line| >= 2 && line[..2] == "- " && !Contains(line, "<skill") && !Contains(line, "</skill")
  }

  function Add(goals: seq<string>, text: string): seq<string>
  {
    if text in goals then goals else goals + [text]
  }

  function Take(goals: Goals, line: string, notes: string -> bool): Goals
  {
    if !IsItem(line) then goals
    else
      var text := Trim(line[2..]);
      if text == MARKER then goals.(scope := Some([]))
      else if text == "" || notes(text) then goals
      else if goals.scope.Some? then goals.(scope := Some(Add(goals.scope.value, text)))
      else goals.(base := Add(goals.base, text))
  }

  function Collect(goals: Goals, lines: seq<string>, notes: string -> bool): Goals
    decreases |lines|
  {
    if lines == [] then goals else Collect(Take(goals, lines[0], notes), lines[1..], notes)
  }

  function Parse(section: string, notes: string -> bool): Goals
  {
    Collect(Goals([], None), Split(Unfold(section), '\n'), notes)
  }

  function Without(goals: seq<string>, others: seq<string>): seq<string>
  {
    if goals == [] then [] else (if goals[0] in others then [] else [goals[0]]) + Without(goals[1..], others)
  }

  function Upto(goals: seq<string>, n: nat): seq<string>
  {
    if |goals| <= n then goals else goals[..n]
  }

  function Items(goals: seq<string>): seq<string>
  {
    if goals == [] then [] else ["- " + goals[0]] + Items(goals[1..])
  }

  function Print(base: seq<string>, changes: seq<string>): string
  {
    var lines := if changes == [] then base else base + [MARKER] + changes;
    if lines == [] then "" else Join([TITLE] + Items(lines), '\n')
  }

  predicate Candidate(text: string, notes: string -> bool, reports: string -> bool)
  {
    !notes(text) && !reports(text)
  }

  function OrNone(scope: Option<seq<string>>): seq<string>
  {
    if scope.Some? then scope.value else []
  }

  /** The lines of a window's own goals that are not known yet. */
  function Added(base: seq<string>, stored: Goals, window: Goals): seq<string>
  {
    Without(Without(window.base, base), OrNone(stored.scope))
  }

  /** The scope changes after the merge: the window's own, else its new goals, else the ones stored. */
  function Scope(base: seq<string>, stored: Goals, window: Goals, notes: string -> bool, reports: string -> bool)
    : seq<string>
  {
    var added := Added(base, stored, window);
    if OrNone(window.scope) != [] then window.scope.value
    else if added != [] && Candidate(added[0], notes, reports) then added
    else OrNone(stored.scope)
  }

  function MergeGoals(stored: Goals, window: Goals, notes: string -> bool, reports: string -> bool)
    : (r: (seq<string>, seq<string>))
  {
    var base := if stored.base != [] then stored.base else window.base;
    (Upto(base, MAX_BASE), Upto(Without(Scope(base, stored, window, notes, reports), base), MAX_CHANGES))
  }

  function Merge(prev: string, window: string, notes: string -> bool, reports: string -> bool): string
  {
    var (base, changes) := MergeGoals(Parse(prev, notes), Parse(window, notes), notes, reports);
    Print(base, changes)
  }

  // ---------- The program ----------

  method ParseSection(section: string, notes: string -> bool) returns (base: seq<string>, scope: Option<seq<string>>)
    ensures Goals(base, scope) == Parse(section, notes)
  {
    hide Unfold, IsItem, Trim;
    base, scope := [], None;
    var lines := Split(Unfold(section), '\n');
    var i := 0;
    assert lines[0..] == lines;
    while i < |lines|
      invariant 0 <= i <= |lines|
      invariant Collect(Goals(base, scope), lines[i..], notes) == Parse(section, notes)
    {
      assert lines[i..][1..] == lines[i + 1..];
      var line := lines[i];
      i := i + 1;
      if !IsItem(line) {
        continue;
      }
      ItemIsLong(line);
      var text := Trim(line[2..]);
      if text == MARKER {
        scope := Some([]);
        continue;
      }
      if text == "" || notes(text) {
        continue;
      }
      if scope.Some? {
        if text !in scope.value {
          scope := Some(scope.value + [text]);
        }
      } else if text !in base {
        base := base + [text];
      }
    }
  }

  method MergeSessionGoals(prev: string, window: string, notes: string -> bool, reports: string -> bool)
    returns (merged: string)
    ensures merged == Merge(prev, window, notes, reports)
  {
    hide Parse, Print;
    var oldBase, oldScope := ParseSection(prev, notes);
    var nextBase, nextScope := ParseSection(window, notes);
    var base := if oldBase != [] then oldBase else nextBase;
    var added := Without(Without(nextBase, base), OrNone(oldScope));
    var scope := oldScope;
    if nextScope.Some? && nextScope.value != [] {
      scope := nextScope;
    } else if added != [] && Candidate(added[0], notes, reports) {
      scope := Some(added);
    }
    var changes := if scope.Some? then Upto(Without(scope.value, base), MAX_CHANGES) else [];
    merged := Print(Upto(base, MAX_BASE), changes);
  }

  lemma ItemIsLong(line: string)
    requires IsItem(line)
    ensures |line| >= 2
  {
  }
}
