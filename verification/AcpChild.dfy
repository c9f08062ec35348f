// The JSON Lines framing of packages/cli/src/acp-child.ts: decoded output arrives in chunks cut
// anywhere, and records are handed to the line handler one by one.
module AcpChildFraming {
  import opened Strings

  const MAX_STDOUT_RECORD_CHARS := 32 * 1024 * 1024

  /** The first place of `c` at or after `from`, or -1. */
  function IndexFrom(s: string, c: char, from: nat): (i: int)
    requires from <= |s|
    ensures i == -1 || from <= i < |s|
    decreases |s| - from
  {
    if from == |s| then -1 else if s[from] == c then from else IndexFrom(s, c, from + 1)
  }

  lemma {:induction false} IndexMeans(s: string, c: char, from: nat)
    requires from <= |s| && c !in s[..from]
    ensures var i := IndexFrom(s, c, from); if i < 0 then c !in s else s[i] == c && c !in s[..i]
    decreases |s| - from
  {
    if from == |s| {
      assert s[..from] == s;
    } else if s[from] != c {
      assert s[..from + 1] == s[..from] + [s[from]];
      IndexMeans(s, c, from + 1);
    }
  }

  function DropReturn(line: string): string
  {
    if line != "" && line[|line| - 1] == '\r' then line[..|line| - 1] else line
  }

  // ---------- The stream as a whole ----------

  /** The records of terminated lines: one trailing carriage return dropped, empty lines left out. */
  function Kept(lines: seq<string>): seq<string>
  {
    if lines == [] then []
    else
      var line := DropReturn(lines[0]);
      (if line == "" then [] else [line]) + Kept(lines[1..])
  }

  function Records(stream: string): seq<string>
  {
    var pieces := Split(stream, '\n');
    Kept(pieces[..|pieces| - 1])
  }

  /** What follows the last line feed. */
  function Rest(stream: string): string
  {
    var pieces := Split(stream, '\n');
    pieces[|pieces| - 1]
  }

  function Last(stream: string): seq<string>
  {
    if Rest(stream) == "" then [] else [Rest(stream)]
  }

  // ---------- The child's buffer ----------

  class AcpChild {
    var stdoutBuffer: string
    var lines: seq<string>
    var failed: bool

    constructor ()
      ensures stdoutBuffer == "" && lines == [] && !failed
    {
      stdoutBuffer, lines, failed := "", [], false;
    }

    method HandleLine(line: string)
      modifies `lines
      ensures lines == old(lines) + [line]
    {
      lines := lines + [line];
    }

    /** The loop of `drainStdout`: hand over the terminated records. */
    method TakeLines()
      modifies this
      ensures lines == old(lines) + Records(old(stdoutBuffer)) && stdoutBuffer == Rest(old(stdoutBuffer))
      ensures failed == old(failed)
    {
      hide Records, Rest, Split, DropReturn, IndexFrom;
      ghost var stream := stdoutBuffer;
      ghost var found: seq<string> := [];
      var newline := IndexFrom(stdoutBuffer, '\n', 0);
      while newline >= 0
        invariant newline == IndexFrom(stdoutBuffer, '\n', 0)
        invariant lines == old(lines) + found && failed == old(failed)
        invariant found + Records(stdoutBuffer) == Records(stream) && Rest(stdoutBuffer) == Rest(stream)
        decreases |stdoutBuffer|
      {
        IndexMeans(stdoutBuffer, '\n', 0);
        FirstLine(stdoutBuffer, newline);
        var line := DropReturn(stdoutBuffer[..newline]);
        found := FoundNext(found, line, Records(stdoutBuffer[newline + 1..]));
        stdoutBuffer := stdoutBuffer[newline + 1..];
        if |line| > 0 {
          HandleLine(line);
        }
        newline := IndexFrom(stdoutBuffer, '\n', 0);
      }
      IndexMeans(stdoutBuffer, '\n', 0);
      NoLine(stdoutBuffer);
    }

    method DrainStdout(flush: bool)
      modifies this
      ensures var stream := old(stdoutBuffer);
        && lines == old(lines) + Records(stream) + (if flush then Last(stream) else [])
        && stdoutBuffer == (if flush then "" else Rest(stream))
        && failed == (old(failed) || |stdoutBuffer| > MAX_STDOUT_RECORD_CHARS)
    {
      hide Records, Rest;
      TakeLines();
      if flush && |stdoutBuffer| > 0 {
        var line := stdoutBuffer;
        stdoutBuffer := "";
        HandleLine(line);
      }
      if |stdoutBuffer| > MAX_STDOUT_RECORD_CHARS {
        failed := true;
      }
    }

    method HandleStdout(chunk: string)
      modifies this
      ensures var stream := old(stdoutBuffer) + chunk;
        && lines == old(lines) + Records(stream)
        && stdoutBuffer == Rest(stream)
        && failed == (old(failed) || |Rest(stream)| > MAX_STDOUT_RECORD_CHARS)
    {
      stdoutBuffer := stdoutBuffer + chunk;
      DrainStdout(false);
      assert lines == old(lines) + Records(old(stdoutBuffer) + chunk) + [];
    }

    /** The stream ends; `tail` is what the decoder still held. */
    method FlushStdout(tail: string)
      modifies this
      ensures var stream := old(stdoutBuffer) + tail;
        && lines == old(lines) + Records(stream) + Last(stream)
        && stdoutBuffer == "" && failed == old(failed)
    {
      stdoutBuffer := stdoutBuffer + tail;
      DrainStdout(true);
    }

    /** The process is gone; whatever is left counts as the last record. */
    method FinishStdout()
      modifies this
      ensures lines == old(lines) + (if old(stdoutBuffer) == "" then [] else [old(stdoutBuffer)])
      ensures stdoutBuffer == "" && failed == old(failed)
    {
      if |stdoutBuffer| == 0 {
        return;
      }
      var line := stdoutBuffer;
      stdoutBuffer := "";
      HandleLine(line);
    }

    /** A whole run: the chunks in turn, perhaps the end of the stream, then the end of the process. */
    method ReadAll(chunks: seq<string>, ends: bool, tail: string)
      requires stdoutBuffer == "" && lines == [] && !failed
      modifies this
      ensures var stream := Concat(chunks) + (if ends then tail else "");
        lines == Records(stream) + Last(stream)
      ensures failed == Overflows(chunks)
    {
      for i := 0 to |chunks|
        invariant lines == Records(Concat(chunks[..i])) && stdoutBuffer == Rest(Concat(chunks[..i]))
        invariant failed == Overflows(chunks[..i])
      {
        NextChunk(chunks, i);
        HandleStdout(chunks[i]);
      }
      assert chunks[..|chunks|] == chunks;
      if ends {
        RecordsAppend(Concat(chunks), tail);
        FlushStdout(tail);
      } else {
        assert Concat(chunks) + "" == Concat(chunks);
      }
      FinishStdout();
    }
  }

  // ---------- One line at a time ----------

  /** The records found, with the one of this line. */
  lemma FoundNext(found: seq<string>, line: string, later: seq<string>) returns (next: seq<string>)
    ensures next == if line == "" then found else found + [line]
    ensures next + later == found + ((if line == "" then [] else [line]) + later)
  {
    next := if line == "" then found else found + [line];
  }

  lemma {:induction false} NoLine(s: string)
    requires '\n' !in s
    ensures Split(s, '\n') == [s] && Records(s) == [] && Rest(s) == s
  {
    if s != "" {
      assert s[0] in s;
      assert forall c :: c in s[1..] ==> c in s;
      NoLine(s[1..]);
      assert [s[0]] + s[1..] == s;
    }
  }

  lemma {:induction false} SplitAtFirst(s: string, i: nat)
    requires i < |s| && s[i] == '\n' && '\n' !in s[..i]
    ensures Split(s, '\n') == [s[..i]] + Split(s[i + 1..], '\n')
  {
    if i > 0 {
      assert s[0] in s[..i];
      assert s[1..][..i - 1] == s[..i][1..];
      assert forall c :: c in s[..i][1..] ==> c in s[..i];
      SplitAtFirst(s[1..], i - 1);
      assert s[1..][i..] == s[i + 1..];
      assert [s[0]] + s[1..][..i - 1] == s[..i];
    }
  }

  lemma FirstLine(s: string, i: nat)
    requires i < |s| && s[i] == '\n' && '\n' !in s[..i]
    ensures Rest(s) == Rest(s[i + 1..])
    ensures var line := DropReturn(s[..i]);
      Records(s) == (if line == "" then [] else [line]) + Records(s[i + 1..])
  {
    SplitAtFirst(s, i);
    var rest := Split(s[i + 1..], '\n');
    var pieces := Split(s, '\n');
    assert pieces[..|pieces| - 1][0] == s[..i] && pieces[..|pieces| - 1][1..] == rest[..|rest| - 1];
  }

  // ---------- Chunks do not matter ----------

  lemma {:induction false} SplitAppend(a: string, b: string)
    ensures var front := Split(a, '\n');
      var n := |front| - 1;
      Split(a + b, '\n') == front[..n] + Split(front[n] + b, '\n')
    decreases |a|
  {
    hide Split;
    var at := IndexFrom(a, '\n', 0);
    IndexMeans(a, '\n', 0);
    if at < 0 {
      NoLine(a);
    } else {
      SplitAtFirst(a, at);
      SplitAppend(a[at + 1..], b);
      assert (a + b)[..at] == a[..at] && (a + b)[at + 1..] == a[at + 1..] + b;
      SplitAtFirst(a + b, at);
      var rest := Split(a[at + 1..], '\n');
      var m := |rest| - 1;
      assert ([a[..at]] + rest)[..m + 1] == [a[..at]] + rest[..m];
      Assoc([a[..at]], rest[..m], Split(rest[m] + b, '\n'));
    }
  }

  lemma {:induction false} KeptAppend(a: seq<string>, b: seq<string>)
    ensures Kept(a + b) == Kept(a) + Kept(b)
  {
    if a == [] {
      assert a + b == b;
    } else {
      assert (a + b)[1..] == a[1..] + b;
      KeptAppend(a[1..], b);
    }
  }

  /** Records split at any place of the stream: what is left over goes in front of what comes next. */
  lemma RecordsAppend(a: string, b: string)
    ensures Records(a + b) == Records(a) + Records(Rest(a) + b)
    ensures Rest(a + b) == Rest(Rest(a) + b)
  {
    hide Split, Kept;
    SplitAppend(a, b);
    var front := Split(a, '\n');
    var n := |front| - 1;
    var tail := Split(front[n] + b, '\n');
    assert (front[..n] + tail)[..n + |tail| - 1] == front[..n] + tail[..|tail| - 1];
    KeptAppend(front[..n], tail[..|tail| - 1]);
  }

  lemma ConcatNext(chunks: seq<string>, i: nat)
    requires i < |chunks|
    ensures Concat(chunks[..i + 1]) == Concat(chunks[..i]) + chunks[i]
  {
    assert chunks[..i + 1] == chunks[..i] + [chunks[i]];
    ConcatAppend(chunks[..i], [chunks[i]]);
    assert Concat([chunks[i]]) == chunks[i] + Concat([]) == chunks[i];
  }

  lemma NextChunk(chunks: seq<string>, i: nat)
    requires i < |chunks|
    ensures var before := Concat(chunks[..i]);
      && Records(Concat(chunks[..i + 1])) == Records(before) + Records(Rest(before) + chunks[i])
      && Rest(Concat(chunks[..i + 1])) == Rest(Rest(before) + chunks[i])
    ensures Overflows(chunks[..i + 1]) <==>
      Overflows(chunks[..i]) || |Rest(Concat(chunks[..i + 1]))| > MAX_STDOUT_RECORD_CHARS
  {
    hide Rest, Records;
    ConcatNext(chunks, i);
    RecordsAppend(Concat(chunks[..i]), chunks[i]);
    OverflowsSoFar(chunks, i);
  }

  lemma OverflowsSoFar(chunks: seq<string>, i: nat)
    requires i < |chunks|
    ensures Overflows(chunks[..i + 1]) <==>
      Overflows(chunks[..i]) || |Rest(Concat(chunks[..i + 1]))| > MAX_STDOUT_RECORD_CHARS
  {
    hide Rest, Concat;
    var front, all := chunks[..i], chunks[..i + 1];
    assert all[..i + 1] == all;
    assert forall k :: 0 <= k <= i ==> all[..k] == front[..k];
    if Overflows(all) {
      var k :| 0 < k <= |all| && |Rest(Concat(all[..k]))| > MAX_STDOUT_RECORD_CHARS;
      assert k <= i ==> |Rest(Concat(front[..k]))| > MAX_STDOUT_RECORD_CHARS;
    }
    if Overflows(front) {
      var k :| 0 < k <= |front| && |Rest(Concat(front[..k]))| > MAX_STDOUT_RECORD_CHARS;
      assert |Rest(Concat(all[..k]))| > MAX_STDOUT_RECORD_CHARS;
    }
  }

  // ---------- The size limit ----------

  /** After one of the chunks more than the limit is left over. */
  predicate Overflows(chunks: seq<string>)
  {
    exists k :: 0 < k <= |chunks| && |Rest(Concat(chunks[..k]))| > MAX_STDOUT_RECORD_CHARS
  }

  predicate ShortLines(stream: string)
  {
    forall i :: 0 <= i < |Split(stream, '\n')| ==> |Split(stream, '\n')[i]| <= MAX_STDOUT_RECORD_CHARS
  }

  lemma RestIsInALine(a: string, b: string)
    requires ShortLines(a + b)
    ensures |Rest(a)| <= MAX_STDOUT_RECORD_CHARS
  {
    hide Split;
    SplitAppend(a, b);
    var front := Split(a, '\n');
    var n := |front| - 1;
    LastHasNone(a);
    FirstPiece(front[n], b);
    assert Split(a + b, '\n')[n] == Split(front[n] + b, '\n')[0];
  }

  lemma LastHasNone(a: string)
    ensures '\n' !in Rest(a)
  {
    JoinSplit(a, '\n');
  }

  lemma {:induction false} FirstPiece(a: string, b: string)
    requires '\n' !in a
    ensures |Split(a + b, '\n')[0]| >= |a|
  {
    if a != "" {
      assert a[0] in a;
      assert forall c :: c in a[1..] ==> c in a;
      FirstPiece(a[1..], b);
      assert (a + b)[1..] == a[1..] + b;
    }
  }

  /**
   * Unlike the records, the size limit depends on the chunks. A stream whose lines are all short never
   * trips it; one with a long line is read without complaint as one chunk when the line is terminated,
   * and trips it when a chunk ends within that line.
   */
  lemma ShortLinesNeverOverflow(chunks: seq<string>)
    requires ShortLines(Concat(chunks))
    ensures !Overflows(chunks)
  {
    forall k | 0 < k <= |chunks|
      ensures |Rest(Concat(chunks[..k]))| <= MAX_STDOUT_RECORD_CHARS
    {
      assert chunks == chunks[..k] + chunks[k..];
      ConcatAppend(chunks[..k], chunks[k..]);
      RestIsInALine(Concat(chunks[..k]), Concat(chunks[k..]));
    }
  }

  lemma LongLineOverflows(stream: string) returns (chunks: seq<string>)
    requires !ShortLines(stream)
    ensures Concat(chunks) == stream && Overflows(chunks)
  {
    var pieces := Split(stream, '\n');
    var i :| 0 <= i < |pieces| && |pieces[i]| > MAX_STDOUT_RECORD_CHARS;
    var cut := UpToLine(stream, i);
    chunks := [stream[..cut], stream[cut..]];
    assert chunks[..1] == [stream[..cut]];
    assert Concat(chunks[..1]) == stream[..cut] + "" == stream[..cut];
    assert chunks[1..] == [stream[cut..]] && Concat(chunks[1..]) == stream[cut..] + "";
  }

  lemma {:induction false} UpToLine(s: string, i: nat) returns (cut: nat)
    requires i < |Split(s, '\n')|
    ensures cut <= |s| && Rest(s[..cut]) == Split(s, '\n')[i]
  {
    hide Split, Rest, Records;
    var at := IndexFrom(s, '\n', 0);
    IndexMeans(s, '\n', 0);
    if at < 0 {
      NoLine(s);
      cut := |s|;
      assert s[..cut] == s;
    } else {
      SplitAtFirst(s, at);
      if i == 0 {
        cut := at;
        NoLine(s[..at]);
      } else {
        cut := UpToLine(s[at + 1..], i - 1);
        assert s[..at + 1 + cut][at + 1..] == s[at + 1..][..cut];
        assert s[..at + 1 + cut][..at] == s[..at];
        FirstLine(s[..at + 1 + cut], at);
        cut := at + 1 + cut;
      }
    }
  }

  lemma LongTerminatedLine(stream: string)
    requires |Rest(stream)| <= MAX_STDOUT_RECORD_CHARS
    ensures !Overflows([stream])
  {
    assert [stream][..1] == [stream];
    assert Concat([stream]) == stream + "" == stream;
  }
}
