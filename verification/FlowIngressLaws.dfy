// What every run of the flow ingress binding keeps: captured sends are fenced, deferred
// executions settle exactly once, and abandoned ones never reach native input.
module FlowIngressLaws {
  import opened FlowIngress

  // ---------- Invariants ----------

  predicate CapturedKept(attachment: nat, changingBranch: bool, c: Captured)
  {
    && c.starts == (if c.started then 1 else 0)
    && c.reports <= (if c.preflightDone then 1 else 0)
    && c.scope.attachment <= attachment
    && (c.inFlight ==> c.started && c.scope.attachment == attachment && !changingBranch)
  }

  predicate EntryKept(e: Entry, starts: nat, waiting: bool)
  {
    && (e.settled <==> e.outcome != Pending) && e.settlements == (if e.settled then 1 else 0)
    && (e.running <==> e.action in {Revalidating, Failing, InNative, Finishing})
    && (e.action in {Revalidating, Failing, InNative} ==> !e.settled)
    && (e.action in {Finishing, Done} ==> e.settled)
    && (e.action == Queued && !e.settled ==> waiting)
    && starts <= 1 && (e.action in {Queued, Revalidating} ==> starts == 0)
    && (e.outcome == Abandoned ==> starts == 0 && e.action in {Queued, Done})
  }

  predicate ExternalKept(e: External, waiting: bool)
  {
    && (e.released ==> e.started)
    && (waiting ==> e.execution.Held?)
    && match e.execution
       case NotRun => !e.started && e.starts == 0
       case Direct(done) => e.started && e.starts == 1
       case Held(entry) => e.started && EntryKept(entry, e.starts, waiting)
  }

  function InFlight(captured: map<nat, Captured>): set<nat>
  {
    set id | id in captured && captured[id].inFlight
  }

  predicate IsLive(e: External)
  {
    e.started && !e.released
  }

  function Live(externals: map<nat, External>): set<nat>
  {
    set x | x in externals && IsLive(externals[x])
  }

  ghost predicate CapturesKept(s: State)
  {
    forall id :: id in s.captured ==> CapturedKept(s.attachment, s.changingBranch, s.captured[id])
  }

  ghost predicate ExternalsKept(externals: map<nat, External>, waiting: set<nat>)
  {
    waiting <= externals.Keys && forall x :: x in externals ==> ExternalKept(externals[x], x in waiting)
  }

  /** The dispatch counter counts exactly the sends under way. */
  predicate Counted(s: State)
  {
    s.dispatches == |InFlight(s.captured)| + |Live(s.externals)|
  }

  /** Outside every settled drain no deferred execution waits. */
  predicate NothingWaits(s: State)
  {
    s.settledDepth == 0 ==> s.deferredSettled == {}
  }

  ghost predicate Kept(s: State)
  {
    CapturesKept(s) && ExternalsKept(s.externals, s.deferredSettled) && Counted(s) && NothingWaits(s)
  }

  // ---------- Every step keeps them ----------

  function Weight(b: bool): int
  {
    if b then 1 else 0
  }

  lemma InFlightUpdate(captured: map<nat, Captured>, id: nat, c: Captured)
    ensures |InFlight(captured[id := c])|
         == |InFlight(captured)| + Weight(c.inFlight) - Weight(id in captured && captured[id].inFlight)
  {
    var before, after := InFlight(captured), InFlight(captured[id := c]);
    if c.inFlight {
      assert after == before + {id};
    } else {
      assert after == before - {id};
    }
  }

  lemma LiveUpdate(externals: map<nat, External>, x: nat, e: External)
    ensures |Live(externals[x := e])|
         == |Live(externals)| + Weight(IsLive(e)) - Weight(x in externals && IsLive(externals[x]))
  {
    hide IsLive;
    var before, after := Live(externals), Live(externals[x := e]);
    if IsLive(e) {
      assert after == before + {x};
    } else {
      assert after == before - {x};
    }
  }

  function WithCaptured(s: State, id: nat, c: Captured): State
  {
    s.(captured := s.captured[id := c],
       dispatches := s.dispatches + Weight(c.inFlight) - Weight(id in s.captured && s.captured[id].inFlight))
  }

  lemma CapturedUpdate(s: State, id: nat, c: Captured)
    requires Kept(s) && CapturedKept(s.attachment, s.changingBranch, c)
    ensures Kept(WithCaptured(s, id, c))
  {
    hide CapturedKept, ExternalsKept, InFlight, Live;
    InFlightUpdate(s.captured, id, c);
  }

  function WithExternal(s: State, x: nat, e: External, waiting: bool): State
  {
    s.(externals := s.externals[x := e],
       deferredSettled := if waiting then s.deferredSettled + {x} else s.deferredSettled - {x},
       dispatches := s.dispatches + Weight(IsLive(e)) - Weight(x in s.externals && IsLive(s.externals[x])))
  }

  lemma ExternalUpdate(s: State, x: nat, e: External, waiting: bool)
    requires Kept(s) && ExternalKept(e, waiting) && (waiting && x !in s.deferredSettled ==> s.settledDepth > 0)
    ensures Kept(WithExternal(s, x, e, waiting))
  {
    hide CapturedKept, ExternalKept, InFlight, Live, IsLive;
    LiveUpdate(s.externals, x, e);
    var t := WithExternal(s, x, e, waiting);
    assert ExternalsKept(t.externals, t.deferredSettled);
  }

  lemma CaptureKeeps(s: State, id: nat, frame: Frame, hasPreflight: bool, command: bool)
    requires Kept(s)
    ensures Kept(Capture(s, id, frame, hasPreflight, command))
  {
    hide Active, ExternalsKept, InFlight, Live;
    var t := Capture(s, id, frame, hasPreflight, command);
    if t != s {
      CapturedUpdate(s, id, t.captured[id]);
      assert t == WithCaptured(s, id, t.captured[id]);
    }
  }

  lemma AdmissionKeeps(s: State, e: Event)
    requires e.ECommandFinished? || e.ESubmitReturned? || e.ESubmitRejected?
    requires Kept(s)
    ensures Kept(Step(s, e))
  {
    hide ExternalsKept, InFlight, Live;
    var t := Step(s, e);
    var id := e.id;
    if t != s {
      assert CapturedKept(s.attachment, s.changingBranch, s.captured[id]);
      CapturedUpdate(s, id, t.captured[id]);
      assert t == WithCaptured(s, id, t.captured[id]);
    }
  }

  lemma NativeKeeps(s: State, e: Event)
    requires e.ENativeReport? || e.ENativeEnd?
    requires Kept(s)
    ensures Kept(Step(s, e))
  {
    hide ExternalsKept, InFlight, Live;
    var t := Step(s, e);
    var id := e.id;
    if t != s {
      assert CapturedKept(s.attachment, s.changingBranch, s.captured[id]);
      CapturedUpdate(s, id, t.captured[id]);
      assert t == WithCaptured(s, id, t.captured[id]);
    }
  }

  lemma DispatchKeeps(s: State, id: nat, frame: Frame)
    requires Kept(s)
    ensures Kept(Dispatch(s, id, frame))
  {
    hide ExternalsKept, InFlight, Live;
    var t := Dispatch(s, id, frame);
    if t != s {
      assert CapturedKept(s.attachment, s.changingBranch, s.captured[id]);
      CapturedUpdate(s, id, t.captured[id]);
      assert t == WithCaptured(s, id, t.captured[id]);
    }
  }

  lemma PrepareKeeps(s: State, x: nat, frame: Frame, input: Input)
    requires Kept(s)
    ensures Kept(Prepare(s, x, frame, input))
  {
    hide CapturesKept, Active, InFlight, Live;
    var t := Prepare(s, x, frame, input);
    if t != s {
      ExternalUpdate(s, x, t.externals[x], false);
      assert t == WithExternal(s, x, t.externals[x], false);
    }
  }

  lemma RunExternalKeeps(s: State, x: nat, valid: bool, deferred: bool)
    requires Kept(s)
    ensures Kept(RunExternal(s, x, valid, deferred))
  {
    hide CapturesKept, InFlight, Live;
    var t := RunExternal(s, x, valid, deferred);
    if t != s {
      assert ExternalKept(s.externals[x], x in s.deferredSettled);
      var waiting := deferred && s.settledDepth > 0;
      ExternalUpdate(s, x, t.externals[x], waiting);
      assert t == WithExternal(s, x, t.externals[x], waiting);
    }
  }

  lemma InvokeKeeps(s: State, x: nat)
    requires Kept(s)
    ensures Kept(Invoke(s, x))
  {
    hide CapturesKept, Active, InFlight, Live;
    var t := Invoke(s, x);
    if t != s {
      UpdateInPlace(s, t, x);
    }
  }

  lemma RevalidatedKeeps(s: State, x: nat, ok: bool)
    requires Kept(s)
    ensures Kept(Revalidated(s, x, ok))
  {
    hide CapturesKept, InFlight, Live;
    var t := Revalidated(s, x, ok);
    if t != s {
      UpdateInPlace(s, t, x);
    }
  }

  lemma ExternalNativeEndKeeps(s: State, x: nat, ok: bool)
    requires Kept(s)
    ensures Kept(ExternalNativeEnd(s, x, ok))
  {
    hide CapturesKept, InFlight, Live;
    var t := ExternalNativeEnd(s, x, ok);
    if t != s {
      UpdateInPlace(s, t, x);
    }
  }

  lemma ReleaseKeeps(s: State, x: nat)
    requires Kept(s)
    ensures Kept(ReleaseExternal(s, x))
  {
    hide CapturesKept, InFlight, Live;
    var t := ReleaseExternal(s, x);
    if t != s {
      assert ExternalKept(s.externals[x], x in s.deferredSettled);
      UpdateInPlace(s, t, x);
    }
  }

  /** A step that changes one external input, and the counter as this change requires. */
  lemma UpdateInPlace(s: State, t: State, x: nat)
    requires Kept(s) && x in s.externals && x in t.externals
    requires t == s.(externals := s.externals[x := t.externals[x]], dispatches := t.dispatches)
    requires t.dispatches == s.dispatches + Weight(IsLive(t.externals[x])) - Weight(IsLive(s.externals[x]))
    requires ExternalKept(s.externals[x], x in s.deferredSettled) ==> ExternalKept(t.externals[x], x in s.deferredSettled)
    ensures Kept(t)
  {
    hide CapturesKept, ExternalKept, InFlight, Live, IsLive;
    var waiting := x in s.deferredSettled;
    ExternalUpdate(s, x, t.externals[x], waiting);
    assert (if waiting then s.deferredSettled + {x} else s.deferredSettled - {x}) == s.deferredSettled;
    assert t == WithExternal(s, x, t.externals[x], waiting);
  }

  lemma FinishActionKeeps(s: State, x: nat)
    requires Kept(s)
    ensures Kept(FinishAction(s, x))
  {
    hide CapturesKept, InFlight, Live;
    var t := FinishAction(s, x);
    if t != s {
      assert ExternalKept(s.externals[x], x in s.deferredSettled);
      ExternalUpdate(s, x, t.externals[x], false);
      assert t == WithExternal(s, x, t.externals[x], false);
    }
  }

  lemma AbandonKeeps(s: State)
    requires CapturesKept(s) && ExternalsKept(s.externals, s.deferredSettled) && Counted(s)
    ensures Kept(AbandonSettled(s))
  {
    hide CapturedKept, InFlight;
    var t := AbandonSettled(s);
    assert Live(t.externals) == Live(s.externals);
    hide Live;
    forall x | x in t.externals ensures ExternalKept(t.externals[x], false) {
      assert ExternalKept(s.externals[x], x in s.deferredSettled);
    }
  }

  lemma SettledKeeps(s: State)
    requires Kept(s)
    ensures Kept(BeginSettled(s)) && Kept(EndSettled(s))
  {
    hide CapturedKept, ExternalsKept, InFlight, Live, AbandonSettled;
    if s.settledDepth == 1 {
      AbandonKeeps(s.(settledDepth := 0));
    }
  }

  lemma DisposeKeeps(s: State, inside: bool)
    requires Kept(s)
    ensures Kept(Dispose(s, inside))
  {
    hide CapturedKept, ExternalsKept, InFlight, Live, AbandonSettled;
    AbandonKeeps(s.(closed := true));
  }

  lemma BranchKeeps(s: State, e: Event)
    requires e.EBeforeBranchChange? || e.EBranchChanged? || e.EBranchReady?
    requires Kept(s)
    ensures Kept(Step(s, e))
  {
    hide ExternalsKept, Live, Active;
    var t := Step(s, e);
    forall id | id in t.captured ensures CapturedKept(t.attachment, t.changingBranch, t.captured[id]) {
      assert CapturedKept(s.attachment, s.changingBranch, s.captured[id]);
      if s.captured[id].inFlight {
        assert id in InFlight(s.captured);
      }
    }
  }

  lemma StepKeeps(s: State, e: Event)
    requires Kept(s)
    ensures Kept(Step(s, e))
  {
    hide Capture, Dispatch, Prepare, RunExternal, Invoke, Revalidated, ExternalNativeEnd, FinishAction,
         ReleaseExternal, BeginSettled, EndSettled, Dispose, CommandFinished, NativeReport, NativeEnd,
         SubmitReturned, SubmitRejected, BeforeBranchChange, BranchChanged, BranchReady,
         CapturedKept, ExternalKept, InFlight, Live;
    match e
    case ECapture(id, frame, hasPreflight, command) => CaptureKeeps(s, id, frame, hasPreflight, command);
    case EDispatch(id, frame) => DispatchKeeps(s, id, frame);
    case EPrepare(x, frame, input) => PrepareKeeps(s, x, frame, input);
    case ERunExternal(x, valid, deferred) => RunExternalKeeps(s, x, valid, deferred);
    case EInvoke(x) => InvokeKeeps(s, x);
    case ERevalidated(x, ok) => RevalidatedKeeps(s, x, ok);
    case EExternalNativeEnd(x, ok) => ExternalNativeEndKeeps(s, x, ok);
    case EFinishAction(x) => FinishActionKeeps(s, x);
    case EReleaseExternal(x) => ReleaseKeeps(s, x);
    case EBeginSettled => SettledKeeps(s);
    case EEndSettled => SettledKeeps(s);
    case EBeforeBranchChange(_, _) => BranchKeeps(s, e);
    case EBranchChanged => BranchKeeps(s, e);
    case EBranchReady(_, _) => BranchKeeps(s, e);
    case ESwitchSession(session) =>
    case EDispose(inside) => DisposeKeeps(s, inside);
    case ENativeReport(_) => NativeKeeps(s, e);
    case ENativeEnd(_) => NativeKeeps(s, e);
    case _ => AdmissionKeeps(s, e);
  }

  lemma {:induction false} RunKeeps(s: State, events: seq<Event>)
    requires Kept(s)
    ensures Kept(Run(s, events))
    decreases |events|
  {
    hide Step, Kept;
    if events != [] {
      StepKeeps(s, events[0]);
      RunKeeps(Step(s, events[0]), events[1..]);
    }
  }

  lemma Reachable(events: seq<Event>)
    ensures Kept(Run(OPENED, events))
  {
    assert Kept(OPENED);
    RunKeeps(OPENED, events);
  }

  /** What the invariant says of every submission and of every deferred execution. */
  lemma KeptMeans(s: State)
    requires Kept(s)
    ensures forall id :: id in s.captured ==> s.captured[id].starts <= 1 && s.captured[id].reports <= 1
    ensures forall x :: HasEntry(s, x) ==>
      && s.externals[x].starts <= 1 && EntryOf(s, x).settlements <= 1
      && (EntryOf(s, x).outcome == Abandoned ==> s.externals[x].starts == 0)
      && (s.settledDepth == 0 && !EntryOf(s, x).running ==> EntryOf(s, x).settled)
  {
    hide InFlight, Live;
    forall id | id in s.captured
      ensures s.captured[id].starts <= 1 && s.captured[id].reports <= 1
    {
      assert CapturedKept(s.attachment, s.changingBranch, s.captured[id]);
    }
    forall x | HasEntry(s, x)
      ensures EntryKept(EntryOf(s, x), s.externals[x].starts, x in s.deferredSettled)
    {
      assert ExternalKept(s.externals[x], x in s.deferredSettled);
    }
  }

  // ---------- Captured sends ----------

  /** How many native sends the submission has started. */
  function Starts(s: State, id: nat): nat
  {
    if id in s.captured then s.captured[id].starts else 0
  }

  /** Over every run, a submission starts its native send and reports its admission at most once. */
  lemma StartsAtMostOnce(events: seq<Event>, id: nat)
    requires id in Run(OPENED, events).captured
    ensures var c := Run(OPENED, events).captured[id]; c.starts <= 1 && c.reports <= 1
  {
    hide ExternalsKept, Run;
    Reachable(events);
    var s := Run(OPENED, events);
    assert CapturedKept(s.attachment, s.changingBranch, s.captured[id]);
  }

  /** The events of captured submissions. */
  predicate OnCaptures(e: Event)
  {
    e.ECapture? || e.ECommandFinished? || e.EDispatch? || e.ENativeReport? || e.ENativeEnd?
    || e.ESubmitReturned? || e.ESubmitRejected?
  }

  lemma ExternalsFrame(s: State, e: Event)
    requires OnCaptures(e)
    ensures Step(s, e).externals == s.externals && Step(s, e).closed == s.closed
    ensures Step(s, e).attachment == s.attachment
  {
    hide Active, CurrentScope, Notify;
  }

  lemma CapturesFrame(s: State, e: Event)
    requires !OnCaptures(e)
    ensures Step(s, e).captured == s.captured && (s.closed ==> Step(s, e).closed)
    ensures s.attachment <= Step(s, e).attachment
  {
    hide Active, BranchIdle, Capture, Dispatch, CommandFinished, NativeReport, NativeEnd, SubmitReturned,
         SubmitRejected, AbandonOne;
  }

  /** What one step may do to a captured submission. */
  ghost predicate FencedStep(s: State, e: Event, t: State, id: nat)
    requires id in s.captured
  {
    && id in t.captured && t.captured[id].scope == s.captured[id].scope
    && (s.captured[id].revoked ==> t.captured[id].revoked)
    && (t.captured[id].starts != s.captured[id].starts ==>
          && e.EDispatch? && e.id == id && Active(s, e.frame)
          && s.captured[id].scope == CurrentScope(s) && !s.captured[id].revoked && !s.captured[id].started)
  }

  lemma DispatchFenced(s: State, e: Event, id: nat)
    requires e.EDispatch? && id in s.captured
    ensures FencedStep(s, e, Step(s, e), id)
  {
    hide Active;
  }

  lemma AdmissionFenced(s: State, e: Event, id: nat)
    requires (e.ECapture? || e.ECommandFinished? || e.ESubmitReturned? || e.ESubmitRejected?) && id in s.captured
    ensures FencedStep(s, e, Step(s, e), id)
  {
    hide Active, CurrentScope, NativeReport, NativeEnd, Dispatch;
  }

  lemma OtherCaptureEventFenced(s: State, e: Event, id: nat)
    requires OnCaptures(e) && !e.EDispatch? && id in s.captured
    ensures FencedStep(s, e, Step(s, e), id)
  {
    hide Active, CurrentScope, Capture, CommandFinished, SubmitReturned, SubmitRejected, Dispatch;
    if !e.ENativeReport? && !e.ENativeEnd? {
      AdmissionFenced(s, e, id);
    }
  }

  lemma StepFenced(s: State, e: Event, id: nat)
    requires id in s.captured
    ensures FencedStep(s, e, Step(s, e), id)
    ensures s.closed ==> Step(s, e).closed
    ensures s.attachment <= Step(s, e).attachment
  {
    hide Step, Active;
    if OnCaptures(e) {
      ExternalsFrame(s, e);
      if e.EDispatch? {
        DispatchFenced(s, e, id);
      } else {
        OtherCaptureEventFenced(s, e, id);
      }
    } else {
      CapturesFrame(s, e);
    }
  }

  /**
   * A native send starts only by a dispatch that finds the binding open, no branch change under
   * way, the submission's attachment and session current, and the submission not revoked.
   */
  lemma SendIsFenced(s: State, e: Event, id: nat)
    requires Kept(s) && id in s.captured && Starts(Step(s, e), id) != Starts(s, id)
    ensures e.EDispatch? && e.id == id && Starts(s, id) == 0
    ensures !s.closed && !s.changingBranch && !s.captured[id].revoked
    ensures s.captured[id].scope == CurrentScope(s)
  {
    hide ExternalsKept, Step, InFlight, Live;
    StepFenced(s, e, id);
    assert CapturedKept(s.attachment, s.changingBranch, s.captured[id]);
  }

  /** Revoked, captured against an older attachment, or held by a closed binding. */
  predicate Barred(s: State, id: nat)
    requires id in s.captured
  {
    s.captured[id].revoked || s.captured[id].scope.attachment < s.attachment || s.closed
  }

  /** However the run goes on, a barred submission never starts a native send. */
  lemma {:induction false} BarredNeverStarts(s: State, events: seq<Event>, id: nat)
    requires id in s.captured && Barred(s, id)
    ensures Starts(Run(s, events), id) == Starts(s, id)
    decreases |events|
  {
    hide Step;
    if events != [] {
      StepFenced(s, events[0], id);
      BarredNeverStarts(Step(s, events[0]), events[1..], id);
    }
  }

  /** A branch change bars every submission captured before it. */
  lemma BranchChangeBars(s: State, id: nat)
    requires Kept(s) && id in s.captured && BranchChanged(s) != s
    ensures Barred(BranchChanged(s), id)
  {
    hide ExternalsKept, InFlight, Live;
    assert CapturedKept(s.attachment, s.changingBranch, s.captured[id]);
  }

  /**
   * In every reachable state the counter equals the number of sends under way, no captured send is
   * under way during a branch change, and every captured send under way belongs to the current
   * attachment.
   */
  lemma SendsUnderWay(events: seq<Event>)
    ensures var s := Run(OPENED, events);
      && s.dispatches == |InFlight(s.captured)| + |Live(s.externals)|
      && (s.changingBranch ==> InFlight(s.captured) == {})
      && (forall id :: id in InFlight(s.captured) ==> s.captured[id].scope.attachment == s.attachment)
  {
    hide ExternalsKept, Run, Live;
    Reachable(events);
    var s := Run(OPENED, events);
    forall id | id in InFlight(s.captured)
      ensures s.captured[id].scope.attachment == s.attachment && !s.changingBranch
    {
      assert CapturedKept(s.attachment, s.changingBranch, s.captured[id]);
    }
  }

  // ---------- Deferred executions ----------

  /** Over every run a deferred execution is settled at most once, and its native send starts at most once. */
  lemma SettlesAtMostOnce(events: seq<Event>, x: nat)
    requires HasEntry(Run(OPENED, events), x)
    ensures var s := Run(OPENED, events);
      && EntryOf(s, x).settlements == (if EntryOf(s, x).settled then 1 else 0)
      && s.externals[x].starts <= 1
  {
    hide CapturesKept, Run, InFlight, Live;
    Reachable(events);
    var s := Run(OPENED, events);
    assert ExternalKept(s.externals[x], x in s.deferredSettled);
  }

  /** Outside every settled drain, each deferred execution that is not running is settled exactly once. */
  lemma DrainLeavesNothing(events: seq<Event>, x: nat)
    requires Run(OPENED, events).settledDepth == 0 && HasEntry(Run(OPENED, events), x)
    requires !EntryOf(Run(OPENED, events), x).running
    ensures EntryOf(Run(OPENED, events), x).settled && EntryOf(Run(OPENED, events), x).settlements == 1
  {
    hide CapturesKept, Run, InFlight, Live;
    Reachable(events);
    var s := Run(OPENED, events);
    assert ExternalKept(s.externals[x], x in s.deferredSettled);
  }

  /** The end of the outermost drain abandons exactly the executions that neither run nor are settled. */
  lemma OuterDrainEnd(s: State, x: nat)
    requires Kept(s) && s.settledDepth == 1 && HasEntry(s, x)
    ensures HasEntry(EndSettled(s), x)
    ensures EntryOf(EndSettled(s), x) ==
      if EntryOf(s, x).running || EntryOf(s, x).settled then EntryOf(s, x)
      else Settle(EntryOf(s, x), Abandoned)
  {
    hide CapturesKept, InFlight, Live;
    assert ExternalKept(s.externals[x], x in s.deferredSettled);
  }

  /** What one step may do to a settled execution. */
  ghost predicate SettledStays(s: State, t: State, x: nat)
    requires HasEntry(s, x)
  {
    && HasEntry(t, x)
    && (EntryOf(s, x).settled ==>
          && EntryOf(t, x).settled && EntryOf(t, x).outcome == EntryOf(s, x).outcome
          && EntryOf(t, x).settlements == EntryOf(s, x).settlements
          && t.externals[x].starts == s.externals[x].starts)
  }

  lemma DrainSettled(s: State, e: Event, x: nat)
    requires e.EEndSettled? || e.EDispose?
    requires HasEntry(s, x)
    ensures SettledStays(s, Step(s, e), x)
  {
  }

  lemma EntrySettled(s: State, e: Event, x: nat)
    requires e.EInvoke? || e.ERevalidated? || e.EExternalNativeEnd? || e.EFinishAction? || e.EReleaseExternal?
    requires Kept(s) && HasEntry(s, x)
    ensures SettledStays(s, Step(s, e), x)
  {
    hide Active, CapturesKept, InFlight, Live;
    assert ExternalKept(s.externals[x], x in s.deferredSettled);
  }

  lemma StepSettled(s: State, e: Event, x: nat)
    requires Kept(s) && HasEntry(s, x)
    ensures SettledStays(s, Step(s, e), x)
  {
    hide Active, BranchIdle, CapturesKept, InFlight, Live, Capture, Dispatch, CommandFinished, NativeReport,
         NativeEnd, SubmitReturned, SubmitRejected, EndSettled, Dispose, Invoke, Revalidated, ExternalNativeEnd,
         FinishAction, ReleaseExternal;
    if OnCaptures(e) {
      ExternalsFrame(s, e);
    } else if e.EInvoke? || e.ERevalidated? || e.EExternalNativeEnd? || e.EFinishAction? || e.EReleaseExternal? {
      EntrySettled(s, e, x);
    } else if e.EEndSettled? || e.EDispose? {
      DrainSettled(s, e, x);
    } else {
      assert ExternalKept(s.externals[x], x in s.deferredSettled);
    }
  }

  /**
   * Once settled, an execution keeps its one outcome and starts nothing further, whatever follows.
   * In particular an abandoned execution never reaches native input.
   */
  lemma {:induction false} SettledForever(s: State, events: seq<Event>, x: nat)
    requires Kept(s) && HasEntry(s, x) && EntryOf(s, x).settled
    ensures SettledStays(s, Run(s, events), x)
    ensures EntryOf(s, x).outcome == Abandoned ==> Run(s, events).externals[x].starts == 0
    decreases |events|
  {
    hide Step;
    assert ExternalKept(s.externals[x], x in s.deferredSettled);
    hide Kept;
    if events != [] {
      StepSettled(s, events[0], x);
      StepKeeps(s, events[0]);
      SettledForever(Step(s, events[0]), events[1..], x);
    }
  }

  // ---------- Which executions are abandoned ----------

  predicate IsAbandoned(s: State, x: nat)
  {
    HasEntry(s, x) && EntryOf(s, x).outcome == Abandoned
  }

  /** The outermost drain ends, or the binding is disposed of, while the execution has not begun. */
  predicate Abandons(s: State, e: Event, x: nat)
  {
    && HasEntry(s, x) && EntryOf(s, x).action == Queued && !EntryOf(s, x).settled
    && ((e.EEndSettled? && s.settledDepth == 1) || e == EDispose(false))
  }

  lemma DrainAbandons(s: State, e: Event, x: nat)
    requires Kept(s) && (e.EEndSettled? || e.EDispose?)
    ensures IsAbandoned(Step(s, e), x) <==> IsAbandoned(s, x) || Abandons(s, e, x)
  {
    hide CapturesKept, InFlight, Live;
    if HasEntry(s, x) {
      assert ExternalKept(s.externals[x], x in s.deferredSettled);
    }
  }

  lemma EntryAbandonsNothing(s: State, e: Event, x: nat)
    requires e.EPrepare? || e.ERunExternal? || e.EInvoke? || e.ERevalidated? || e.EExternalNativeEnd? || e.EFinishAction?
             || e.EReleaseExternal?
    ensures IsAbandoned(Step(s, e), x) ==> IsAbandoned(s, x)
  {
    hide Active;
  }

  lemma StepAbandons(s: State, e: Event, x: nat)
    requires Kept(s)
    ensures IsAbandoned(Step(s, e), x) <==> IsAbandoned(s, x) || Abandons(s, e, x)
  {
    if IsAbandoned(s, x) {
      StepSettled(s, e, x);
      assert ExternalKept(s.externals[x], x in s.deferredSettled);
    }
    hide Active, BranchIdle, Kept, Capture, Dispatch, CommandFinished, NativeReport, NativeEnd, SubmitReturned,
         SubmitRejected, EndSettled, Dispose, Prepare, RunExternal, Invoke, Revalidated, ExternalNativeEnd,
         FinishAction, ReleaseExternal;
    if OnCaptures(e) {
      ExternalsFrame(s, e);
    } else if e.EEndSettled? || e.EDispose? {
      DrainAbandons(s, e, x);
    } else if e.EBeginSettled? || e.EBeforeBranchChange? || e.EBranchChanged? || e.EBranchReady? || e.ESwitchSession? {
      assert Step(s, e).externals == s.externals;
    } else {
      EntryAbandonsNothing(s, e, x);
    }
  }

  predicate AbandonsAt(s: State, events: seq<Event>, x: nat, i: nat)
    requires i < |events|
  {
    Abandons(Run(s, events[..i]), events[i], x)
  }

  /**
   * Exactly which executions a run abandons: those that an outermost drain, or a disposal, found not
   * begun. An inner drain that ends abandons none, and nothing takes an abandonment back.
   */
  lemma {:induction false} AbandonedExactly(s: State, events: seq<Event>, x: nat)
    requires Kept(s) && !IsAbandoned(s, x)
    ensures IsAbandoned(Run(s, events), x) <==> exists i :: 0 <= i < |events| && AbandonsAt(s, events, x, i)
    decreases |events|
  {
    hide Step, Kept, Abandons, IsAbandoned;
    if events != [] {
      var t, rest := Step(s, events[0]), events[1..];
      StepAbandons(s, events[0], x);
      StepKeeps(s, events[0]);
      assert AbandonsAt(s, events, x, 0) <==> Abandons(s, events[0], x);
      forall i | 0 <= i < |rest|
        ensures AbandonsAt(s, events, x, i + 1) <==> AbandonsAt(t, rest, x, i)
      {
        assert events[..i + 1][1..] == rest[..i];
      }
      if Abandons(s, events[0], x) {
        AbandonedStays(t, rest, x);
      } else {
        AbandonedExactly(t, rest, x);
        if IsAbandoned(Run(t, rest), x) {
          var i :| 0 <= i < |rest| && AbandonsAt(t, rest, x, i);
          assert AbandonsAt(s, events, x, i + 1);
        }
        if i :| 0 <= i < |events| && AbandonsAt(s, events, x, i) {
          assert AbandonsAt(t, rest, x, i - 1);
        }
      }
    }
  }

  lemma {:induction false} AbandonedStays(s: State, events: seq<Event>, x: nat)
    requires Kept(s) && IsAbandoned(s, x)
    ensures IsAbandoned(Run(s, events), x)
    decreases |events|
  {
    hide Step, Kept, Abandons, IsAbandoned;
    if events != [] {
      StepAbandons(s, events[0], x);
      StepKeeps(s, events[0]);
      AbandonedStays(Step(s, events[0]), events[1..], x);
    }
  }
}
