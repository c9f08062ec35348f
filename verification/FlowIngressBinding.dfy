// The binding as the source has it: an object whose fields every stretch of code updates in place.
module FlowIngressHost {
  import opened FlowIngress
  import Laws = FlowIngressLaws

  class FlowIngressBinding {
    var closed: bool
    var changingBranch: bool
    var attachment: nat
    var session: nat
    var awaitingBranch: nat
    var dispatches: int
    var settledDepth: nat
    var deferredSettled: set<nat>
    var captured: map<nat, Captured>
    var externals: map<nat, External>

    function View(): State
      reads this
    {
      State(closed, changingBranch, attachment, session, awaitingBranch, dispatches, settledDepth, deferredSettled,
            captured, externals)
    }

    constructor ()
      ensures View() == OPENED
    {
      closed, changingBranch, attachment, session, awaitingBranch := false, false, 0, 0, 0;
      dispatches, settledDepth, deferredSettled, captured, externals := 0, 0, {}, map[], map[];
    }

    method AssertActive(frame: Frame) returns (ok: bool)
      ensures ok == Active(View(), frame)
    {
      if closed {
        return false;
      }
      if changingBranch {
        return false;
      }
      if frame.Frame? {
        if frame.scope.session != session {
          return false;
        }
        if frame.scope.attachment != attachment && !(frame.control && frame.active) {
          return false;
        }
      }
      ok := true;
    }

    method CaptureSend(id: nat, frame: Frame, hasPreflight: bool, command: bool)
      modifies this
      ensures View() == Capture(old(View()), id, frame, hasPreflight, command)
    {
      var active := AssertActive(frame);
      if !active || id in captured {
        return;
      }
      var submission := Scope(session, attachment);
      var admission := if command then Preflighting else Submitting;
      captured := captured[id := Captured(submission, admission, false, false, false, false, false, hasPreflight, 0, 0)];
    }

    method NotifyPreflight(id: nat)
      requires id in captured
      modifies `captured
      ensures captured == old(captured)[id := Notify(old(captured)[id])]
    {
      var c := captured[id];
      if c.preflightDone {
        assert captured == captured[id := c];
        return;
      }
      c := c.(preflightDone := true);
      if c.hasPreflight {
        c := c.(reports := c.reports + 1);
      }
      captured := captured[id := c];
    }

    method CommandPreflighted(id: nat, handled: bool)
      modifies this
      ensures View() == CommandFinished(old(View()), id, handled)
    {
      if id !in captured || captured[id].admission != Preflighting {
        return;
      }
      if handled {
        NotifyPreflight(id);
        captured := captured[id := captured[id].(admission := Handled)];
      } else {
        captured := captured[id := captured[id].(admission := Submitting)];
      }
    }

    /** `dispatch` with `execute` up to the native call, which starts in the same stretch. */
    method Execute(id: nat, frame: Frame) returns (started: bool)
      modifies this
      ensures View() == Dispatch(old(View()), id, frame)
      ensures started ==> id in captured && captured[id].inFlight
    {
      started := false;
      if id !in captured || captured[id].admission in {Preflighting, Handled} {
        return;
      }
      var c := captured[id];
      captured := captured[id := c.(executed := true)];
      var active := AssertActive(frame);
      if !active {
        return;
      }
      if c.scope.attachment != attachment || c.scope.session != session {
        return;
      }
      if c.revoked {
        return;
      }
      if c.started {
        return;
      }
      captured := captured[id := captured[id].(started := true)];
      dispatches := dispatches + 1;
      captured := captured[id := captured[id].(inFlight := true, starts := c.starts + 1)];
      started := true;
    }

    method NativeReported(id: nat)
      modifies this
      ensures View() == NativeReport(old(View()), id)
    {
      if id in captured && captured[id].started && captured[id].hasPreflight {
        NotifyPreflight(id);
      }
    }

    method NativeEnded(id: nat)
      modifies this
      ensures View() == NativeEnd(old(View()), id)
    {
      if id in captured && captured[id].inFlight {
        captured := captured[id := captured[id].(inFlight := false)];
        dispatches := dispatches - 1;
      }
    }

    method SubmitSucceeded(id: nat)
      modifies this
      ensures View() == SubmitReturned(old(View()), id)
    {
      if id !in captured || captured[id].admission != Submitting {
        return;
      }
      if captured[id].executed {
        captured := captured[id := captured[id].(admission := AwaitingExecution)];
      } else {
        NotifyPreflight(id);
        captured := captured[id := captured[id].(admission := Retained)];
      }
    }

    method SubmitThrew(id: nat)
      modifies this
      ensures View() == SubmitRejected(old(View()), id)
    {
      if id in captured && captured[id].admission in {Submitting, AwaitingExecution} {
        captured := captured[id := captured[id].(admission := Rejected, revoked := true)];
      }
    }

    method PrepareExternal(x: nat, frame: Frame, input: Input)
      modifies this
      ensures View() == Prepare(old(View()), x, frame, input)
    {
      var active := AssertActive(frame);
      if !active || x in externals {
        return;
      }
      if !input.identified || input.scope.session != session || input.scope.attachment != attachment {
        return;
      }
      externals := externals[x := External(input.scope, false, false, NotRun, 0)];
    }

    method ExternalContinues(x: nat, valid: bool, deferred: bool)
      modifies this
      ensures View() == RunExternal(old(View()), x, valid, deferred)
    {
      if x !in externals || !valid || externals[x].started {
        return;
      }
      var e := externals[x].(started := true);
      dispatches := dispatches + 1;
      if deferred && settledDepth > 0 {
        e := e.(execution := Held(Entry(Queued, false, false, Pending, 0)));
        deferredSettled := deferredSettled + {x};
      } else {
        e := e.(execution := Direct(false), starts := e.starts + 1);
      }
      externals := externals[x := e];
    }

    method InvokeAction(x: nat)
      modifies this
      ensures View() == Invoke(old(View()), x)
    {
      if !HasEntry(View(), x) || externals[x].execution.entry.action != Queued {
        return;
      }
      var entry := externals[x].execution.entry;
      if entry.settled {
        entry := entry.(action := Done);
      } else {
        entry := entry.(running := true);
        var active := AssertActive(Frame(externals[x].scope, false, false));
        entry := entry.(action := if active then Revalidating else Failing);
      }
      externals := externals[x := externals[x].(execution := Held(entry))];
    }

    method ActionRevalidated(x: nat, ok: bool)
      modifies this
      ensures View() == Revalidated(old(View()), x, ok)
    {
      if !HasEntry(View(), x) || externals[x].execution.entry.action != Revalidating {
        return;
      }
      var entry := externals[x].execution.entry;
      if ok {
        externals := externals[x := externals[x].(execution := Held(entry.(action := InNative)))];
        externals := externals[x := externals[x].(starts := externals[x].starts + 1)];
      } else {
        entry := entry.(settled := true);
        entry := entry.(outcome := Refused, settlements := entry.settlements + 1);
        externals := externals[x := externals[x].(execution := Held(entry.(action := Finishing)))];
      }
    }

    method ExternalNativeEnded(x: nat, ok: bool)
      modifies this
      ensures View() == ExternalNativeEnd(old(View()), x, ok)
    {
      if HasEntry(View(), x) && externals[x].execution.entry.action == InNative {
        var entry := externals[x].execution.entry;
        if ok {
          entry := entry.(settled := true);
          entry := entry.(outcome := Resolved, settlements := entry.settlements + 1, action := Finishing);
        } else {
          entry := entry.(action := Failing);
        }
        externals := externals[x := externals[x].(execution := Held(entry))];
      } else if x in externals && externals[x].execution == Direct(false) {
        externals := externals[x := externals[x].(execution := Direct(true))];
      }
    }

    method ActionEnded(x: nat)
      modifies this
      ensures View() == FinishAction(old(View()), x)
    {
      if !HasEntry(View(), x) || externals[x].execution.entry.action !in {Failing, Finishing} {
        return;
      }
      var entry := externals[x].execution.entry;
      if entry.action == Failing {
        entry := entry.(settled := true);
        entry := entry.(outcome := Failed, settlements := entry.settlements + 1);
      }
      entry := entry.(running := false, action := Done);
      externals := externals[x := externals[x].(execution := Held(entry))];
      deferredSettled := deferredSettled - {x};
    }

    method ExternalReleased(x: nat)
      modifies this
      ensures View() == ReleaseExternal(old(View()), x)
    {
      if x !in externals || !externals[x].started || externals[x].released {
        return;
      }
      var e := externals[x];
      if e.execution == Direct(true) || (e.execution.Held? && e.execution.entry.settled) {
        externals := externals[x := e.(released := true)];
        dispatches := dispatches - 1;
      }
    }

    /** Walk the set of deferred executions; those that run or are settled are skipped. */
    method AbandonDeferred()
      modifies this
      ensures View() == AbandonSettled(old(View()))
    {
      var left := deferredSettled;
      ghost var before := externals;
      while left != {}
        invariant left <= deferredSettled == old(deferredSettled)
        invariant externals.Keys == before.Keys
        invariant forall x :: x in before ==>
          externals[x] == (if x in deferredSettled && x !in left then AbandonOne(before[x]) else before[x])
        invariant View() == old(View()).(externals := externals)
        decreases |left|
      {
        var x :| x in left;
        left := left - {x};
        if x !in externals || !externals[x].execution.Held? {
          continue;
        }
        var entry := externals[x].execution.entry;
        if entry.running || entry.settled {
          continue;
        }
        entry := entry.(settled := true);
        entry := entry.(outcome := Abandoned, settlements := entry.settlements + 1);
        externals := externals[x := externals[x].(execution := Held(entry))];
      }
      assert externals == AbandonSettled(old(View())).externals;
      deferredSettled := {};
    }

    method SettledEmissionBegins()
      modifies this
      ensures View() == BeginSettled(old(View()))
    {
      settledDepth := settledDepth + 1;
    }

    method SettledEmissionEnds()
      modifies this
      ensures View() == EndSettled(old(View()))
    {
      if settledDepth == 0 {
        return;
      }
      settledDepth := settledDepth - 1;
      if settledDepth == 0 {
        AbandonDeferred();
      }
    }

    method BranchChangeBegins(frame: Frame, hostIdle: bool)
      modifies this
      ensures View() == BeforeBranchChange(old(View()), frame, hostIdle)
    {
      var active := AssertActive(frame);
      if active && dispatches == 0 && hostIdle {
        changingBranch := true;
      }
    }

    method BranchReplaced()
      modifies this
      ensures View() == BranchChanged(old(View()))
    {
      if closed {
        return;
      }
      if !changingBranch {
        return;
      }
      attachment := attachment + 1;
      awaitingBranch := awaitingBranch + 1;
    }

    method BranchCallbackEnded(ok: bool, hostIdle: bool)
      modifies this
      ensures View() == BranchReady(old(View()), ok, hostIdle)
    {
      if awaitingBranch == 0 {
        return;
      }
      awaitingBranch := awaitingBranch - 1;
      if ok && !closed && dispatches == 0 && hostIdle {
        changingBranch := false;
      }
    }

    method DisposeBinding(insideBranchCallback: bool)
      modifies this
      ensures View() == Dispose(old(View()), insideBranchCallback)
    {
      if insideBranchCallback {
        return;
      }
      closed := true;
      AbandonDeferred();
    }

    /** One stretch of code between two awaits, whichever comes next. */
    method Take(e: Event)
      modifies this
      ensures View() == Step(old(View()), e)
      ensures old(Laws.Kept(View())) ==> Laws.Kept(View())
    {
      hide Laws.Kept, Capture, CommandFinished, Dispatch, NativeReport, NativeEnd, SubmitReturned, SubmitRejected,
           Prepare, RunExternal, Invoke, Revalidated, ExternalNativeEnd, FinishAction, ReleaseExternal, EndSettled,
           BeforeBranchChange, BranchChanged, BranchReady, Dispose;
      ghost var s := View();
      match e {
        case ECapture(id, frame, hasPreflight, command) => CaptureSend(id, frame, hasPreflight, command);
        case ECommandFinished(id, handled) => CommandPreflighted(id, handled);
        case EDispatch(id, frame) => var started := Execute(id, frame);
        case ENativeReport(id) => NativeReported(id);
        case ENativeEnd(id) => NativeEnded(id);
        case ESubmitReturned(id) => SubmitSucceeded(id);
        case ESubmitRejected(id) => SubmitThrew(id);
        case EPrepare(x, frame, input) => PrepareExternal(x, frame, input);
        case ERunExternal(x, valid, deferred) => ExternalContinues(x, valid, deferred);
        case EInvoke(x) => InvokeAction(x);
        case ERevalidated(x, ok) => ActionRevalidated(x, ok);
        case EExternalNativeEnd(x, ok) => ExternalNativeEnded(x, ok);
        case EFinishAction(x) => ActionEnded(x);
        case EReleaseExternal(x) => ExternalReleased(x);
        case EBeginSettled => SettledEmissionBegins();
        case EEndSettled => SettledEmissionEnds();
        case EBeforeBranchChange(frame, hostIdle) => BranchChangeBegins(frame, hostIdle);
        case EBranchChanged => BranchReplaced();
        case EBranchReady(ok, hostIdle) => BranchCallbackEnded(ok, hostIdle);
        case ESwitchSession(next) => session := next;
        case EDispose(inside) => DisposeBinding(inside);
      }
      if Laws.Kept(s) {
        Laws.StepKeeps(s, e);
      }
    }

    /**
     * Any events, in any order, from a fresh binding. No submission starts its native send or reports
     * its admission twice, no deferred execution settles twice or starts twice, none that was abandoned
     * ever starts, and outside every settled drain none is left that neither runs nor is settled.
     */
    method Serve(events: seq<Event>)
      requires View() == OPENED
      modifies this
      ensures View() == Run(OPENED, events) && Laws.Kept(View())
      ensures forall id :: id in captured ==> captured[id].starts <= 1 && captured[id].reports <= 1
      ensures forall x :: HasEntry(View(), x) ==>
        && externals[x].starts <= 1 && EntryOf(View(), x).settlements <= 1
        && (EntryOf(View(), x).outcome == Abandoned ==> externals[x].starts == 0)
        && (settledDepth == 0 && !EntryOf(View(), x).running ==> EntryOf(View(), x).settled)
    {
      hide Laws.Kept, Step;
      Laws.Reachable([]);
      var i := 0;
      while i < |events|
        invariant 0 <= i <= |events|
        invariant Run(View(), events[i..]) == Run(OPENED, events)
        invariant Laws.Kept(View())
      {
        assert events[i..][1..] == events[i + 1..];
        Take(events[i]);
        i := i + 1;
      }
      assert View() == Run(OPENED, events);
      Laws.KeptMeans(View());
    }
  }
}
