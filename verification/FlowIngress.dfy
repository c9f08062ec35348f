// The flow ingress binding of upstream/pi-content-policy/flow-ingress.js. Code between two awaits
// runs without interruption, so one event is one such stretch. The frame an asynchronous call
// runs in is passed explicitly, and the host may produce the events in any order.
module FlowIngress {

  /** What a submission was captured against. */
  datatype Scope = Scope(session: nat, attachment: nat)

  /** The dispatch frame of the running call: none, a dispatch, or a direct host command. */
  datatype Frame = NoFrame | Frame(scope: Scope, control: bool, active: bool)

  /** Where a captured submission stands with its handler. */
  datatype Admission = Preflighting | Submitting | Retained | AwaitingExecution | Rejected | Handled

  /**
   * One captured submission: the variables its closures share, and what the outside saw, namely
   * the native sends begun and the reports its preflight callback received.
   */
  datatype Captured = Captured(
    scope: Scope, admission: Admission, started: bool, revoked: bool, executed: bool, inFlight: bool,
    preflightDone: bool, hasPreflight: bool, starts: nat, reports: nat)

  /** The stretch of the deferred closure that runs next. */
  datatype Action = Queued | Revalidating | Failing | InNative | Finishing | Done

  datatype Outcome = Pending | Resolved | Refused | Failed | Abandoned

  /** A native send Pi holds until the settled event ends. `settlements` counts settle calls. */
  datatype Entry = Entry(action: Action, running: bool, settled: bool, outcome: Outcome, settlements: nat)

  datatype Execution = NotRun | Direct(done: bool) | Held(entry: Entry)

  /** One prepared external input. */
  datatype External = External(scope: Scope, started: bool, released: bool, execution: Execution, starts: nat)

  datatype State = State(
    closed: bool, changingBranch: bool, attachment: nat, session: nat, awaitingBranch: nat,
    dispatches: int, settledDepth: nat, deferredSettled: set<nat>,
    captured: map<nat, Captured>, externals: map<nat, External>)

  const OPENED := State(false, false, 0, 0, 0, 0, 0, {}, map[], map[])

  // ---------- Guards ----------

  /** `assertActive` does not throw. */
  predicate Active(s: State, frame: Frame)
  {
    && !s.closed && !s.changingBranch
    && (frame.Frame? ==>
          && frame.scope.session == s.session
          && (frame.scope.attachment == s.attachment || (frame.control && frame.active)))
  }

  function CurrentScope(s: State): Scope
  {
    Scope(s.session, s.attachment)
  }

  predicate BranchIdle(s: State, hostIdle: bool)
  {
    s.dispatches == 0 && hostIdle
  }

  // ---------- Captured submissions ----------

  function Capture(s: State, id: nat, frame: Frame, hasPreflight: bool, command: bool): State
  {
    if id in s.captured || !Active(s, frame) then s
    else
      var c := Captured(CurrentScope(s), if command then Preflighting else Submitting,
                        false, false, false, false, false, hasPreflight, 0, 0);
      s.(captured := s.captured[id := c])
  }

  /** The wrapped preflight callback: exactly one report is forwarded. */
  function Notify(c: Captured): Captured
  {
    if c.preflightDone then c
    else c.(preflightDone := true, reports := if c.hasPreflight then c.reports + 1 else c.reports)
  }

  function CommandFinished(s: State, id: nat, handled: bool): State
  {
    if id in s.captured && s.captured[id].admission == Preflighting then
      var c := s.captured[id];
      s.(captured := s.captured[id :=
        if handled then Notify(c).(admission := Handled) else c.(admission := Submitting)])
    else s
  }

  /** The checks `execute` makes before it calls the native send in the same stretch. */
  predicate MayStart(s: State, c: Captured, frame: Frame)
  {
    Active(s, frame) && c.scope == CurrentScope(s) && !c.revoked && !c.started
  }

  function Dispatch(s: State, id: nat, frame: Frame): State
  {
    if id in s.captured && s.captured[id].admission !in {Preflighting, Handled} then
      var c := s.captured[id].(executed := true);
      if MayStart(s, c, frame) then
        s.(captured := s.captured[id := c.(started := true, inFlight := true, starts := c.starts + 1)],
           dispatches := s.dispatches + 1)
      else s.(captured := s.captured[id := c])
    else s
  }

  /** The native send reports a disposition; it holds the callback from its start on. */
  function NativeReport(s: State, id: nat): State
  {
    if id in s.captured && s.captured[id].started && s.captured[id].hasPreflight then
      s.(captured := s.captured[id := Notify(s.captured[id])])
    else s
  }

  function NativeEnd(s: State, id: nat): State
  {
    if id in s.captured && s.captured[id].inFlight then
      s.(captured := s.captured[id := s.captured[id].(inFlight := false)], dispatches := s.dispatches - 1)
    else s
  }

  /** The handler's `submit` returned: a dispatch owns the outcome, or the input is retained. */
  function SubmitReturned(s: State, id: nat): State
  {
    if id in s.captured && s.captured[id].admission == Submitting then
      var c := s.captured[id];
      s.(captured := s.captured[id :=
        if c.executed then c.(admission := AwaitingExecution) else Notify(c).(admission := Retained)])
    else s
  }

  /** `submit` threw, or the execution it left behind was rejected. */
  function SubmitRejected(s: State, id: nat): State
  {
    if id in s.captured && s.captured[id].admission in {Submitting, AwaitingExecution} then
      s.(captured := s.captured[id := s.captured[id].(admission := Rejected, revoked := true)])
    else s
  }

  // ---------- External input and settled drains ----------

  /**
   * What an extension hands in to be prepared: the scope it names, and whether the runtime, the
   * extension, the kind of prompt and the type of the epoch are those the preparation demands.
   */
  datatype Input = Input(scope: Scope, identified: bool)

  /** An input is prepared only for the scope that is current now. */
  function Prepare(s: State, x: nat, frame: Frame, input: Input): State
  {
    if x in s.externals || !Active(s, frame) || !input.identified || input.scope != CurrentScope(s) then s
    else s.(externals := s.externals[x := External(input.scope, false, false, NotRun, 0)])
  }

  const HELD := Entry(Queued, false, false, Pending, 0)

  /**
   * The prepared callback goes on after its revalidation, which `valid` says succeeded; an await
   * lies in between. The host defers the native send only while `agent_settled` is emitted.
   */
  function RunExternal(s: State, x: nat, valid: bool, deferred: bool): State
  {
    if x in s.externals && valid && !s.externals[x].started then
      var e := s.externals[x].(started := true);
      if deferred && s.settledDepth > 0 then
        s.(externals := s.externals[x := e.(execution := Held(HELD))],
           dispatches := s.dispatches + 1, deferredSettled := s.deferredSettled + {x})
      else
        s.(externals := s.externals[x := e.(execution := Direct(false), starts := e.starts + 1)],
           dispatches := s.dispatches + 1)
    else s
  }

  predicate HasEntry(s: State, x: nat)
  {
    x in s.externals && s.externals[x].execution.Held?
  }

  function EntryOf(s: State, x: nat): Entry
    requires HasEntry(s, x)
  {
    s.externals[x].execution.entry
  }

  function WithEntry(s: State, x: nat, entry: Entry): State
    requires HasEntry(s, x)
  {
    s.(externals := s.externals[x := s.externals[x].(execution := Held(entry))])
  }

  function Settle(entry: Entry, outcome: Outcome): Entry
  {
    entry.(settled := true, outcome := outcome, settlements := entry.settlements + 1)
  }

  /** Pi invokes the deferred closure, at most once. */
  function Invoke(s: State, x: nat): State
  {
    if HasEntry(s, x) && EntryOf(s, x).action == Queued then
      var entry := EntryOf(s, x);
      if entry.settled then WithEntry(s, x, entry.(action := Done))
      else
        var active := Active(s, Frame(s.externals[x].scope, false, false));
        WithEntry(s, x, entry.(running := true, action := if active then Revalidating else Failing))
    else s
  }

  /** The revalidation inside the deferred closure ended; on success the native send begins. */
  function Revalidated(s: State, x: nat, ok: bool): State
  {
    if HasEntry(s, x) && EntryOf(s, x).action == Revalidating then
      var entry := EntryOf(s, x);
      if ok then
        var t := WithEntry(s, x, entry.(action := InNative));
        t.(externals := t.externals[x := t.externals[x].(starts := t.externals[x].starts + 1)])
      else WithEntry(s, x, Settle(entry, Refused).(action := Finishing))
    else s
  }

  function ExternalNativeEnd(s: State, x: nat, ok: bool): State
  {
    if HasEntry(s, x) && EntryOf(s, x).action == InNative then
      var entry := EntryOf(s, x);
      WithEntry(s, x, if ok then Settle(entry, Resolved).(action := Finishing) else entry.(action := Failing))
    else if x in s.externals && s.externals[x].execution == Direct(false) then
      s.(externals := s.externals[x := s.externals[x].(execution := Direct(true))])
    else s
  }

  /** The `catch` and `finally` of the deferred closure, or its `finally` alone. */
  function FinishAction(s: State, x: nat): State
  {
    if HasEntry(s, x) && EntryOf(s, x).action in {Failing, Finishing} then
      var entry := EntryOf(s, x);
      var settled := if entry.action == Failing then Settle(entry, Failed) else entry;
      WithEntry(s, x, settled.(action := Done, running := false)).(deferredSettled := s.deferredSettled - {x})
    else s
  }

  /** The prepared callback ends once its execution is settled or its direct native call is over. */
  function ReleaseExternal(s: State, x: nat): State
  {
    if x in s.externals && s.externals[x].started && !s.externals[x].released
       && (s.externals[x].execution == Direct(true) || (HasEntry(s, x) && EntryOf(s, x).settled)) then
      s.(externals := s.externals[x := s.externals[x].(released := true)], dispatches := s.dispatches - 1)
    else s
  }

  predicate Abandonable(e: External)
  {
    e.execution.Held? && !e.execution.entry.running && !e.execution.entry.settled
  }

  function AbandonOne(e: External): External
  {
    if Abandonable(e) then e.(execution := Held(Settle(e.execution.entry, Abandoned))) else e
  }

  /** What waits and has neither begun nor been settled is rejected; the set is emptied. */
  function AbandonSettled(s: State): State
  {
    s.(externals := map x | x in s.externals ::
         if x in s.deferredSettled then AbandonOne(s.externals[x]) else s.externals[x],
       deferredSettled := {})
  }

  function BeginSettled(s: State): State
  {
    s.(settledDepth := s.settledDepth + 1)
  }

  /** A nested emission ends without effect on the executions the outer one still holds. */
  function EndSettled(s: State): State
  {
    if s.settledDepth == 0 then s
    else
      var t := s.(settledDepth := s.settledDepth - 1);
      if t.settledDepth == 0 then AbandonSettled(t) else t
  }

  // ---------- Branches, sessions, disposal ----------

  function BeforeBranchChange(s: State, frame: Frame, hostIdle: bool): State
  {
    if Active(s, frame) && BranchIdle(s, hostIdle) then s.(changingBranch := true) else s
  }

  /** A fresh attachment identity, then the handler's callback is awaited. */
  function BranchChanged(s: State): State
  {
    if !s.closed && s.changingBranch then
      s.(attachment := s.attachment + 1, awaitingBranch := s.awaitingBranch + 1)
    else s
  }

  function BranchReady(s: State, ok: bool, hostIdle: bool): State
  {
    if s.awaitingBranch == 0 then s
    else
      var t := s.(awaitingBranch := s.awaitingBranch - 1);
      if ok && !t.closed && BranchIdle(t, hostIdle) then t.(changingBranch := false) else t
  }

  function Dispose(s: State, insideBranchCallback: bool): State
  {
    if insideBranchCallback then s else AbandonSettled(s.(closed := true))
  }

  // ---------- Runs ----------

  datatype Event =
    | ECapture(id: nat, frame: Frame, hasPreflight: bool, command: bool)
    | ECommandFinished(id: nat, handled: bool)
    | EDispatch(id: nat, frame: Frame)
    | ENativeReport(id: nat)
    | ENativeEnd(id: nat)
    | ESubmitReturned(id: nat)
    | ESubmitRejected(id: nat)
    | EPrepare(x: nat, frame: Frame, input: Input)
    | ERunExternal(x: nat, valid: bool, deferred: bool)
    | EInvoke(x: nat)
    | ERevalidated(x: nat, ok: bool)
    | EExternalNativeEnd(x: nat, ok: bool)
    | EFinishAction(x: nat)
    | EReleaseExternal(x: nat)
    | EBeginSettled
    | EEndSettled
    | EBeforeBranchChange(frame: Frame, hostIdle: bool)
    | EBranchChanged
    | EBranchReady(ok: bool, hostIdle: bool)
    | ESwitchSession(session: nat)
    | EDispose(insideBranchCallback: bool)

  /** An event that cannot happen in `s` changes nothing, so every sequence of events is a run. */
  function Step(s: State, e: Event): State
  {
    match e
    case ECapture(id, frame, hasPreflight, command) => Capture(s, id, frame, hasPreflight, command)
    case ECommandFinished(id, handled) => CommandFinished(s, id, handled)
    case EDispatch(id, frame) => Dispatch(s, id, frame)
    case ENativeReport(id) => NativeReport(s, id)
    case ENativeEnd(id) => NativeEnd(s, id)
    case ESubmitReturned(id) => SubmitReturned(s, id)
    case ESubmitRejected(id) => SubmitRejected(s, id)
    case EPrepare(x, frame, input) => Prepare(s, x, frame, input)
    case ERunExternal(x, valid, deferred) => RunExternal(s, x, valid, deferred)
    case EInvoke(x) => Invoke(s, x)
    case ERevalidated(x, ok) => Revalidated(s, x, ok)
    case EExternalNativeEnd(x, ok) => ExternalNativeEnd(s, x, ok)
    case EFinishAction(x) => FinishAction(s, x)
    case EReleaseExternal(x) => ReleaseExternal(s, x)
    case EBeginSettled => BeginSettled(s)
    case EEndSettled => EndSettled(s)
    case EBeforeBranchChange(frame, hostIdle) => BeforeBranchChange(s, frame, hostIdle)
    case EBranchChanged => BranchChanged(s)
    case EBranchReady(ok, hostIdle) => BranchReady(s, ok, hostIdle)
    case ESwitchSession(session) => s.(session := session)
    case EDispose(inside) => Dispose(s, inside)
  }

  function Run(s: State, events: seq<Event>): State
    decreases |events|
  {
    if events == [] then s else Run(Step(s, events[0]), events[1..])
  }
}
