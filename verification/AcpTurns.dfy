// The turns of one session of packages/cli/src/acp-session.ts: prompts, child events and session
// updates wait in three first-in first-out chains of promises. A step is one synchronous segment
// between two awaits, and steps interleave freely.
module AcpTurns {
  import opened JsMap

  type Update = nat

  /** Who awaits an update: the event handler, the turn that echoes its prompt, or another caller. */
  datatype Origin = FromEvent | FromTurn | FromOther

  datatype Queued = Queued(origin: Origin, update: Update)

  /** A prompt request; `convertible` fails for unsupported content, `aborted` is its signal at the start. */
  datatype Prompt = Prompt(convertible: bool, aborted: bool, echo: seq<Update>)

  datatype ChildEvent = AgentSettled(aborted: bool) | OtherEvent

  /**
   * `fence` counts the child events queued before what ended the turn: the child's settle signal, or,
   * for a prompt that the child handled itself, its reply.
   */
  datatype Answer = Cancelled | EndTurn(fence: nat, signalled: bool) | Refused | Failed

  /** The `settled` promise; only the first settlement takes effect. */
  datatype Settlement = Pending | BySignal(aborted: bool, fence: nat) | ByAbort | Rejected

  datatype Reply = Handled | Started | ReplyFails(timedOut: bool)

  /** Where the turn waits. */
  datatype Point =
    | Ready(rest: seq<Update>)
    | Echoing(rest: seq<Update>)
    | Asking
    | Replied(reply: Reply)
    | WaitEvents(fence: nat)
    | WaitUpdates(fence: nat, until: nat)
    | WaitSettled
    | Raised(timedOut: bool)
    | Stopping

  /** `attached` says that the session's `active` field still holds this turn. */
  datatype Turn =
    Turn(number: nat, attached: bool, cancelled: bool, error: bool, settled: Settlement, point: Point)

  /** All requests, how many have started, the turn now running and the answers given. */
  datatype Prompts = Prompts(all: seq<Prompt>, started: nat, turn: Option<Turn>, answers: seq<(nat, Answer)>)

  /** The event being handled: how many of its updates were delivered, and whether the next one is awaited. */
  datatype Handling = Handling(sent: nat, awaiting: bool)

  /** All child events queued, the updates that each one reached so far sends, and how many are done. */
  datatype Events = Events(all: seq<ChildEvent>, plans: seq<seq<Update>>, handled: nat, handling: Option<Handling>)

  /** All updates queued, those not yet processed, those the client took, and whether one failed. */
  datatype Updates = Updates(all: seq<Queued>, queue: seq<Queued>, delivered: seq<Queued>, failed: bool)

  datatype Session = Session(prompts: Prompts, events: Events, updates: Updates, closed: bool, fatal: bool)

  const OPENED := Session(Prompts([], 0, None, []), Events([], [], 0, None), Updates([], [], [], false), false, false)

  // ---------- Parts of a step ----------

  predicate Active(p: Prompts)
  {
    p.turn.Some? && p.turn.value.attached
  }

  function At(p: Prompts, point: Point): Prompts
    requires p.turn.Some?
  {
    p.(turn := Some(p.turn.value.(point := point)))
  }

  /** Settle the active turn, if any, unless it was settled before. */
  function Settle(p: Prompts, settlement: Settlement): Prompts
  {
    if Active(p) && p.turn.value.settled.Pending? then p.(turn := Some(p.turn.value.(settled := settlement))) else p
  }

  function Enqueue(u: Updates, origin: Origin, update: Update): Updates
  {
    u.(all := u.all + [Queued(origin, update)], queue := u.queue + [Queued(origin, update)])
  }

  /** The turn ends and the next prompt may start. */
  function Give(p: Prompts, answer: Answer): Prompts
    requires p.turn.Some?
  {
    p.(turn := None, answers := p.answers + [(p.turn.value.number, answer)])
  }

  /** The `catch` of a turn. */
  function Catch(s: Session, timedOut: bool): Session
    requires s.prompts.turn.Some?
  {
    var t := s.prompts.turn.value;
    if t.cancelled || s.closed then s.(prompts := Give(s.prompts, Cancelled))
    else if s.updates.failed || timedOut then
      s.(fatal := s.fatal || !s.updates.failed,
         prompts := s.prompts.(turn := Some(t.(attached := false, point := Stopping))))
    else s.(prompts := Give(s.prompts, Failed))
  }

  // ---------- Prompts ----------

  /** The next prompt starts once the one before it is answered. */
  function RunPrompt(s: Session): Session
  {
    var p := s.prompts;
    if p.turn.Some? || p.started >= |p.all| then s
    else
      var request := p.all[p.started];
      var begun := p.(started := p.started + 1);
      if s.closed then s.(prompts := begun.(answers := p.answers + [(p.started, Refused)]))
      else if s.fatal || !request.convertible then s.(prompts := begun.(answers := p.answers + [(p.started, Failed)]))
      else if request.aborted then s.(prompts := begun.(answers := p.answers + [(p.started, Cancelled)]))
      else s.(prompts := begun.(turn := Some(Turn(p.started, true, false, false, Pending, Ready(request.echo)))))
  }

  function ChildReplies(p: Prompts, reply: Reply): Prompts
  {
    if p.turn.Some? && p.turn.value.point.Asking? then At(p, Replied(reply)) else p
  }

  /** The end of a turn that the child's signal settled. */
  function EndBySignal(t: Turn, aborted: bool, fence: nat): Answer
  {
    if t.cancelled || aborted then Cancelled else if t.error then Failed else EndTurn(fence, true)
  }

  /** The turn continues as far as its next await; nothing happens while what it awaits is pending. */
  function Advance(s: Session): Session
  {
    if s.prompts.turn.None? then s
    else
      var p := s.prompts;
      var t := p.turn.value;
      match t.point
      case Ready(rest) =>
        if rest != [] then s.(prompts := At(p, Echoing(rest[1..])), updates := Enqueue(s.updates, FromTurn, rest[0]))
        else s.(prompts := if t.cancelled then Give(p, Cancelled) else At(p, Asking))
      case Echoing(_) => s
      case Asking => s
      case Replied(Handled) => s.(prompts := At(p, WaitEvents(|s.events.all|)))
      case Replied(Started) => s.(prompts := At(p, WaitSettled))
      case Replied(ReplyFails(timedOut)) => Catch(s, timedOut)
      case WaitEvents(fence) =>
        if s.events.handled < fence then s else s.(prompts := At(p, WaitUpdates(fence, |s.updates.all|)))
      case WaitUpdates(fence, until) =>
        if |s.updates.all| - |s.updates.queue| < until then s
        else if s.updates.failed || s.fatal then Catch(s, false)
        else s.(prompts := Give(p, if t.cancelled then Cancelled else EndTurn(fence, false)))
      case WaitSettled =>
        (match t.settled
         case Pending => s
         case BySignal(aborted, fence) => s.(prompts := Give(p, EndBySignal(t, aborted, fence)))
         case ByAbort => s.(prompts := Give(p, Cancelled))
         case Rejected => Catch(s, false))
      case Raised(timedOut) => Catch(s, timedOut)
      case Stopping => s.(prompts := Give(p, Failed))
  }

  // ---------- Cancelling, closing, failing ----------

  function Cancel(p: Prompts): Prompts
  {
    if Active(p) then p.(turn := Some(p.turn.value.(cancelled := true))) else p
  }

  function Close(s: Session): Session
  {
    if s.closed then s else s.(closed := true, prompts := Settle(Cancel(s.prompts), ByAbort))
  }

  /** How a failure settles the active turn. */
  function FailureSettles(p: Prompts, closed: bool): Prompts
  {
    Settle(p, if closed || (p.turn.Some? && p.turn.value.cancelled) then ByAbort else Rejected)
  }

  function Fatal(s: Session): Session
  {
    s.(fatal := true, prompts := FailureSettles(s.prompts, s.closed))
  }

  // ---------- Child events ----------

  /** Every handled event has its plan, and so has the one being handled. */
  predicate Handles(e: Events)
  {
    |e.plans| == e.handled + (if e.handling.Some? then 1 else 0) && |e.plans| <= |e.all|
  }

  /** The event chain reaches its next event, which will send `plan`. A settle signal sends nothing. */
  function BeginEvent(e: Events, plan: seq<Update>): Events
  {
    if e.handling.Some? || e.handled >= |e.all| || (e.all[e.handled].AgentSettled? && plan != []) then e
    else e.(plans := e.plans + [plan], handling := Some(Handling(0, false)))
  }

  function EventDone(e: Events): Events
  {
    e.(handled := e.handled + 1, handling := None)
  }

  /** The handler queues its next update, or the event is done. */
  function ContinueEvent(s: Session): Session
    requires Handles(s.events)
  {
    var e := s.events;
    if e.handling.None? || e.handling.value.awaiting then s
    else if e.handling.value.sent < |e.plans[e.handled]| then
      s.(events := e.(handling := Some(e.handling.value.(awaiting := true))),
         updates := Enqueue(s.updates, FromEvent, e.plans[e.handled][e.handling.value.sent]))
    else
      match e.all[e.handled]
      case AgentSettled(aborted) =>
        s.(events := EventDone(e), prompts := Settle(s.prompts, BySignal(aborted, e.handled)))
      case OtherEvent => s.(events := EventDone(e))
  }

  // ---------- Updates ----------

  /** What awaited the update goes on. */
  function Fulfil(s: Session, origin: Origin): Session
  {
    if origin.FromEvent? && s.events.handling.Some? then
      s.(events := s.events.(handling := Some(Handling(s.events.handling.value.sent + 1, false))))
    else if origin.FromTurn? && s.prompts.turn.Some? && s.prompts.turn.value.point.Echoing? then
      s.(prompts := At(s.prompts, Ready(s.prompts.turn.value.point.rest)))
    else s
  }

  /** What awaited the update is given the failure: an event is dropped, a turn goes to its `catch`. */
  function Reject(s: Session, origin: Origin): Session
  {
    if origin.FromEvent? && s.events.handling.Some? then s.(events := EventDone(s.events))
    else if origin.FromTurn? && s.prompts.turn.Some? && s.prompts.turn.value.point.Echoing? then
      s.(prompts := At(s.prompts, Raised(false)))
    else s
  }

  /** The head of the update chain is processed; `ok` says whether the client takes it. */
  function Deliver(s: Session, ok: bool): Session
  {
    var u := s.updates;
    if u.queue == [] then s
    else if u.failed then Reject(s.(updates := u.(queue := u.queue[1..])), u.queue[0].origin)
    else if ok then
      Fulfil(s.(updates := u.(queue := u.queue[1..], delivered := u.delivered + [u.queue[0]])), u.queue[0].origin)
    else Reject(Fatal(s.(updates := u.(queue := u.queue[1..], failed := true))), u.queue[0].origin)
  }

  // ---------- Steps and runs ----------

  datatype Step =
    | SPrompt(prompt: Prompt) | SRunPrompt | SAdvance | SReply(reply: Reply)
    | SCancel | SAbortFailed | SClose | SFatal
    | SChild(event: ChildEvent) | SBeginEvent(plan: seq<Update>) | SContinueEvent | STurnError(error: bool)
    | SUpdate(update: Update) | SDeliver(ok: bool)

  function TurnError(p: Prompts, error: bool): Prompts
  {
    if Active(p) then p.(turn := Some(p.turn.value.(error := error))) else p
  }

  function Next(s: Session, step: Step): Session
    requires Handles(s.events)
  {
    match step
    case SPrompt(prompt) => s.(prompts := s.prompts.(all := s.prompts.all + [prompt]))
    case SRunPrompt => RunPrompt(s)
    case SAdvance => Advance(s)
    case SReply(reply) => s.(prompts := ChildReplies(s.prompts, reply))
    case SCancel => s.(prompts := Cancel(s.prompts))
    case SAbortFailed => s.(prompts := Settle(s.prompts, ByAbort))
    case SClose => Close(s)
    case SFatal => Fatal(s)
    case SChild(event) => s.(events := s.events.(all := s.events.all + [event]))
    case SBeginEvent(plan) => s.(events := BeginEvent(s.events, plan))
    case SContinueEvent => ContinueEvent(s)
    case STurnError(error) => s.(prompts := TurnError(s.prompts, error))
    case SUpdate(update) => s.(updates := Enqueue(s.updates, FromOther, update))
    case SDeliver(ok) => Deliver(s, ok)
  }

  lemma NextHandles(s: Session, step: Step)
    requires Handles(s.events)
    ensures Handles(Next(s, step).events)
  {
    hide Settle, FailureSettles;
  }

  lemma OpenedHandles()
    ensures Handles(OPENED.events)
  {
  }

  function Run(steps: seq<Step>): (s: Session)
    ensures Handles(s.events)
  {
    if steps == [] then OPENED
    else
      var before := Run(steps[..|steps| - 1]);
      NextHandles(before, steps[|steps| - 1]);
      Next(before, steps[|steps| - 1])
  }
}
