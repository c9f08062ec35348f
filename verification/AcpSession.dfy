// The session object of packages/cli/src/acp-session.ts: each method is one synchronous segment that
// updates the fields in place.
module AcpSessionHost {
  import opened JsMap
  import opened AcpTurns
  import Laws = AcpTurnsLaws

  class AcpSession {
    var requests: seq<Prompt>
    var started: nat
    var turn: Option<Turn>
    var answers: seq<(nat, Answer)>
    var eventChain: Events
    var updateChain: Updates
    var closed: bool
    var fatal: bool

    function Prompts(): Prompts
      reads this
    {
      AcpTurns.Prompts.Prompts(requests, started, turn, answers)
    }

    function Now(): Session
      reads this
    {
      Session(Prompts(), eventChain, updateChain, closed, fatal)
    }

    constructor ()
      ensures Now() == OPENED
    {
      requests, started, turn, answers := [], 0, None, [];
      eventChain := Events([], [], 0, None);
      updateChain := Updates([], [], [], false);
      closed, fatal := false, false;
    }

    /** The first settlement of the active turn counts; later ones are lost. */
    method SettleActive(settlement: Settlement)
      modifies this
      ensures Now() == old(Now()).(prompts := Settle(old(Prompts()), settlement))
    {
      if turn.Some? && turn.value.attached && turn.value.settled == Pending {
        turn := Some(turn.value.(settled := settlement));
      }
    }

    method Respond(answer: Answer)
      requires turn.Some?
      modifies this
      ensures Now() == old(Now()).(prompts := Give(old(Prompts()), answer))
    {
      answers := answers + [(turn.value.number, answer)];
      turn := None;
    }

    method MoveTo(point: Point)
      requires turn.Some?
      modifies this
      ensures Now() == old(Now()).(prompts := At(old(Prompts()), point))
    {
      turn := Some(turn.value.(point := point));
    }

    method Prompt(request: Prompt)
      modifies this
      ensures Now() == old(Now()).(prompts := old(Prompts()).(all := old(requests) + [request]))
    {
      requests := requests + [request];
    }

    method StartNextPrompt()
      modifies this
      ensures Now() == RunPrompt(old(Now()))
    {
      if turn.Some? || started >= |requests| {
        return;
      }
      var number := started;
      var request := requests[number];
      started := started + 1;
      if closed {
        answers := answers + [(number, Refused)];
        return;
      }
      if fatal || !request.convertible {
        answers := answers + [(number, Failed)];
        return;
      }
      turn := Some(Turn(number, true, false, false, Pending, Ready(request.echo)));
      if request.aborted {
        Respond(Cancelled);
      }
    }

    method HandleTurnError(timedOut: bool)
      requires turn.Some?
      modifies this
      ensures Now() == Catch(old(Now()), timedOut)
    {
      if turn.value.cancelled || closed {
        Respond(Cancelled);
        return;
      }
      if updateChain.failed {
        turn := Some(turn.value.(attached := false, point := Stopping));
        return;
      }
      if timedOut {
        fatal := true;
        turn := Some(turn.value.(attached := false, point := Stopping));
        return;
      }
      Respond(Failed);
    }

    method ResumeTurn()
      modifies this
      ensures Now() == Advance(old(Now()))
    {
      hide Give, At, Catch, Enqueue;
      if turn.None? {
        return;
      }
      var t := turn.value;
      match t.point
      case Ready(rest) =>
        if rest != [] {
          MoveTo(Echoing(rest[1..]));
          EnqueueUpdate(FromTurn, rest[0]);
        } else if t.cancelled {
          Respond(Cancelled);
        } else {
          MoveTo(Asking);
        }
      case Echoing(_) =>
      case Asking =>
      case Replied(reply) =>
        match reply {
          case Handled => MoveTo(WaitEvents(|eventChain.all|));
          case Started => MoveTo(WaitSettled);
          case ReplyFails(timedOut) => HandleTurnError(timedOut);
        }
      case WaitEvents(fence) =>
        if eventChain.handled >= fence {
          MoveTo(WaitUpdates(fence, |updateChain.all|));
        }
      case WaitUpdates(fence, until) =>
        if |updateChain.all| - |updateChain.queue| < until {
          return;
        }
        if updateChain.failed || fatal {
          HandleTurnError(false);
          return;
        }
        Respond(if t.cancelled then Cancelled else EndTurn(fence, false));
      case WaitSettled =>
        match t.settled {
          case Pending =>
          case BySignal(aborted, fence) =>
            if t.cancelled || aborted {
              Respond(Cancelled);
            } else if t.error {
              Respond(Failed);
            } else {
              Respond(EndTurn(fence, true));
            }
          case ByAbort => Respond(Cancelled);
          case Rejected => HandleTurnError(false);
        }
      case Raised(timedOut) => HandleTurnError(timedOut);
      case Stopping => Respond(Failed);
    }

    method ChildReplied(reply: Reply)
      modifies this
      ensures Now() == old(Now()).(prompts := ChildReplies(old(Prompts()), reply))
    {
      if turn.Some? && turn.value.point == Asking {
        MoveTo(Replied(reply));
      }
    }

    method CancelActive()
      modifies this
      ensures Now() == old(Now()).(prompts := Cancel(old(Prompts())))
    {
      if turn.Some? && turn.value.attached {
        turn := Some(turn.value.(cancelled := true));
      }
    }

    method SetTurnError(error: bool)
      modifies this
      ensures Now() == old(Now()).(prompts := TurnError(old(Prompts()), error))
    {
      if turn.Some? && turn.value.attached {
        turn := Some(turn.value.(error := error));
      }
    }

    method CloseSession()
      modifies this
      ensures Now() == Close(old(Now()))
    {
      if closed {
        return;
      }
      closed := true;
      CancelActive();
      SettleActive(ByAbort);
    }

    method HandleFatal()
      modifies this
      ensures Now() == Fatal(old(Now()))
    {
      fatal := true;
      if turn.None? {
        return;
      }
      if closed || turn.value.cancelled {
        SettleActive(ByAbort);
      } else {
        SettleActive(Rejected);
      }
    }

    method EnqueueEvent(event: ChildEvent)
      modifies this
      ensures Now() == old(Now()).(events := old(eventChain).(all := old(eventChain).all + [event]))
    {
      eventChain := eventChain.(all := eventChain.all + [event]);
    }

    method StartEvent(plan: seq<Update>)
      modifies this
      ensures Now() == old(Now()).(events := BeginEvent(old(eventChain), plan))
    {
      if eventChain.handling.Some? || eventChain.handled >= |eventChain.all| {
        return;
      }
      if eventChain.all[eventChain.handled].AgentSettled? && plan != [] {
        return;
      }
      eventChain := eventChain.(plans := eventChain.plans + [plan], handling := Some(Handling(0, false)));
    }

    method HandleEvent()
      requires Handles(eventChain)
      modifies this
      ensures Now() == ContinueEvent(old(Now()))
    {
      if eventChain.handling.None? || eventChain.handling.value.awaiting {
        return;
      }
      var event := eventChain.all[eventChain.handled];
      var plan := eventChain.plans[eventChain.handled];
      var sent := eventChain.handling.value.sent;
      if sent < |plan| {
        eventChain := eventChain.(handling := Some(Handling(sent, true)));
        EnqueueUpdate(FromEvent, plan[sent]);
        return;
      }
      var fence := eventChain.handled;
      eventChain := eventChain.(handled := fence + 1, handling := None);
      if event.AgentSettled? {
        SettleActive(BySignal(event.aborted, fence));
      }
    }

    method EnqueueUpdate(origin: Origin, update: Update)
      modifies this
      ensures Now() == old(Now()).(updates := Enqueue(old(updateChain), origin, update))
    {
      var queued := Queued(origin, update);
      updateChain := updateChain.(all := updateChain.all + [queued], queue := updateChain.queue + [queued]);
    }

    method UpdateTaken(origin: Origin)
      modifies this
      ensures Now() == Fulfil(old(Now()), origin)
    {
      if origin == FromEvent && eventChain.handling.Some? {
        eventChain := eventChain.(handling := Some(Handling(eventChain.handling.value.sent + 1, false)));
      } else if origin == FromTurn && turn.Some? && turn.value.point.Echoing? {
        MoveTo(Ready(turn.value.point.rest));
      }
    }

    method UpdateRefused(origin: Origin)
      modifies this
      ensures Now() == Reject(old(Now()), origin)
    {
      if origin == FromEvent && eventChain.handling.Some? {
        eventChain := eventChain.(handled := eventChain.handled + 1, handling := None);
      } else if origin == FromTurn && turn.Some? && turn.value.point.Echoing? {
        MoveTo(Raised(false));
      }
    }

    /** The next update of the chain; after a failed one, no further update is given to the client. */
    method DeliverNext(ok: bool)
      modifies this
      ensures Now() == Deliver(old(Now()), ok)
    {
      hide Fulfil, Reject, Fatal;
      if updateChain.queue == [] {
        return;
      }
      var head := updateChain.queue[0];
      updateChain := updateChain.(queue := updateChain.queue[1..]);
      if updateChain.failed {
        UpdateRefused(head.origin);
        return;
      }
      if ok {
        updateChain := updateChain.(delivered := updateChain.delivered + [head]);
        UpdateTaken(head.origin);
        return;
      }
      updateChain := updateChain.(failed := true);
      HandleFatal();
      UpdateRefused(head.origin);
    }

    /** One segment between two awaits, whichever continuation or caller comes next. */
    method Take(step: Step)
      requires Handles(eventChain)
      modifies this
      ensures Handles(eventChain) && Now() == Next(old(Now()), step)
      ensures old(Laws.Sound(Now())) ==> Laws.Sound(Now())
    {
      hide Laws.Sound, RunPrompt, Advance, Close, Fatal, ContinueEvent, Deliver, BeginEvent, Settle, Handles, Cancel,
           ChildReplies, Enqueue;
      ghost var s := Now();
      NextHandles(s, step);
      match step {
        case SPrompt(prompt) => Prompt(prompt);
        case SRunPrompt => StartNextPrompt();
        case SAdvance => ResumeTurn();
        case SReply(reply) => ChildReplied(reply);
        case SCancel => CancelActive();
        case SAbortFailed => SettleActive(ByAbort);
        case SClose => CloseSession();
        case SFatal => HandleFatal();
        case SChild(event) => EnqueueEvent(event);
        case SBeginEvent(plan) => StartEvent(plan);
        case SContinueEvent => HandleEvent();
        case STurnError(error) => SetTurnError(error);
        case SUpdate(update) => EnqueueUpdate(FromOther, update);
        case SDeliver(ok) => DeliverNext(ok);
      }
      if Laws.Sound(s) {
        Laws.NextKeeps(s, step);
      }
    }

    /**
     * Any segments, in any order, from a new session: prompts are answered in their order and at most
     * one runs, the client takes the updates in queue order and none after a failed one, and every
     * `end_turn` comes after the delivery of all updates of the events before what ended the turn.
     */
    method Serve(steps: seq<Step>)
      requires Now() == OPENED
      modifies this
      ensures Now() == Run(steps)
      ensures Laws.InOrder(Prompts()) && Laws.Logged(updateChain)
      ensures forall i :: 0 <= i < |answers| && answers[i].1.EndTurn? ==>
        Laws.EndsAt(answers[i].1, eventChain, updateChain)
    {
      hide Laws.Sound, Laws.InOrder, Laws.Logged, Laws.EndsAt, Handles, Next;
      assert Handles(eventChain) by { OpenedHandles(); }
      var i := 0;
      while i < |steps|
        invariant 0 <= i <= |steps|
        invariant Handles(eventChain) && Now() == Run(steps[..i])
      {
        assert steps[..i + 1][..i] == steps[..i];
        Take(steps[i]);
        i := i + 1;
      }
      assert steps[..i] == steps;
      Laws.RunKeeps(steps);
      Laws.SoundMeans(Now());
    }
  }
}
