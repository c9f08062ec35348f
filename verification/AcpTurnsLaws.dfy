// What every run of an ACP session keeps: one turn at a time in request order, updates in queue
// order, a sound end of turn, and cancellation that is always honoured.
module AcpTurnsLaws {
  import opened JsMap
  import opened AcpTurns

  // ---------- The three chains ----------

  /** Prompts are answered in the order they came, each once, and only the one after them runs. */
  predicate InOrder(p: Prompts)
  {
    && (forall i :: 0 <= i < |p.answers| ==> p.answers[i].0 == i)
    && |p.answers| + (if p.turn.Some? then 1 else 0) == p.started <= |p.all|
    && (p.turn.Some? ==> p.turn.value.number == |p.answers|)
  }

  /** Updates reach the client in the order they were queued, none is skipped, and none follows a failure. */
  predicate Logged(u: Updates)
  {
    && u.delivered <= u.all && |u.queue| <= |u.all|
    && (!u.failed ==> u.all == u.delivered + u.queue)
  }

  function FromEvents(log: seq<Queued>): seq<Update>
  {
    if log == [] then []
    else FromEvents(log[..|log| - 1]) + (if log[|log| - 1].origin.FromEvent? then [log[|log| - 1].update] else [])
  }

  function Flatten(plans: seq<seq<Update>>): seq<Update>
  {
    if plans == [] then [] else Flatten(plans[..|plans| - 1]) + plans[|plans| - 1]
  }

  /** What the events handled so far, and the one being handled, have had delivered. */
  function Sent(e: Events): seq<Update>
    requires Handles(e)
    requires e.handling.Some? ==> e.handling.value.sent <= |e.plans[e.handled]|
  {
    Flatten(e.plans[..e.handled]) + (if e.handling.Some? then e.plans[e.handled][..e.handling.value.sent] else [])
  }

  function Awaited(e: Events): seq<Update>
    requires Handles(e)
  {
    if e.handling.Some? && e.handling.value.awaiting && e.handling.value.sent < |e.plans[e.handled]|
    then [e.plans[e.handled][e.handling.value.sent]] else []
  }

  predicate SoundEvents(e: Events)
  {
    && Handles(e)
    && (forall i :: 0 <= i < |e.plans| && e.all[i].AgentSettled? ==> e.plans[i] == [])
    && (e.handling.Some? ==> e.handling.value.sent + (if e.handling.value.awaiting then 1 else 0) <= |e.plans[e.handled]|)
  }

  /** The event chain has at most one update in the update chain, and loses none before a failure. */
  predicate Streamed(e: Events, u: Updates)
    requires SoundEvents(e)
  {
    FromEvents(u.queue) == Awaited(e) && (!u.failed ==> FromEvents(u.delivered) == Sent(e))
  }

  // ---------- The turn ----------

  /** Every update of the first `fence` events was delivered, in order and before anything else they sent. */
  predicate Done(e: Events, u: Updates, fence: nat)
  {
    fence <= e.handled <= |e.plans| && Flatten(e.plans[..fence]) <= FromEvents(u.delivered)
  }

  predicate JustifiedBy(settled: Settlement, e: Events, u: Updates)
  {
    settled.BySignal? ==>
      Done(e, u, settled.fence) && settled.fence < |e.all| && e.all[settled.fence] == AgentSettled(settled.aborted)
  }

  predicate JustifiedAt(point: Point, e: Events)
  {
    match point
    case WaitEvents(fence) => fence <= |e.all|
    case WaitUpdates(fence, _) => fence <= e.handled
    case _ => true
  }

  /** A turn ended by a signal was ended by the child's own, not aborted, settle event. */
  predicate EndsAt(answer: Answer, e: Events, u: Updates)
    requires answer.EndTurn?
  {
    && Done(e, u, answer.fence)
    && (answer.signalled ==> answer.fence < |e.all| && e.all[answer.fence] == AgentSettled(false))
  }

  predicate Justified(p: Prompts, e: Events, u: Updates)
  {
    && (p.turn.Some? ==> JustifiedBy(p.turn.value.settled, e, u) && JustifiedAt(p.turn.value.point, e))
    && (forall i :: 0 <= i < |p.answers| && p.answers[i].1.EndTurn? ==> EndsAt(p.answers[i].1, e, u))
  }

  /** A failure is fatal and leaves no active turn unsettled; a turn that stops the child is no longer active. */
  predicate Fenced(s: Session)
  {
    && (Active(s.prompts) ==> !s.prompts.turn.value.point.Stopping?)
    && (s.updates.failed ==> s.fatal)
    && (Active(s.prompts) && s.prompts.turn.value.settled.Pending? ==> !s.fatal)
  }

  predicate Sound(s: Session)
  {
    && InOrder(s.prompts) && Logged(s.updates) && SoundEvents(s.events) && Streamed(s.events, s.updates)
    && Fenced(s) && Justified(s.prompts, s.events, s.updates)
  }

  // ---------- Logs ----------

  lemma {:induction false} FromEventsAppend(a: seq<Queued>, b: seq<Queued>)
    ensures FromEvents(a + b) == FromEvents(a) + FromEvents(b)
    decreases |b|
  {
    if b == [] {
      assert a + b == a;
    } else {
      assert (a + b)[..|a + b| - 1] == a + b[..|b| - 1];
      FromEventsAppend(a, b[..|b| - 1]);
    }
  }

  lemma FromEventsHead(q: seq<Queued>)
    requires q != []
    ensures FromEvents(q) == (if q[0].origin.FromEvent? then [q[0].update] else []) + FromEvents(q[1..])
  {
    assert q == [q[0]] + q[1..] && [q[0]][..0] == [];
    FromEventsAppend([q[0]], q[1..]);
  }

  lemma FromEventsLast(q: seq<Queued>, x: Queued)
    ensures FromEvents(q + [x]) == FromEvents(q) + (if x.origin.FromEvent? then [x.update] else [])
  {
    assert (q + [x])[..|q|] == q;
  }

  lemma {:induction false} FlattenPrefix(plans: seq<seq<Update>>, n: nat)
    requires n <= |plans|
    ensures Flatten(plans[..n]) <= Flatten(plans)
    decreases |plans|
  {
    if n < |plans| {
      assert plans[..|plans| - 1][..n] == plans[..n];
      FlattenPrefix(plans[..|plans| - 1], n);
    } else {
      assert plans[..n] == plans;
    }
  }

  lemma FlattenLast(plans: seq<seq<Update>>, n: nat)
    requires n < |plans|
    ensures Flatten(plans[..n + 1]) == Flatten(plans[..n]) + plans[n]
  {
    assert plans[..n + 1][..n] == plans[..n];
  }

  lemma FromEventsGrows(a: seq<Queued>, b: seq<Queued>)
    requires a <= b
    ensures FromEvents(a) <= FromEvents(b)
  {
    assert b == a + b[|a|..];
    FromEventsAppend(a, b[|a|..]);
  }

  /** The run of events and deliveries went on from here. */
  predicate Later(e: Events, u: Updates, e': Events, u': Updates)
  {
    && e.all <= e'.all && e.plans <= e'.plans && e.handled <= e'.handled <= |e'.plans|
    && u.delivered <= u'.delivered
  }

  lemma DoneStays(e: Events, u: Updates, e': Events, u': Updates, fence: nat)
    requires Done(e, u, fence) && Later(e, u, e', u')
    ensures Done(e', u', fence)
  {
    assert e'.plans[..fence] == e.plans[..fence];
    FromEventsGrows(u.delivered, u'.delivered);
  }

  lemma JustifiedStays(p: Prompts, e: Events, u: Updates, e': Events, u': Updates)
    requires Justified(p, e, u) && Later(e, u, e', u')
    ensures Justified(p, e', u')
  {
    hide Done;
    if p.turn.Some? && p.turn.value.settled.BySignal? {
      DoneStays(e, u, e', u', p.turn.value.settled.fence);
    }
    forall i | 0 <= i < |p.answers| && p.answers[i].1.EndTurn?
      ensures EndsAt(p.answers[i].1, e', u')
    {
      DoneStays(e, u, e', u', p.answers[i].1.fence);
    }
  }

  /** Up to a failure, whatever was handled was delivered. */
  lemma HandledIsDone(e: Events, u: Updates, fence: nat)
    requires SoundEvents(e) && Streamed(e, u) && !u.failed && fence <= e.handled
    ensures Done(e, u, fence)
  {
    assert e.plans[..e.handled][..fence] == e.plans[..fence];
    FlattenPrefix(e.plans[..e.handled], fence);
  }

  // ---------- Steps of the turn ----------

  lemma SettleKeeps(s: Session, settlement: Settlement)
    requires Sound(s) && !settlement.Pending?
    requires Active(s.prompts) && s.prompts.turn.value.settled.Pending? ==> JustifiedBy(settlement, s.events, s.updates)
    ensures Sound(s.(prompts := Settle(s.prompts, settlement)))
  {
    hide Streamed, Logged, SoundEvents, JustifiedBy, Done;
  }

  lemma CancelKeeps(s: Session)
    requires Sound(s)
    ensures Sound(s.(prompts := Cancel(s.prompts)))
  {
    hide Streamed, Logged, SoundEvents, JustifiedBy, Done;
  }

  lemma CloseKeeps(s: Session)
    requires Sound(s)
    ensures Sound(Close(s))
  {
    hide Sound, Cancel, Settle;
    if !s.closed {
      CancelKeeps(s);
      var cancelled := s.(prompts := Cancel(s.prompts));
      SettleKeeps(cancelled, ByAbort);
      var settled := cancelled.(prompts := Settle(cancelled.prompts, ByAbort));
      assert Sound(settled.(closed := true)) by { ClosedKeeps(settled); }
      assert Close(s) == settled.(closed := true);
    }
  }

  lemma ClosedKeeps(s: Session)
    requires Sound(s)
    ensures Sound(s.(closed := true))
  {
  }

  lemma FatalKeeps(s: Session)
    requires Sound(s)
    ensures Sound(Fatal(s))
  {
    hide Streamed, Logged, SoundEvents, Done;
  }

  lemma RunPromptKeeps(s: Session)
    requires Sound(s)
    ensures Sound(RunPrompt(s))
  {
    hide Streamed, Logged, SoundEvents, Done;
    assert RunPrompt(s).events == s.events && RunPrompt(s).updates == s.updates;
  }

  lemma GiveKeeps(s: Session, answer: Answer)
    requires Sound(s) && s.prompts.turn.Some?
    requires answer.EndTurn? ==> EndsAt(answer, s.events, s.updates)
    ensures Sound(s.(prompts := Give(s.prompts, answer)))
  {
    hide Streamed, Logged, SoundEvents, JustifiedBy, Done;
  }

  lemma CatchKeeps(s: Session, timedOut: bool)
    requires Sound(s) && s.prompts.turn.Some?
    ensures Sound(Catch(s, timedOut))
  {
    hide Streamed, Logged, SoundEvents, JustifiedBy, Done;
    if s.prompts.turn.value.cancelled || s.closed {
      GiveKeeps(s, Cancelled);
    } else if !s.updates.failed && !timedOut {
      GiveKeeps(s, Failed);
    }
  }

  lemma AtKeeps(s: Session, point: Point)
    requires Sound(s) && s.prompts.turn.Some? && JustifiedAt(point, s.events) && !point.Stopping?
    ensures Sound(s.(prompts := At(s.prompts, point)))
  {
    hide Streamed, Logged, SoundEvents, JustifiedBy, Done;
  }

  lemma EnqueueKeeps(s: Session, origin: Origin, update: Update)
    requires Sound(s) && !origin.FromEvent?
    ensures Sound(s.(updates := Enqueue(s.updates, origin, update)))
  {
    hide Sent, Awaited, FromEvents;
    FromEventsLast(s.updates.queue, Queued(origin, update));
    JustifiedStays(s.prompts, s.events, s.updates, s.events, Enqueue(s.updates, origin, update));
  }

  lemma AdvanceKeeps(s: Session)
    requires Sound(s)
    ensures Sound(Advance(s))
  {
    hide Sound, InOrder, Logged, SoundEvents, Streamed, Fenced, Justified, JustifiedAt, EndsAt, Give, At, Catch, Enqueue;
    if s.prompts.turn.Some? {
      var t := s.prompts.turn.value;
      match t.point
      case Ready(rest) =>
        if rest != [] {
          ReadyKeeps(s);
        } else if t.cancelled {
          GiveKeeps(s, Cancelled);
        } else {
          PlainPoint(Asking, s.events);
          AtKeeps(s, Asking);
        }
      case Echoing(_) =>
      case Asking =>
      case Replied(reply) =>
        match reply {
          case Handled =>
            FencePoint(s.events);
            AtKeeps(s, WaitEvents(|s.events.all|));
          case Started =>
            PlainPoint(WaitSettled, s.events);
            AtKeeps(s, WaitSettled);
          case ReplyFails(timedOut) => CatchKeeps(s, timedOut);
        }
      case WaitEvents(fence) =>
        if s.events.handled >= fence {
          HandledPoint(s.events, fence, |s.updates.all|);
          AtKeeps(s, WaitUpdates(fence, |s.updates.all|));
        }
      case WaitUpdates(fence, until) => UpdatesKeep(s);
      case WaitSettled =>
        match t.settled {
          case Pending =>
          case BySignal(aborted, fence) =>
            if !aborted {
              SignalIsDone(s);
            }
            GiveKeeps(s, EndBySignal(t, aborted, fence));
          case ByAbort => GiveKeeps(s, Cancelled);
          case Rejected => CatchKeeps(s, false);
        }
      case Raised(timedOut) => CatchKeeps(s, timedOut);
      case Stopping => GiveKeeps(s, Failed);
    }
  }

  lemma PlainPoint(point: Point, e: Events)
    requires !point.WaitEvents? && !point.WaitUpdates?
    ensures JustifiedAt(point, e)
  {
  }

  lemma FencePoint(e: Events)
    ensures JustifiedAt(WaitEvents(|e.all|), e)
  {
  }

  lemma HandledPoint(e: Events, fence: nat, until: nat)
    requires fence <= e.handled
    ensures JustifiedAt(WaitUpdates(fence, until), e)
  {
  }

  lemma SignalIsDone(s: Session)
    requires Sound(s) && s.prompts.turn.Some? && s.prompts.turn.value.settled.BySignal?
    requires !s.prompts.turn.value.settled.aborted
    ensures EndsAt(EndTurn(s.prompts.turn.value.settled.fence, true), s.events, s.updates)
  {
    hide InOrder, Logged, SoundEvents, Streamed, Fenced, Done;
  }

  lemma ReadyKeeps(s: Session)
    requires Sound(s) && s.prompts.turn.Some? && s.prompts.turn.value.point.Ready?
    requires s.prompts.turn.value.point.rest != []
    ensures Sound(Advance(s))
  {
    hide Sound, InOrder, Logged, SoundEvents, Streamed, Fenced, Justified, Done, At, Enqueue;
    var rest := s.prompts.turn.value.point.rest;
    AtKeeps(s, Echoing(rest[1..]));
    EnqueueKeeps(s.(prompts := At(s.prompts, Echoing(rest[1..]))), FromTurn, rest[0]);
  }

  lemma UpdatesKeep(s: Session)
    requires Sound(s) && s.prompts.turn.Some? && s.prompts.turn.value.point.WaitUpdates?
    ensures Sound(Advance(s))
  {
    hide InOrder, Logged, SoundEvents, Streamed, Fenced, JustifiedBy, Done, Give, Catch;
    var t := s.prompts.turn.value;
    CatchKeeps(s, false);
    GiveKeeps(s, Cancelled);
    if !s.updates.failed {
      HandledIsDone(s.events, s.updates, t.point.fence);
      GiveKeeps(s, EndTurn(t.point.fence, false));
    }
  }

  // ---------- Steps of the event chain ----------

  lemma ChildKeeps(s: Session, event: ChildEvent)
    requires Sound(s)
    ensures Sound(s.(events := s.events.(all := s.events.all + [event])))
  {
    hide Logged, Done, FromEvents, Flatten;
    var later := s.events.(all := s.events.all + [event]);
    assert Sent(later) == Sent(s.events) && Awaited(later) == Awaited(s.events);
    JustifiedStays(s.prompts, s.events, s.updates, later, s.updates);
  }

  lemma BeginEventKeeps(s: Session, plan: seq<Update>)
    requires Sound(s)
    ensures Sound(s.(events := BeginEvent(s.events, plan)))
  {
    hide Logged, Done, FromEvents, Flatten;
    var later := BeginEvent(s.events, plan);
    if later != s.events {
      assert later.plans[..s.events.handled] == s.events.plans[..s.events.handled];
      JustifiedStays(s.prompts, s.events, s.updates, later, s.updates);
    }
  }

  lemma SendKeeps(s: Session)
    requires Sound(s) && s.events.handling.Some? && !s.events.handling.value.awaiting
    requires s.events.handling.value.sent < |s.events.plans[s.events.handled]|
    ensures Sound(ContinueEvent(s))
  {
    hide Done, FromEvents, Flatten;
    var after := ContinueEvent(s);
    FromEventsLast(s.updates.queue, after.updates.queue[|s.updates.queue|]);
    JustifiedStays(s.prompts, s.events, s.updates, after.events, after.updates);
  }

  lemma EventDoneKeeps(s: Session)
    requires Sound(s) && s.events.handling.Some? && !s.events.handling.value.awaiting
    requires s.events.handling.value.sent == |s.events.plans[s.events.handled]|
    ensures Sound(s.(events := EventDone(s.events)))
  {
    hide Done, FromEvents, Flatten;
    var later := EventDone(s.events);
    FlattenLast(s.events.plans, s.events.handled);
    JustifiedStays(s.prompts, s.events, s.updates, later, s.updates);
  }

  lemma ContinueEventKeeps(s: Session)
    requires Sound(s)
    ensures Sound(ContinueEvent(s))
  {
    hide InOrder, Logged, Streamed, Justified, Done, Settle, Flatten;
    var e := s.events;
    if e.handling.Some? && !e.handling.value.awaiting {
      if e.handling.value.sent < |e.plans[e.handled]| {
        SendKeeps(s);
      } else {
        EventDoneKeeps(s);
        var done := s.(events := EventDone(e));
        if e.all[e.handled].AgentSettled? {
          if Active(s.prompts) && s.prompts.turn.value.settled.Pending? {
            HandledIsDone(done.events, done.updates, e.handled);
          }
          SettleKeeps(done, BySignal(e.all[e.handled].aborted, e.handled));
        }
      }
    }
  }

  // ---------- Steps of the update chain ----------

  lemma DeliveredKeeps(s: Session)
    requires Sound(s) && s.updates.queue != [] && !s.updates.failed
    ensures Sound(Deliver(s, true))
  {
    hide Done, FromEvents, Flatten, Justified, Fenced;
    var u := s.updates;
    var after := Deliver(s, true);
    FromEventsHead(u.queue);
    FromEventsLast(u.delivered, u.queue[0]);
    if u.queue[0].origin.FromEvent? {
      DeliveredStreams(s.events, u);
    }
    assert Logged(after.updates) && SoundEvents(after.events) && Streamed(after.events, after.updates);
    JustifiedStays(s.prompts, s.events, s.updates, after.events, after.updates);
    DeliveredTurn(s);
  }

  lemma DeliveredStreams(e: Events, u: Updates)
    requires SoundEvents(e) && Streamed(e, u) && u.queue != [] && !u.failed && u.queue[0].origin.FromEvent?
    ensures e.handling.Some?
    ensures var later := e.(handling := Some(Handling(e.handling.value.sent + 1, false)));
            var taken := u.(queue := u.queue[1..], delivered := u.delivered + [u.queue[0]]);
      SoundEvents(later) && Streamed(later, taken)
  {
    hide FromEvents, Flatten;
    FromEventsHead(u.queue);
    FromEventsLast(u.delivered, u.queue[0]);
    assert |Awaited(e)| == 1 && Awaited(e)[0] == u.queue[0].update;
    assert FromEvents(u.queue[1..]) == [];
    var plan, sent := e.plans[e.handled], e.handling.value.sent;
    assert plan[..sent + 1] == plan[..sent] + [plan[sent]];
    var later := e.(handling := Some(Handling(sent + 1, false)));
    assert Sent(later) == Sent(e) + [plan[sent]];
  }

  /** A delivered update moves at most the point of the turn, and not to one that needs a justification. */
  lemma DeliveredTurn(s: Session)
    requires s.updates.queue != [] && !s.updates.failed && InOrder(s.prompts) && Fenced(s)
    ensures InOrder(Deliver(s, true).prompts) && Fenced(Deliver(s, true))
    ensures forall e, u :: Justified(s.prompts, e, u) ==> Justified(Deliver(s, true).prompts, e, u)
  {
    hide EndsAt, JustifiedBy;
  }

  /** Dropping the head of the chain and rejecting what awaited it. */
  lemma RejectKeeps(s: Session)
    requires Sound(s) && s.updates.queue != [] && s.updates.failed
    ensures Sound(Reject(s.(updates := s.updates.(queue := s.updates.queue[1..])), s.updates.queue[0].origin))
  {
    hide Done, FromEvents, Flatten;
    var after := Reject(s.(updates := s.updates.(queue := s.updates.queue[1..])), s.updates.queue[0].origin);
    FromEventsHead(s.updates.queue);
    JustifiedStays(s.prompts, s.events, s.updates, after.events, after.updates);
  }

  lemma FailKeeps(s: Session)
    requires Sound(s) && !s.updates.failed
    ensures Sound(Fatal(s.(updates := s.updates.(failed := true))))
  {
    hide Done, FromEvents, Flatten, SoundEvents;
    var failed := s.updates.(failed := true);
    FatalKeeps(s);
    assert Fatal(s.(updates := failed)) == Fatal(s).(updates := failed);
    HandlesSound(s.events);
    JustifiedStays(Fatal(s).prompts, s.events, s.updates, s.events, failed);
  }

  lemma HandlesSound(e: Events)
    requires SoundEvents(e)
    ensures Handles(e)
  {
  }

  lemma DeliverKeeps(s: Session, ok: bool)
    requires Sound(s)
    ensures Sound(Deliver(s, ok))
  {
    hide Sound, Fulfil, Reject, Fatal;
    var u := s.updates;
    if u.queue != [] {
      if u.failed {
        RejectKeeps(s);
      } else if ok {
        DeliveredKeeps(s);
      } else {
        FailKeeps(s);
        var failed := Fatal(s.(updates := u.(failed := true)));
        FatalDrops(s.(updates := u.(failed := true)), u.queue[1..]);
        RejectKeeps(failed);
      }
    }
  }

  lemma FatalDrops(s: Session, queue: seq<Queued>)
    ensures Fatal(s).updates == s.updates
    ensures Fatal(s.(updates := s.updates.(queue := queue))) == Fatal(s).(updates := s.updates.(queue := queue))
  {
  }

  // ---------- Every run ----------

  lemma NextKeeps(s: Session, step: Step)
    requires Sound(s)
    ensures Sound(Next(s, step))
  {
    hide InOrder, Logged, SoundEvents, Streamed, Fenced, Justified, RunPrompt, Advance, Cancel, Settle, Close, Fatal,
         BeginEvent, ContinueEvent, Enqueue, Deliver, ChildReplies, TurnError;
    match step
    case SPrompt(prompt) => PromptKeeps(s, prompt);
    case SRunPrompt => RunPromptKeeps(s);
    case SAdvance => AdvanceKeeps(s);
    case SReply(reply) => ReplyKeeps(s, reply);
    case SCancel => CancelKeeps(s);
    case SAbortFailed => AbortKeeps(s);
    case SClose => CloseKeeps(s);
    case SFatal => FatalKeeps(s);
    case SChild(event) => ChildKeeps(s, event);
    case SBeginEvent(plan) => BeginEventKeeps(s, plan);
    case SContinueEvent => ContinueEventKeeps(s);
    case STurnError(error) => ErrorKeeps(s, error);
    case SUpdate(update) => EnqueueKeeps(s, FromOther, update);
    case SDeliver(ok) => DeliverKeeps(s, ok);
  }

  lemma PromptKeeps(s: Session, prompt: Prompt)
    requires Sound(s)
    ensures Sound(s.(prompts := s.prompts.(all := s.prompts.all + [prompt])))
  {
    hide Logged, SoundEvents, Streamed, Done;
  }

  lemma ReplyKeeps(s: Session, reply: Reply)
    requires Sound(s)
    ensures Sound(s.(prompts := ChildReplies(s.prompts, reply)))
  {
    hide Sound, At;
    if s.prompts.turn.Some? && s.prompts.turn.value.point.Asking? {
      PlainPoint(Replied(reply), s.events);
      AtKeeps(s, Replied(reply));
    }
  }

  lemma AbortKeeps(s: Session)
    requires Sound(s)
    ensures Sound(s.(prompts := Settle(s.prompts, ByAbort)))
  {
    hide Sound, Settle;
    SettleKeeps(s, ByAbort);
  }

  lemma ErrorKeeps(s: Session, error: bool)
    requires Sound(s)
    ensures Sound(s.(prompts := TurnError(s.prompts, error)))
  {
    hide Logged, SoundEvents, Streamed, Done, JustifiedBy;
  }

  lemma {:induction false} RunKeeps(steps: seq<Step>)
    ensures Sound(Run(steps))
  {
    hide Next;
    if steps == [] {
      OpenedIsSound();
    } else {
      RunKeeps(steps[..|steps| - 1]);
      NextKeeps(Run(steps[..|steps| - 1]), steps[|steps| - 1]);
    }
  }

  lemma OpenedIsSound()
    ensures Sound(OPENED)
  {
  }

  lemma SoundMeans(s: Session)
    requires Sound(s)
    ensures InOrder(s.prompts) && Logged(s.updates)
    ensures forall i :: 0 <= i < |s.prompts.answers| && s.prompts.answers[i].1.EndTurn? ==>
      EndsAt(s.prompts.answers[i].1, s.events, s.updates)
  {
    hide InOrder, Logged, Streamed, EndsAt;
  }

  /** Over every run, prompt `i` is the `i`th answered, and only the next one can be active. */
  lemma {:induction false} OneTurnAtATime(steps: seq<Step>)
    ensures InOrder(Run(steps).prompts)
  {
    hide InOrder, Run;
    RunKeeps(steps);
  }

  /** Over every run, the client takes updates in queue order, all of them until one fails and none after. */
  lemma {:induction false} UpdatesInOrder(steps: seq<Step>)
    ensures Logged(Run(steps).updates)
  {
    hide Logged, Run;
    RunKeeps(steps);
  }

  /**
   * Over every run, a prompt that answers `end_turn` on a signal was settled by a child event that does
   * not report an abort, and every update of the events queued before what ended it was delivered, in
   * order and before any later event's.
   */
  lemma {:induction false} EndTurnIsComplete(steps: seq<Step>, i: nat)
    requires i < |Run(steps).prompts.answers| && Run(steps).prompts.answers[i].1.EndTurn?
    ensures var s := Run(steps);
      var fence := s.prompts.answers[i].1.fence;
      && fence <= |s.events.plans| && Flatten(s.events.plans[..fence]) <= FromEvents(s.updates.delivered)
      && (s.prompts.answers[i].1.signalled ==>
            fence < |s.events.all| && s.events.all[fence] == AgentSettled(false))
  {
    hide Run, Flatten, FromEvents;
    RunKeeps(steps);
  }

  // ---------- Cancellation ----------

  /** Turn `n` is active and cancelled, or already answered `cancelled`. */
  predicate CancelStands(p: Prompts, n: nat)
  {
    || (Active(p) && p.turn.value.number == n && p.turn.value.cancelled)
    || (n < |p.answers| && p.answers[n].1 == Cancelled)
  }

  lemma CancelStandsAdvance(s: Session, n: nat)
    requires InOrder(s.prompts) && Fenced(s) && CancelStands(s.prompts, n)
    ensures CancelStands(Advance(s).prompts, n)
  {
    hide Enqueue;
  }

  lemma CancelStandsNext(s: Session, step: Step, n: nat)
    requires Sound(s) && CancelStands(s.prompts, n)
    ensures CancelStands(Next(s, step).prompts, n)
  {
    hide Logged, SoundEvents, Streamed, Justified, Advance;
    if step.SAdvance? {
      CancelStandsAdvance(s, n);
    }
  }

  lemma {:induction false} CancelStandsRun(steps: seq<Step>, more: seq<Step>, n: nat)
    requires CancelStands(Run(steps).prompts, n)
    ensures CancelStands(Run(steps + more).prompts, n)
    decreases |more|
  {
    hide Next, CancelStands;
    if more == [] {
      assert steps + more == steps;
    } else {
      var front := more[..|more| - 1];
      assert (steps + more)[..|steps + more| - 1] == steps + front;
      CancelStandsRun(steps, front, n);
      RunKeeps(steps + front);
      CancelStandsNext(Run(steps + front), more[|more| - 1], n);
    }
  }

  /**
   * A prompt cancelled, or whose session is closed, while it is active answers `cancelled`, whatever
   * happens before and after.
   */
  lemma {:induction false} CancelIsHonoured(steps: seq<Step>, cancel: Step, more: seq<Step>)
    requires Active(Run(steps).prompts)
    requires cancel.SCancel? || (cancel.SClose? && !Run(steps).closed)
    ensures var n := Run(steps).prompts.turn.value.number;
            var answers := Run(steps + [cancel] + more).prompts.answers;
      n < |answers| ==> answers[n] == (n, Cancelled)
  {
    var n := Run(steps).prompts.turn.value.number;
    assert (steps + [cancel])[..|steps|] == steps;
    CancelStandsRun(steps + [cancel], more, n);
    hide Next;
    RunKeeps(steps + [cancel] + more);
  }

  /** No part of the step cancels a prompt. */
  predicate CancelsNothing(step: Step)
  {
    && !step.SCancel? && !step.SClose? && !step.SAbortFailed?
    && (step.SChild? ==> step.event != AgentSettled(true))
    && (step.SPrompt? ==> !step.prompt.aborted)
  }

  predicate Uncancelled(s: Session)
  {
    && !s.closed
    && (forall i :: 0 <= i < |s.prompts.all| ==> !s.prompts.all[i].aborted)
    && (forall i :: 0 <= i < |s.events.all| ==> s.events.all[i] != AgentSettled(true))
    && (forall i :: 0 <= i < |s.prompts.answers| ==> s.prompts.answers[i].1 != Cancelled)
    && (s.prompts.turn.Some? ==>
          && !s.prompts.turn.value.cancelled && !s.prompts.turn.value.settled.ByAbort?
          && (s.prompts.turn.value.settled.BySignal? ==> !s.prompts.turn.value.settled.aborted))
  }

  lemma UncancelledAdvance(s: Session)
    requires Uncancelled(s)
    ensures Uncancelled(Advance(s))
  {
    hide Enqueue;
  }

  lemma UncancelledRunPrompt(s: Session)
    requires Uncancelled(s)
    ensures Uncancelled(RunPrompt(s))
  {
  }

  lemma UncancelledEvents(s: Session, step: Step)
    requires Handles(s.events) && Uncancelled(s) && CancelsNothing(step)
    requires step.SChild? || step.SBeginEvent? || step.SContinueEvent?
    ensures Uncancelled(Next(s, step))
  {
    hide Advance, RunPrompt, Deliver, Enqueue;
  }

  lemma UncancelledFatal(s: Session)
    requires Uncancelled(s)
    ensures Uncancelled(Fatal(s))
  {
  }

  lemma UncancelledDeliver(s: Session, ok: bool)
    requires Uncancelled(s)
    ensures Uncancelled(Deliver(s, ok))
  {
    hide Fatal;
    if s.updates.queue != [] {
      UncancelledFatal(s.(updates := s.updates.(queue := s.updates.queue[1..], failed := true)));
    }
  }

  lemma UncancelledNext(s: Session, step: Step)
    requires Handles(s.events) && Uncancelled(s) && CancelsNothing(step)
    ensures Uncancelled(Next(s, step))
  {
    hide Advance, RunPrompt, Deliver, ContinueEvent, BeginEvent, Fatal;
    if step.SAdvance? {
      UncancelledAdvance(s);
    } else if step.SRunPrompt? {
      UncancelledRunPrompt(s);
    } else if step.SChild? || step.SBeginEvent? || step.SContinueEvent? {
      UncancelledEvents(s, step);
    } else if step.SFatal? {
      UncancelledFatal(s);
    } else if step.SDeliver? {
      UncancelledDeliver(s, step.ok);
    }
  }

  /** Only a cancellation, an abort or a close ever answers `cancelled`. */
  lemma {:induction false} OnlyCancelsCancel(steps: seq<Step>)
    requires forall i :: 0 <= i < |steps| ==> CancelsNothing(steps[i])
    ensures Uncancelled(Run(steps))
  {
    hide Next, Uncancelled, CancelsNothing;
    if steps == [] {
      assert Uncancelled(OPENED) by { OpenedIsUncancelled(); }
    } else {
      OnlyCancelsCancel(steps[..|steps| - 1]);
      UncancelledNext(Run(steps[..|steps| - 1]), steps[|steps| - 1]);
    }
  }

  lemma OpenedIsUncancelled()
    ensures Uncancelled(OPENED)
  {
  }
}
