/** Exchanges the server opens towards its client: registration and responses share one call queue. */
module ExchangeTable {
  import opened Outcomes
  import opened Messages
  import opened ServerPortal

  /** The task, its call queue, and what has happened: which ids were registered with which slot, every id
      any frame has carried so far, and the slots whose callers stopped waiting. */
  datatype Table = Table(
    task: TaskState,
    queue: seq<PortalCall>,
    registered: map<ExchangeId, Slot>,
    seen: set<ExchangeId>,
    gone: set<Slot>)

  const START := Table(FRESH, [], map[], {}, {})

  datatype Step =
    | Register(id: ExchangeId, slot: Slot)  // `Portal::exchange`: the registration enters the call queue
    | Inbound(frame: InletFrame)            // the relay queues a frame of the client, whatever it says
    | Outbound(out: OutletFrame)            // the muxer queues a frame for the client
    | GiveUp(slot: Slot)                    // a caller of `exchange` stops waiting
    | Handle                                // the task takes a call

  /** Ids are fresh: one that was in use before is not drawn again; and each registration makes its own
      channel. The client may answer with any id, once it has seen it or without. */
  predicate Enabled(t: Table, step: Step) {
    match step
    case Register(id, slot) => id !in t.seen && slot !in t.registered.Values
    case Inbound(_) => true
    case Outbound(_) => true
    case GiveUp(slot) => slot in t.registered.Values
    case Handle => t.task.alive && t.queue != []
  }

  /** Is there a caller left to hear the answer, if the call has one? */
  predicate Listening(t: Table, call: PortalCall) {
    call.FrameIn? && call.frame.InResponse? && call.frame.response.exchangeId in t.task.exchanges ==>
      t.task.exchanges[call.frame.response.exchangeId] !in t.gone
  }

  function Next(t: Table, step: Step): Table
    requires Enabled(t, step)
  {
    match step
    case Register(id, slot) =>
      t.(queue := t.queue + [Exchange(id, slot)], registered := t.registered[id := slot], seen := t.seen + {id})
    case Inbound(frame) =>
      t.(queue := t.queue + [FrameIn(frame)],
         seen := t.seen + if frame.InResponse? then {frame.response.exchangeId} else {})
    case Outbound(out) => t.(queue := t.queue + [FrameOut(out)])
    case GiveUp(slot) => t.(gone := t.gone + {slot})
    case Handle => t.(queue := t.queue[1..], task := After(t.task, t.queue[0], Listening(t, t.queue[0])))
  }

  function Run(steps: seq<Step>): Option<Table> {
    if steps == [] then Some(START)
    else
      match Run(steps[..|steps| - 1])
      case None => None
      case Some(t) =>
        var step := steps[|steps| - 1];
        if Enabled(t, step) then Some(Next(t, step)) else None
  }

  ghost predicate Reached(steps: seq<Step>, t: Table) { Run(steps) == Some(t) }

  predicate Answers(call: PortalCall, id: ExchangeId) {
    call.FrameIn? && call.frame.InResponse? && call.frame.response.exchangeId == id
  }

  /** The ids whose registration still waits in the call queue. */
  function Waiting(queue: seq<PortalCall>): set<ExchangeId> {
    set i | 0 <= i < |queue| && queue[i].Exchange? :: queue[i].id
  }

  function AnsweredIds(s: TaskState): set<ExchangeId> {
    set i | 0 <= i < |s.answered| :: s.answered[i].response.exchangeId
  }

  /** The call queue: registrations are known and distinct, and no response waits in front of the
      registration of its id. */
  ghost predicate QueueInv(t: Table) {
    && (forall i :: 0 <= i < |t.queue| && t.queue[i].Exchange? ==>
          t.queue[i].id in t.registered && t.registered[t.queue[i].id] == t.queue[i].slot)
    && (forall i, j :: 0 <= i < j < |t.queue| && t.queue[i].Exchange? && t.queue[j].Exchange? ==>
          t.queue[i].id != t.queue[j].id)
    && (forall i, j :: 0 <= i < j < |t.queue| && t.queue[j].Exchange? ==> !Answers(t.queue[i], t.queue[j].id))
    && (forall i :: 0 <= i < |t.queue| && t.queue[i].FrameIn? && t.queue[i].frame.InResponse? ==>
          t.queue[i].frame.response.exchangeId in t.seen)
  }

  /** Each answer went, once, to the slot that was registered under its id. */
  ghost predicate AnswersInv(s: TaskState, registered: map<ExchangeId, Slot>) {
    && (forall i :: 0 <= i < |s.answered| ==>
          s.answered[i].response.exchangeId in registered
          && registered[s.answered[i].response.exchangeId] == s.answered[i].slot)
    && (forall i, j :: 0 <= i < j < |s.answered| ==>
          s.answered[i].response.exchangeId != s.answered[j].response.exchangeId)
  }

  /** A response that found no entry was never asked for, or its exchange had been answered before. */
  ghost predicate MissingInv(t: Table) {
    forall i :: 0 <= i < |t.task.missing| ==>
      && t.task.missing[i].exchangeId in t.seen
      && (t.task.missing[i].exchangeId in t.registered ==> t.task.missing[i].exchangeId in AnsweredIds(t.task))
  }

  /** The table holds the registrations that were processed and not yet answered. */
  ghost predicate TableInv(t: Table) {
    && (forall id :: id in t.task.exchanges ==> id in t.registered && t.task.exchanges[id] == t.registered[id])
    && (t.task.alive ==> t.task.exchanges.Keys == t.registered.Keys - Waiting(t.queue) - AnsweredIds(t.task))
    && AnsweredIds(t.task) !! Waiting(t.queue)
  }

  ghost predicate Inv(t: Table) {
    && t.registered.Keys <= t.seen
    && QueueInv(t) && AnswersInv(t.task, t.registered) && MissingInv(t) && TableInv(t)
  }

  lemma WaitingPush(queue: seq<PortalCall>, call: PortalCall)
    ensures Waiting(queue + [call]) == Waiting(queue) + if call.Exchange? then {call.id} else {}
  {
    var longer := queue + [call];
    forall id | id in Waiting(queue) ensures id in Waiting(longer) {
      var i :| 0 <= i < |queue| && queue[i].Exchange? && queue[i].id == id;
      assert longer[i] == queue[i];
    }
    assert longer[|queue|] == call;
  }

  lemma WaitingPop(queue: seq<PortalCall>)
    requires queue != []
    requires forall i, j :: 0 <= i < j < |queue| && queue[i].Exchange? && queue[j].Exchange? ==> queue[i].id != queue[j].id
    ensures Waiting(queue[1..]) == Waiting(queue) - if queue[0].Exchange? then {queue[0].id} else {}
  {
    var shorter := queue[1..];
    forall id | id in Waiting(queue) && !(queue[0].Exchange? && queue[0].id == id) ensures id in Waiting(shorter) {
      var i :| 0 <= i < |queue| && queue[i].Exchange? && queue[i].id == id;
      assert shorter[i - 1] == queue[i];
    }
    forall id | id in Waiting(shorter) ensures id in Waiting(queue) && !(queue[0].Exchange? && queue[0].id == id) {
      var i :| 0 <= i < |shorter| && shorter[i].Exchange? && shorter[i].id == id;
      assert queue[i + 1] == shorter[i];
    }
  }

  lemma AnsweredPush(s: TaskState, answer: Answer)
    ensures AnsweredIds(s.(answered := s.answered + [answer])) == AnsweredIds(s) + {answer.response.exchangeId}
  {
    var s' := s.(answered := s.answered + [answer]);
    forall id | id in AnsweredIds(s) ensures id in AnsweredIds(s') {
      var i :| 0 <= i < |s.answered| && s.answered[i].response.exchangeId == id;
      assert s'.answered[i] == s.answered[i];
    }
    assert s'.answered[|s.answered|] == answer;
  }

  lemma PushKeeps(t: Table, step: Step)
    requires Inv(t) && Enabled(t, step) && !step.Handle? && !step.GiveUp?
    ensures Inv(Next(t, step))
  {
    var call := Next(t, step).queue[|t.queue|];
    WaitingPush(t.queue, call);
    assert Next(t, step).queue == t.queue + [call];
  }

  lemma HandleQueue(t: Table)
    requires Inv(t) && Enabled(t, Handle)
    ensures QueueInv(Next(t, Handle))
  {
    var t' := Next(t, Handle);
    assert forall i :: 0 <= i < |t'.queue| ==> t'.queue[i] == t.queue[i + 1];
  }

  /** A response whose id is registered and not yet answered finds its entry. */
  lemma ResponseFindsEntry(t: Table)
    requires Inv(t) && t.task.alive && t.queue != [] && t.queue[0].FrameIn? && t.queue[0].frame.InResponse?
    ensures var id := t.queue[0].frame.response.exchangeId;
            id in t.task.exchanges <==> id in t.registered && id !in AnsweredIds(t.task)
  {
    var id := t.queue[0].frame.response.exchangeId;
    assert Answers(t.queue[0], id);
    assert id !in Waiting(t.queue);
  }

  lemma HandleKeeps(t: Table)
    requires Inv(t) && Enabled(t, Handle)
    ensures Inv(Next(t, Handle))
  {
    var t' := Next(t, Handle);
    HandleQueue(t);
    WaitingPop(t.queue);
    var call := t.queue[0];
    if call.FrameIn? && call.frame.InResponse? {
      ResponseFindsEntry(t);
      var id := call.frame.response.exchangeId;
      if id in t.task.exchanges {
        AnsweredPush(t.task, Answer(t.task.exchanges[id], call.frame.response));
        if Listening(t, call) {
          assert AnsweredIds(t'.task) == AnsweredIds(t.task) + {id};
        } else {
          assert AnsweredIds(t'.task) == AnsweredIds(t.task);
        }
      } else {
        assert AnsweredIds(t'.task) == AnsweredIds(t.task);
      }
    } else {
      assert AnsweredIds(t'.task) == AnsweredIds(t.task);
    }
  }

  lemma {:induction false} RunKeeps(steps: seq<Step>, t: Table)
    requires Reached(steps, t)
    ensures Inv(t)
  {
    if steps != [] {
      var before, step := Run(steps[..|steps| - 1]).value, steps[|steps| - 1];
      RunKeeps(steps[..|steps| - 1], before);
      match step
      case Handle => HandleKeeps(before);
      case GiveUp(_) =>
      case _ => PushKeeps(before, step);
    }
  }

  /** In every reachable state the table is what was registered, less what still waits in the queue and
      what was answered. */
  lemma TableIsRegisteredMinusAnswered(steps: seq<Step>, t: Table)
    requires Reached(steps, t) && t.task.alive
    ensures t.task.exchanges == map id | id in t.registered && id !in Waiting(t.queue) && id !in AnsweredIds(t.task)
                                       :: t.registered[id]
  {
    RunKeeps(steps, t);
  }

  /** A first response never meets the missing-id branch: it finds the entry of its exchange and is
      handed to the slot registered for it, or, when nobody waits there any more, ends the task. */
  lemma FirstResponseAnswers(steps: seq<Step>, t: Table, response: InletResponse)
    requires Reached(steps, t) && t.task.alive && t.queue != [] && t.queue[0] == FrameIn(InResponse(response))
    requires response.exchangeId in t.registered && response.exchangeId !in AnsweredIds(t.task)
    ensures var slot, t' := t.registered[response.exchangeId], Next(t, Handle).task;
            && t'.alive == (slot !in t.gone)
            && t'.answered == t.task.answered + (if slot in t.gone then [] else [Answer(slot, response)])
            && t'.missing == t.task.missing
            && response.exchangeId !in t'.exchanges
  {
    RunKeeps(steps, t);
    ResponseFindsEntry(t);
  }

  /** Each registered exchange is answered at most once, by a response with its id, into its own slot. */
  lemma AnsweredOnce(steps: seq<Step>, t: Table)
    requires Reached(steps, t)
    ensures AnswersInv(t.task, t.registered)
  {
    RunKeeps(steps, t);
  }

  // ----- how the task can die

  /** The task is about to take a response to an exchange that is registered and not yet answered, and whose
      caller has stopped waiting. */
  ghost predicate Fatal(t: Table) {
    && t.queue != [] && t.queue[0].FrameIn? && t.queue[0].frame.InResponse?
    && var id := t.queue[0].frame.response.exchangeId;
       id in t.registered && id !in AnsweredIds(t.task) && t.registered[id] in t.gone
  }

  /** At this point of the run the task took such a response. */
  ghost predicate Struck(steps: seq<Step>, n: nat) {
    && n < |steps| && steps[n].Handle?
    && exists t :: Reached(steps[..n], t) && Fatal(t)
  }

  lemma StruckBefore(steps: seq<Step>, last: nat, n: nat)
    requires n < last <= |steps|
    ensures Struck(steps, n) <==> Struck(steps[..last], n)
  {
    assert steps[..last][..n] == steps[..n];
  }

  lemma HandleDies(t: Table)
    requires Inv(t) && Enabled(t, Handle)
    ensures Next(t, Handle).task.alive <==> !Fatal(t)
  {
    if t.queue[0].FrameIn? && t.queue[0].frame.InResponse? {
      ResponseFindsEntry(t);
    }
  }

  /** Every response the task takes is accounted for: it answers its exchange, ends the task, or is reported
      missing; the rest of the table stays. */
  lemma ResponseAccounted(steps: seq<Step>, t: Table, response: InletResponse)
    requires Reached(steps, t) && t.task.alive && t.queue != [] && t.queue[0] == FrameIn(InResponse(response))
    ensures var id, task, task' := response.exchangeId, t.task, Next(t, Handle).task;
            if id !in t.registered || id in AnsweredIds(task) then
              task' == TaskState(task.exchanges, task.answered, task.missing + [response], true)
            else if t.registered[id] in t.gone then
              task' == TaskState(task.exchanges - {id}, task.answered, task.missing, false)
            else
              task' == TaskState(task.exchanges - {id}, task.answered + [Answer(t.registered[id], response)], task.missing, true)
  {
    RunKeeps(steps, t);
    ResponseFindsEntry(t);
  }

  /** The task has died exactly when it took a first response whose caller had stopped waiting. */
  lemma {:induction false} DiesExactly(steps: seq<Step>, t: Table)
    requires Reached(steps, t)
    ensures !t.task.alive <==> exists n: nat :: Struck(steps, n)
  {
    if steps != [] {
      var last := |steps| - 1;
      var before := Run(steps[..last]).value;
      DiesExactly(steps[..last], before);
      RunKeeps(steps[..last], before);
      forall n: nat | n < last ensures Struck(steps, n) <==> Struck(steps[..last], n) {
        StruckBefore(steps, last, n);
      }
      if steps[last].Handle? {
        HandleDies(before);
        assert Fatal(before) ==> Struck(steps, last);
      }
    }
  }

  /** A run that ends the task: the caller gives up between its registration and the client's answer. */
  lemma CanDie(response: InletResponse, slot: Slot) returns (steps: seq<Step>, t: Table)
    ensures Reached(steps, t) && !t.task.alive
  {
    var id := response.exchangeId;
    var registered := Next(START, Register(id, slot));
    assert registered.registered[id] == slot;
    var tabled := Next(registered, Handle);
    var left := Next(tabled, GiveUp(slot));
    var queued := Next(left, Inbound(InResponse(response)));
    Extend([], START, Register(id, slot));
    steps := [] + [Register(id, slot)];
    Extend(steps, registered, Handle);
    steps := steps + [Handle];
    Extend(steps, tabled, GiveUp(slot));
    steps := steps + [GiveUp(slot)];
    Extend(steps, left, Inbound(InResponse(response)));
    steps := steps + [Inbound(InResponse(response))];
    Extend(steps, queued, Handle);
    steps := steps + [Handle];
    t := Next(queued, Handle);
  }

  lemma Extend(steps: seq<Step>, t: Table, step: Step)
    requires Reached(steps, t) && Enabled(t, step)
    ensures Reached(steps + [step], Next(t, step))
  {
    assert (steps + [step])[..|steps|] == steps;
  }
}
