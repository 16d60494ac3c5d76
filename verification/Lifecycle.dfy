/** The life of the TCP server: its status events, its accept loop, and the shutdown flag another task
    may clear at any moment. */
module Lifecycle {
  import opened Outcomes
  import opened Messages

  datatype Event = StatusEvent(status: Status) | ClientConnected | Negotiation | ShutdownEvent

  /** Where the accept loop is. The test of the flag and what follows it are two steps: the lock is released
      in between. */
  datatype Phase =
    | Binding
    | Listening
    | Checking(connection: nat)
    | Passed(connection: nat)
    | Handling(connection: nat)
    | Over

  datatype Server = Server(
    phase: Phase,
    announced: bool,       // the call task has taken a shutdown call
    alive: bool,
    events: seq<Event>,
    accepted: set<nat>,    // connections that were ever accepted
    late: set<nat>,        // those accepted after the flag was cleared
    handled: seq<nat>)     // those given to `handle`

  const START := Server(Binding, false, true, [StatusEvent(Initializing)], {}, {}, [])

  datatype Step =
    | Bind(ok: bool, error: string)
    | AcceptConnection(connection: nat)
    | AcceptFails
    | CheckAlive
    | BeginHandling
    | Negotiate           // `handle` reports on its handshake
    | HandleReturns
    | AnnounceShutdown    // the call task broadcasts the shutdown
    | ClearFlag           // and then clears the flag

  function BindFailure(error: string): string { "FATAL: could not setup TcpListener " + error }

  /** Connections are told apart. The call task ends with its first shutdown. */
  predicate Enabled(s: Server, step: Step) {
    match step
    case Bind(_, _) => s.phase.Binding?
    case AcceptConnection(connection) => s.phase.Listening? && connection !in s.accepted
    case AcceptFails => s.phase.Listening?
    case CheckAlive => s.phase.Checking?
    case BeginHandling => s.phase.Passed?
    case Negotiate => s.phase.Handling?
    case HandleReturns => s.phase.Handling?
    case AnnounceShutdown => !s.announced
    case ClearFlag => s.announced && s.alive
  }

  function Next(s: Server, step: Step): Server
    requires Enabled(s, step)
  {
    match step
    case Bind(ok, error) =>
      if ok then s.(phase := Listening, events := s.events + [StatusEvent(Ready)])
      else s.(phase := Over, events := s.events + [StatusEvent(Panicked(BindFailure(error)))])
    case AcceptConnection(connection) =>
      s.(phase := Checking(connection), accepted := s.accepted + {connection},
         late := s.late + if s.alive then {} else {connection})
    case AcceptFails => s.(phase := Over, events := s.events + [StatusEvent(Done)])
    case CheckAlive =>
      if s.alive then s.(phase := Passed(s.phase.connection))
      else s.(phase := Over, events := s.events + [StatusEvent(Done)])
    case BeginHandling =>
      s.(phase := Handling(s.phase.connection), events := s.events + [ClientConnected],
         handled := s.handled + [s.phase.connection])
    case Negotiate => s.(events := s.events + [Negotiation])
    case HandleReturns => s.(phase := Listening)
    case AnnounceShutdown => s.(announced := true, events := s.events + [ShutdownEvent])
    case ClearFlag => s.(alive := false)
  }

  function Run(steps: seq<Step>): Option<Server> {
    if steps == [] then Some(START)
    else
      match Run(steps[..|steps| - 1])
      case None => None
      case Some(s) =>
        var step := steps[|steps| - 1];
        if Enabled(s, step) then Some(Next(s, step)) else None
  }

  ghost predicate Reached(steps: seq<Step>, s: Server) { Run(steps) == Some(s) }

  function Statuses(events: seq<Event>): seq<Status> {
    if events == [] then []
    else
      var last := events[|events| - 1];
      Statuses(events[..|events| - 1]) + if last.StatusEvent? then [last.status] else []
  }

  /** The status events of a run up to now: Initializing, then Ready and at the end Done, or one Panic. */
  ghost predicate Lawful(s: Server) {
    match s.phase
    case Binding => Statuses(s.events) == [Initializing]
    case Over =>
      || Statuses(s.events) == [Initializing, Ready, Done]
      || exists reason :: Statuses(s.events) == [Initializing, Panicked(reason)]
    case _ => Statuses(s.events) == [Initializing, Ready]
  }

  /** The connection the loop has in hand. */
  function InHand(phase: Phase): set<nat> {
    match phase
    case Checking(connection) => {connection}
    case Passed(connection) => {connection}
    case Handling(connection) => {connection}
    case _ => {}
  }

  /** A late connection is in hand before the test of the flag, if at all, and there is one at most. */
  ghost predicate LateInv(s: Server) {
    && (s.alive ==> s.late == {})
    && s.late <= s.accepted && InHand(s.phase) <= s.accepted
    && (s.late != {} ==> s.phase.Over? || (s.phase.Checking? && s.late == {s.phase.connection}))
    && |s.late| <= 1
    && (forall c :: c in s.handled ==> c in s.accepted && c !in s.late)
  }

  /** Each connection is handled once at most. */
  ghost predicate HandledInv(s: Server) {
    && (forall i, j :: 0 <= i < j < |s.handled| ==> s.handled[i] != s.handled[j])
    && (s.phase.Checking? || s.phase.Passed? ==> s.phase.connection !in s.handled)
  }

  function Count(events: seq<Event>, event: Event): nat {
    if events == [] then 0
    else Count(events[..|events| - 1], event) + if events[|events| - 1] == event then 1 else 0
  }

  /** Each connection handled and the shutdown are announced once, the shutdown before the flag is cleared. */
  ghost predicate AnnouncedInv(s: Server) {
    && Count(s.events, ClientConnected) == |s.handled|
    && Count(s.events, ShutdownEvent) == (if s.announced then 1 else 0)
    && (!s.alive ==> s.announced)
  }

  /** The reports of the handshakes. */
  function Negotiations(steps: seq<Step>): nat {
    if steps == [] then 0
    else Negotiations(steps[..|steps| - 1]) + if steps[|steps| - 1].Negotiate? then 1 else 0
  }

  ghost predicate Inv(s: Server) { Lawful(s) && LateInv(s) && HandledInv(s) && AnnouncedInv(s) }

  lemma EventsPush(events: seq<Event>, event: Event)
    ensures Statuses(events + [event]) == Statuses(events) + if event.StatusEvent? then [event.status] else []
    ensures forall other :: Count(events + [event], other) == Count(events, other) + if event == other then 1 else 0
  {
    assert (events + [event])[..|events|] == events;
  }

  lemma StaysLawful(s: Server, step: Step)
    requires Lawful(s) && Enabled(s, step)
    ensures Lawful(Next(s, step))
  {
    match step
    case Bind(ok, error) => EventsPush(s.events, StatusEvent(if ok then Ready else Panicked(BindFailure(error))));
    case AcceptFails => EventsPush(s.events, StatusEvent(Done));
    case CheckAlive => EventsPush(s.events, StatusEvent(Done));
    case BeginHandling => EventsPush(s.events, ClientConnected);
    case Negotiate => EventsPush(s.events, Negotiation);
    case AnnounceShutdown => EventsPush(s.events, ShutdownEvent);
    case _ =>
  }

  lemma StaysLate(s: Server, step: Step)
    requires LateInv(s) && Enabled(s, step)
    ensures LateInv(Next(s, step))
  {
    if step.AcceptConnection? {
      assert s.late == {};
    }
  }

  lemma StaysAnnounced(s: Server, step: Step)
    requires AnnouncedInv(s) && Enabled(s, step)
    ensures AnnouncedInv(Next(s, step))
  {
    var events := Next(s, step).events;
    if events != s.events {
      EventsPush(s.events, events[|s.events|]);
      assert events == s.events + [events[|s.events|]];
    }
  }

  lemma StaysHandled(s: Server, step: Step)
    requires HandledInv(s) && LateInv(s) && Enabled(s, step)
    ensures HandledInv(Next(s, step))
  {}

  lemma StepKeeps(s: Server, step: Step)
    requires Inv(s) && Enabled(s, step)
    ensures Inv(Next(s, step))
  {
    StaysLawful(s, step);
    StaysLate(s, step);
    StaysHandled(s, step);
    StaysAnnounced(s, step);
  }

  lemma {:induction false} RunKeeps(steps: seq<Step>, s: Server)
    requires Reached(steps, s)
    ensures Inv(s)
  {
    if steps == [] {
      EventsPush([], StatusEvent(Initializing));
      assert Count([], ClientConnected) == 0;
      assert [] + [StatusEvent(Initializing)] == START.events;
    } else {
      var before := Run(steps[..|steps| - 1]).value;
      RunKeeps(steps[..|steps| - 1], before);
      StepKeeps(before, steps[|steps| - 1]);
    }
  }

  /** In every run the status events are Initializing followed by at most one Ready and then at most one
      Done, or by one Panic. */
  lemma StatusOrder(steps: seq<Step>, s: Server)
    requires Reached(steps, s)
    ensures var statuses := Statuses(s.events);
            statuses <= [Initializing, Ready, Done] || exists reason :: statuses == [Initializing, Panicked(reason)]
  {
    RunKeeps(steps, s);
  }

  /** A panic tells why the socket could not be bound. */
  lemma {:induction false} PanicTellsWhy(steps: seq<Step>, s: Server, reason: string)
    requires Reached(steps, s)
    ensures Panicked(reason) in Statuses(s.events) ==>
              exists error :: Bind(false, error) in steps && reason == "FATAL: could not setup TcpListener " + error
  {
    if steps == [] {
      EventsPush([], StatusEvent(Initializing));
      assert [] + [StatusEvent(Initializing)] == START.events;
      assert Statuses([]) == [];
    } else {
      var before, step := Run(steps[..|steps| - 1]).value, steps[|steps| - 1];
      PanicTellsWhy(steps[..|steps| - 1], before, reason);
      if Panicked(reason) in Statuses(s.events) && Panicked(reason) !in Statuses(before.events) {
        NewStatus(before, step, Panicked(reason));
      }
    }
  }

  /** A status that is new comes from the step that broadcasts it. */
  lemma NewStatus(s: Server, step: Step, status: Status)
    requires Enabled(s, step) && status in Statuses(Next(s, step).events) && status !in Statuses(s.events)
    ensures match step
            case Bind(ok, error) => status == if ok then Ready else Panicked("FATAL: could not setup TcpListener " + error)
            case _ => status == Done
  {
    var events := Next(s, step).events;
    if events != s.events {
      EventsPush(s.events, events[|s.events|]);
      assert events == s.events + [events[|s.events|]];
    }
  }

  /** In every run each handled connection and the shutdown have been announced, once each, and the flag is not
      cleared without the announcement. */
  lemma AllAnnounced(steps: seq<Step>, s: Server)
    requires Reached(steps, s)
    ensures Count(s.events, ClientConnected) == |s.handled|
    ensures Count(s.events, ShutdownEvent) == (if s.announced then 1 else 0) && (s.alive || s.announced)
  {
    RunKeeps(steps, s);
  }

  /** Every report of a handshake is broadcast. */
  lemma {:induction false} NegotiationsTold(steps: seq<Step>, s: Server)
    requires Reached(steps, s)
    ensures Count(s.events, Negotiation) == Negotiations(steps)
  {
    if steps == [] {
      assert Count([], Negotiation) == 0;
      EventsPush([], StatusEvent(Initializing));
      assert [] + [StatusEvent(Initializing)] == START.events;
    } else {
      var before, step := Run(steps[..|steps| - 1]).value, steps[|steps| - 1];
      NegotiationsTold(steps[..|steps| - 1], before);
      NegotiationTold(before, step);
    }
  }

  lemma NegotiationTold(s: Server, step: Step)
    requires Enabled(s, step)
    ensures Count(Next(s, step).events, Negotiation) == Count(s.events, Negotiation) + if step.Negotiate? then 1 else 0
  {
    var events := Next(s, step).events;
    if events != s.events {
      EventsPush(s.events, events[|s.events|]);
      assert events == s.events + [events[|s.events|]];
    }
  }

  /** At this point of the run the server came to its end: it could not bind or accept, or found the flag cleared. */
  ghost predicate Closing(steps: seq<Step>, n: nat) {
    && n < |steps|
    && match steps[n]
       case Bind(ok, _) => !ok
       case AcceptFails => true
       case CheckAlive => exists s :: Reached(steps[..n], s) && !s.alive
       case _ => false
  }

  lemma ClosingBefore(steps: seq<Step>, last: nat, n: nat)
    requires n < last <= |steps|
    ensures Closing(steps, n) <==> Closing(steps[..last], n)
  {
    assert steps[..last][..n] == steps[..n];
  }

  /** The server is over exactly when this has happened. */
  lemma {:induction false} OverExactly(steps: seq<Step>, s: Server)
    requires Reached(steps, s)
    ensures s.phase.Over? <==> exists n: nat :: Closing(steps, n)
  {
    if steps != [] {
      var last := |steps| - 1;
      var before := Run(steps[..last]).value;
      OverExactly(steps[..last], before);
      forall n: nat | n < last ensures Closing(steps, n) <==> Closing(steps[..last], n) {
        ClosingBefore(steps, last, n);
      }
      if s.phase.Over? && !before.phase.Over? {
        assert Closing(steps, last);
      }
    }
  }

  /** The server can go on serving: any connections one after the other, as long as no one shuts it down. */
  lemma {:induction false} ServesAll(connections: seq<nat>) returns (steps: seq<Step>, s: Server)
    requires forall i, j :: 0 <= i < j < |connections| ==> connections[i] != connections[j]
    ensures Reached(steps, s) && s.handled == connections && s.phase.Listening? && s.alive
    ensures forall c :: c in s.accepted ==> c in connections
  {
    if connections == [] {
      Extend([], START, Bind(true, ""));
      steps, s := [] + [Bind(true, "")], Next(START, Bind(true, ""));
    } else {
      var last := |connections| - 1;
      steps, s := ServesAll(connections[..last]);
      steps, s := ServesNext(steps, s, connections[last]);
      assert connections[..last] + [connections[last]] == connections;
    }
  }

  lemma ServesNext(steps: seq<Step>, s: Server, c: nat) returns (longer: seq<Step>, s': Server)
    requires Reached(steps, s) && s.phase.Listening? && s.alive && c !in s.accepted
    ensures Reached(longer, s') && s'.phase.Listening? && s'.alive
    ensures s'.handled == s.handled + [c] && s'.accepted == s.accepted + {c}
  {
    var checking := Next(s, AcceptConnection(c));
    var passed := Next(checking, CheckAlive);
    var handling := Next(passed, BeginHandling);
    Extend(steps, s, AcceptConnection(c));
    longer := steps + [AcceptConnection(c)];
    Extend(longer, checking, CheckAlive);
    longer := longer + [CheckAlive];
    Extend(longer, passed, BeginHandling);
    longer := longer + [BeginHandling];
    Extend(longer, handling, HandleReturns);
    longer := longer + [HandleReturns];
    s' := Next(handling, HandleReturns);
  }

  /** In no run is a connection handled that was accepted after the flag was cleared, and at most one is
      accepted then. */
  lemma LateIsNeverHandled(steps: seq<Step>, s: Server)
    requires Reached(steps, s)
    ensures |s.late| <= 1 && forall c :: c in s.late ==> c !in s.handled
  {
    RunKeeps(steps, s);
  }

  /** Each connection is handled once at most. */
  lemma HandledOnce(steps: seq<Step>, s: Server, i: nat, j: nat)
    requires Reached(steps, s) && i < j < |s.handled|
    ensures s.handled[i] != s.handled[j]
  {
    RunKeeps(steps, s);
  }

  /** After the flag is cleared the run from `s` to `s'` handles nothing more, but for the connection that had
      passed the test already. */
  lemma {:induction false} AfterShutdown(steps: seq<Step>, s: Server, more: seq<Step>, s': Server)
    requires Reached(steps, s) && !s.alive && Reached(steps + more, s')
    ensures !s'.alive
    ensures if s'.handled == s.handled then s'.phase.Passed? ==> s'.phase == s.phase
            else s.phase.Passed? && s'.handled == s.handled + [s.phase.connection] && !s'.phase.Passed?
  {
    if more == [] {
      assert steps + more == steps;
    } else {
      var last := |more| - 1;
      assert (steps + more)[..|steps + more| - 1] == steps + more[..last];
      var before := Run(steps + more[..last]).value;
      AfterShutdown(steps, s, more[..last], before);
    }
  }

  /** Something can still be handled after the flag is cleared exactly when a connection had passed the test
      before: the test and the handling are not one step. */
  lemma HandledAfterShutdown(steps: seq<Step>, s: Server)
    requires Reached(steps, s) && !s.alive
    ensures (exists more, s' :: Reached(steps + more, s') && s'.handled != s.handled) <==> s.phase.Passed?
  {
    if more, s' :| Reached(steps + more, s') && s'.handled != s.handled {
      AfterShutdown(steps, s, more, s');
    }
    if s.phase.Passed? {
      assert (steps + [BeginHandling])[..|steps|] == steps;
      assert Reached(steps + [BeginHandling], Next(s, BeginHandling));
      assert Next(s, BeginHandling).handled[|s.handled|] == s.phase.connection;
      assert Next(s, BeginHandling).handled != s.handled;
    }
  }

  /** It does happen: this run handles a connection after the flag was cleared. */
  lemma RaceIsReal() returns (steps: seq<Step>, s: Server)
    ensures Reached(steps, s) && !s.alive && s.phase == Passed(0)
  {
    var listening := Next(START, Bind(true, ""));
    var checking := Next(listening, AcceptConnection(0));
    var passed := Next(checking, CheckAlive);
    var announced := Next(passed, AnnounceShutdown);
    Extend([], START, Bind(true, ""));
    Extend([] + [Bind(true, "")], listening, AcceptConnection(0));
    steps := [] + [Bind(true, "")] + [AcceptConnection(0)];
    Extend(steps, checking, CheckAlive);
    steps := steps + [CheckAlive];
    Extend(steps, passed, AnnounceShutdown);
    steps := steps + [AnnounceShutdown];
    Extend(steps, announced, ClearFlag);
    steps := steps + [ClearFlag];
    s := Next(announced, ClearFlag);
  }

  lemma Extend(steps: seq<Step>, s: Server, step: Step)
    requires Reached(steps, s) && Enabled(s, step)
    ensures Reached(steps + [step], Next(s, step))
  {
    assert (steps + [step])[..|steps|] == steps;
  }

  /** A turn of the accept loop, with the flag cleared before the test, after it, or not at all. */
  function TurnOf(s: Server, connection: nat, before: bool, after: bool): Server
    requires s.phase.Listening? && connection !in s.accepted
    requires before || after ==> s.announced && s.alive
    requires !(before && after)
  {
    var accepted := Next(s, AcceptConnection(connection));
    var checked := Next(if before then Next(accepted, ClearFlag) else accepted, CheckAlive);
    if !checked.phase.Passed? then checked
    else Next(if after then Next(checked, ClearFlag) else checked, BeginHandling)
  }

  /** The server as running code. */
  class PortalTcpServer {
    var phase: Phase
    var announced: bool
    var alive: bool
    var events: seq<Event>
    ghost var accepted: set<nat>
    ghost var late: set<nat>
    var handled: seq<nat>

    ghost function State(): Server
      reads this
    {
      Server(phase, announced, alive, events, accepted, late, handled)
    }

    constructor ()
      ensures State() == START
    {
      phase, announced, alive, events := Binding, false, true, [StatusEvent(Initializing)];
      accepted, late, handled := {}, {}, [];
    }

    method Broadcast(event: Event)
      modifies this`events
      ensures events == old(events) + [event]
    {
      events := events + [event];
    }

    /** `start` up to its loop. */
    method BindSocket(ok: bool, error: string)
      requires phase.Binding?
      modifies this
      ensures State() == Next(old(State()), Bind(ok, error))
      ensures events == old(events) +
              [StatusEvent(if ok then Ready else Panicked("FATAL: could not setup TcpListener " + error))]
    {
      if ok {
        phase := Listening;
        Broadcast(StatusEvent(Ready));
      } else {
        phase := Over;
        Broadcast(StatusEvent(Panicked(BindFailure(error))));
      }
    }

    /** One turn of the accept loop up to the handling of the connection. `before` and `after` tell whether
        the call task clears the flag before or after the loop tests it. */
    method Turn(connection: nat, before: bool, after: bool)
      requires phase.Listening? && connection !in accepted
      requires before || after ==> announced && alive
      requires !(before && after)
      modifies this
      ensures State() == TurnOf(old(State()), connection, before, after)
      ensures handled == old(handled) + if old(alive) && !before then [connection] else []
    {
      accepted, late := accepted + {connection}, late + if alive then {} else {connection};
      if before {
        Clear();
      }
      var dead := !alive;
      if dead {
        phase := Over;
        Broadcast(StatusEvent(Done));
        return;
      }
      if after {
        Clear();
      }
      phase := Handling(connection);
      Broadcast(ClientConnected);
      handled := handled + [connection];
    }

    /** A failure to accept ends the loop. */
    method FailToAccept()
      requires phase.Listening?
      modifies this`phase, this`events
      ensures State() == Next(old(State()), AcceptFails)
      ensures phase.Over? && events == old(events) + [StatusEvent(Done)]
    {
      phase := Over;
      Broadcast(StatusEvent(Done));
    }

    /** The call task's part of a shutdown, in two steps. */
    method Announce()
      requires !announced
      modifies this`announced, this`events
      ensures State() == Next(old(State()), AnnounceShutdown)
    {
      announced := true;
      Broadcast(ShutdownEvent);
    }

    method Clear()
      requires announced && alive
      modifies this`alive
      ensures State() == Next(old(State()), ClearFlag)
    {
      alive := false;
    }
  }
}
