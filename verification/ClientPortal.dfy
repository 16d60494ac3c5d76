/** The client side of one portal: its exchange table, the frames it emits, and the handlers of the
    requests it receives. */
module ClientPortal {
  import opened Outcomes
  import opened Messages
  import opened Seqs

  /** A response handed to the caller behind `slot`; `heard` tells whether it still waited then. */
  datatype Delivery = Delivery(slot: Slot, response: OutletResponse, heard: bool)

  datatype ClientState = ClientState(
    status: Status,
    exchanges: map<ExchangeId, Slot>,
    gaveUp: set<ExchangeId>,          // exchanges whose caller timed out
    delivered: seq<Delivery>,
    unmatched: seq<OutletResponse>,   // responses handled without a matching exchange
    running: seq<OutletRequest>)      // requests whose handler has not finished

  const FRESH := ClientState(Initializing, map[], {}, [], [], [])

  const KIND_REPLACED :=
    "ExchangeKind is replaced in 'notify' or 'exchange' method and should be preset to ExchangeKind::None"

  /** The request `exchange` sends, whatever kind it was given. */
  function Tagged(request: InletRequest, id: ExchangeId): InletRequest {
    request.(kind := RequestResponse(id))
  }

  /** A response on its way through the entry of its exchange. `lapses` tells whether the caller times out
      after the entry was taken and before the response is handed over. */
  function Handed(s: ClientState, response: OutletResponse, lapses: bool): Delivery
    requires response.exchangeId in s.exchanges
  {
    Delivery(s.exchanges[response.exchangeId], response, response.exchangeId !in s.gaveUp && !lapses)
  }

  /** `Portal::receive`: frames count only when the portal is Ready. */
  function Receive(s: ClientState, frame: OutletFrame, lapses: bool): ClientState {
    if s.status != Ready then s
    else
      match frame
      case OutRequest(request) => s.(running := s.running + [request])
      case OutResponse(response) =>
        if response.exchangeId in s.exchanges then
          s.(exchanges := s.exchanges - {response.exchangeId},
             delivered := s.delivered + [Handed(s, response, lapses)])
        else s.(unmatched := s.unmatched + [response])
      case _ => s
  }

  /** What user code makes of a request: the http handler answers or fails, the port handler answers,
      stays silent or fails. */
  datatype HandlerOutcome =
    | HttpOk(code: nat)
    | HttpErr(error: string)
    | PortOk(signal: Option<ResponseEntity>)
    | PortErr(error: string)

  /** `Request::try_from_http` and `Request::try_from_port`, with the sender they carry over. */
  function TryFromHttp(request: OutletRequest): Option<(Identifier, string)> {
    match request.operation
    case Http(path) => Some((request.from, path))
    case Port(_, _) => None
  }

  function TryFromPort(request: OutletRequest): Option<(Identifier, string)> {
    match request.operation
    case Port(_, text) => Some((request.from, text))
    case Http(_) => None
  }

  const SERVER_SIDE_ERROR := HttpResponse(500)

  const NOT_CONVERTED := "FATAL: could not modify PortOperation into Request<PortOperation>"

  function ReplyIf(kind: ExchangeKind, to: Identifier, signal: ResponseEntity): seq<InletResponse> {
    match kind
    case RequestResponse(id) => [InletResponse(to, id, signal)]
    case _ => []
  }

  /** The responses the handler of a request emits, branch by branch; `ports` are the defined ports. */
  function Replies(request: OutletRequest, ports: set<string>, outcome: HandlerOutcome): seq<InletResponse> {
    match request.operation
    case Http(_) =>
      if !request.kind.RequestResponse? then []
      else
        (match TryFromHttp(request)
         case None => []
         case Some(_) =>
           var code := if outcome.HttpOk? then HttpResponse(outcome.code) else SERVER_SIDE_ERROR;
           [InletResponse(request.from, request.kind.id, Success(code))])
    case Port(port, _) =>
      if port !in ports then ReplyIf(request.kind, request.from, Failure("ERROR: message port: '" + port + "' not defined "))
      else
        match TryFromPort(request)
        case None => ReplyIf(request.kind, request.from, Failure(NOT_CONVERTED))
        case Some((from, _)) =>
          match outcome
          case PortOk(Some(signal)) => ReplyIf(request.kind, from, signal)
          case PortOk(None) =>
            ReplyIf(request.kind, from, Failure("ERROR: PortOperation.port '" + port + "' generated no response"))
          case PortErr(error) =>
            ReplyIf(request.kind, from, Failure("ERROR: PortOperation.port '" + port + "' message: '" + error + "'"))
          case _ => ReplyIf(request.kind, from, Failure(NOT_CONVERTED))
  }

  /** The reply tag a request asks for: its exchange id, addressed to its sender. */
  function Wanted(request: OutletRequest): seq<(Identifier, ExchangeId)> {
    if request.kind.RequestResponse? then [(request.from, request.kind.id)] else []
  }

  function Tags(responses: seq<InletResponse>): seq<(Identifier, ExchangeId)> {
    seq(|responses|, i requires 0 <= i < |responses| => (responses[i].to, responses[i].exchangeId))
  }

  /** However its handler ends, a request for a response gets exactly one, with its id and to its
      sender, and a notification gets none. In particular the branches for a failed conversion, which
      would leave an http request without a reply, are never taken. */
  lemma OneReply(request: OutletRequest, ports: set<string>, outcome: HandlerOutcome)
    ensures Tags(Replies(request, ports, outcome)) == Wanted(request)
    ensures request.operation.Http? ==> TryFromHttp(request).Some?
    ensures request.operation.Port? ==> TryFromPort(request).Some?
  {}

  /** A handler that finished, on which request and how. */
  datatype Ending = Ending(request: OutletRequest, outcome: HandlerOutcome)

  /** An http handler ends as http handlers do, and a port handler as port handlers do. */
  predicate Fits(finish: Ending) {
    finish.request.operation.Http? <==> finish.outcome.HttpOk? || finish.outcome.HttpErr?
  }

  /** Is this what the sender of the request is to be told? An http handler's code, or 500 if it failed; a port
      handler's own signal, or a failure that says what went wrong. */
  predicate Tells(finish: Ending, ports: set<string>, signal: ResponseEntity) {
    match finish.outcome
    case HttpOk(code) => signal == Success(HttpResponse(code))
    case HttpErr(_) => signal == Success(HttpResponse(500))
    case _ =>
      finish.request.operation.Port? &&
      var port := finish.request.operation.port;
      if port !in ports then signal == Failure("ERROR: message port: '" + port + "' not defined ")
      else
        match finish.outcome
        case PortOk(Some(own)) => signal == own
        case PortOk(None) => signal == Failure("ERROR: PortOperation.port '" + port + "' generated no response")
        case PortErr(error) => signal == Failure("ERROR: PortOperation.port '" + port + "' message: '" + error + "'")
        case _ => false
  }

  /** Does the response answer the request, with its id and to its sender, by the outcome of its handler? */
  predicate AnswersTo(finish: Ending, ports: set<string>, response: InletResponse) {
    && finish.request.kind == RequestResponse(response.exchangeId) && response.to == finish.request.from
    && Tells(finish, ports, response.signal)
  }

  /** What a request is replied is decided by the outcome of its handler. */
  lemma ReplyByOutcome(finish: Ending, ports: set<string>)
    requires Fits(finish)
    ensures var replies := Replies(finish.request, ports, finish.outcome);
            if finish.request.kind.RequestResponse? then |replies| == 1 && AnswersTo(finish, ports, replies[0])
            else replies == []
  {}

  datatype Event =
    | Received(frame: OutletFrame, lapses: bool)
    | Finished(index: nat, outcome: HandlerOutcome)
    | StatusSet(status: Status)

  /** A run of the portal: every handler that finished, in order, and the responses all of them emitted. */
  datatype History = History(
    state: ClientState, received: seq<OutletRequest>, responses: seq<OutletResponse>, finished: seq<Ending>, replies: seq<InletResponse>)

  predicate Possible(h: History, event: Event) {
    event.Finished? ==> event.index < |h.state.running| && Fits(Ending(h.state.running[event.index], event.outcome))
  }

  function Next(h: History, ports: set<string>, event: Event): History
    requires Possible(h, event)
  {
    match event
    case Received(frame, lapses) =>
      h.(state := Receive(h.state, frame, lapses),
         received := h.received + (if h.state.status == Ready && frame.OutRequest? then [frame.request] else []),
         responses := h.responses + if h.state.status == Ready && frame.OutResponse? then [frame.response] else [])
    case Finished(index, outcome) =>
      var request := h.state.running[index];
      h.(state := h.state.(running := h.state.running[..index] + h.state.running[index + 1..]),
         finished := h.finished + [Ending(request, outcome)],
         replies := h.replies + Replies(request, ports, outcome))
    case StatusSet(status) => h.(state := h.state.(status := status))
  }

  function Run(ports: set<string>, events: seq<Event>): Option<History> {
    if events == [] then Some(History(FRESH, [], [], [], []))
    else
      match Run(ports, events[..|events| - 1])
      case None => None
      case Some(h) =>
        var event := events[|events| - 1];
        if Possible(h, event) then Some(Next(h, ports, event)) else None
  }

  function Requests(finished: seq<Ending>): seq<OutletRequest> {
    seq(|finished|, i requires 0 <= i < |finished| => finished[i].request)
  }

  /** The finished handlers whose requests ask for a response. */
  function Asked(finished: seq<Ending>): seq<Ending> {
    if finished == [] then []
    else
      var last := finished[|finished| - 1];
      Asked(finished[..|finished| - 1]) + if last.request.kind.RequestResponse? then [last] else []
  }

  function AllWanted(requests: seq<OutletRequest>): seq<(Identifier, ExchangeId)> {
    if requests == [] then [] else AllWanted(requests[..|requests| - 1]) + Wanted(requests[|requests| - 1])
  }

  /** The responses answer, one for one and in order, the finished requests that asked for one. */
  ghost predicate Answered(h: History, ports: set<string>) {
    && |h.replies| == |Asked(h.finished)|
    && forall i :: 0 <= i < |h.replies| ==> AnswersTo(Asked(h.finished)[i], ports, h.replies[i])
  }

  ghost predicate Matched(h: History) {
    && Tags(h.replies) == AllWanted(Requests(h.finished))
    && multiset(h.received) == multiset(Requests(h.finished)) + multiset(h.state.running)
  }

  lemma RequestsPush(finished: seq<Ending>, finish: Ending)
    ensures Requests(finished + [finish]) == Requests(finished) + [finish.request]
    ensures Asked(finished + [finish]) == Asked(finished) + if finish.request.kind.RequestResponse? then [finish] else []
  {
    assert (finished + [finish])[..|finished|] == finished;
  }

  lemma FinishKeeps(h: History, ports: set<string>, index: nat, outcome: HandlerOutcome)
    requires Matched(h) && Possible(h, Finished(index, outcome))
    ensures Matched(Next(h, ports, Finished(index, outcome)))
  {
    var h', request := Next(h, ports, Finished(index, outcome)), h.state.running[index];
    OneReply(request, ports, outcome);
    RequestsPush(h.finished, Ending(request, outcome));
    WantedPush(Requests(h.finished), request);
    TagsConcat(h.replies, Replies(request, ports, outcome));
    TakenOut(h.state.running, index);
    FinishedPush(Requests(h.finished), request, h'.finished);
  }

  lemma WantedPush(requests: seq<OutletRequest>, request: OutletRequest)
    ensures AllWanted(requests + [request]) == AllWanted(requests) + Wanted(request)
  {
    assert (requests + [request])[..|requests|] == requests;
  }

  lemma FinishedPush(requests: seq<OutletRequest>, request: OutletRequest, finished: seq<Ending>)
    requires Requests(finished) == requests + [request]
    ensures multiset(Requests(finished)) == multiset(requests) + multiset{request}
  {}

  lemma FinishAnswers(h: History, ports: set<string>, index: nat, outcome: HandlerOutcome)
    requires Answered(h, ports) && Possible(h, Finished(index, outcome))
    ensures Answered(Next(h, ports, Finished(index, outcome)), ports)
  {
    var finish := Ending(h.state.running[index], outcome);
    ReplyByOutcome(finish, ports);
    RequestsPush(h.finished, finish);
  }

  lemma TagsConcat(a: seq<InletResponse>, b: seq<InletResponse>)
    ensures Tags(a + b) == Tags(a) + Tags(b)
  {}

  lemma ReceiveKeeps(h: History, ports: set<string>, frame: OutletFrame, lapses: bool)
    requires Matched(h)
    ensures Matched(Next(h, ports, Received(frame, lapses)))
  {}

  /** Over any interleaving of frames and finishing handlers the responses emitted are, one for one and in
      order, those the finished requests asked for; and the requests received while Ready are those
      finished and those still running. */
  lemma {:induction false} RepliesMatchRequests(ports: set<string>, events: seq<Event>)
    requires Run(ports, events).Some?
    ensures Matched(Run(ports, events).value)
  {
    if events != [] {
      var h := Run(ports, events[..|events| - 1]).value;
      RepliesMatchRequests(ports, events[..|events| - 1]);
      match events[|events| - 1]
      case Received(frame, lapses) => ReceiveKeeps(h, ports, frame, lapses);
      case Finished(index, outcome) => FinishKeeps(h, ports, index, outcome);
      case StatusSet(_) =>
    }
  }

  function Responses(delivered: seq<Delivery>): seq<OutletResponse> {
    seq(|delivered|, i requires 0 <= i < |delivered| => delivered[i].response)
  }

  /** The status that was last set, Initializing at first. */
  function LastSet(events: seq<Event>): Status {
    if events == [] then Initializing
    else if events[|events| - 1].StatusSet? then events[|events| - 1].status
    else LastSet(events[..|events| - 1])
  }

  ghost predicate Accounted(h: History) {
    multiset(h.responses) == multiset(Responses(h.state.delivered)) + multiset(h.state.unmatched)
  }

  lemma ResponsesAccounted(h: History, ports: set<string>, event: Event)
    requires Accounted(h) && Possible(h, event)
    ensures Accounted(Next(h, ports, event))
  {
    var h' := Next(h, ports, event);
    if h'.state.delivered != h.state.delivered {
      var last := h'.state.delivered[|h.state.delivered|];
      assert Responses(h'.state.delivered) == Responses(h.state.delivered) + [last.response];
    }
  }

  /** Only setting the status changes it, whatever frames come; and each response taken while Ready went to its
      caller or was reported as unmatched. */
  lemma {:induction false} StatusAndResponses(ports: set<string>, events: seq<Event>)
    requires Run(ports, events).Some?
    ensures Run(ports, events).value.state.status == LastSet(events)
    ensures Accounted(Run(ports, events).value)
  {
    if events != [] {
      StatusAndResponses(ports, events[..|events| - 1]);
      ResponsesAccounted(Run(ports, events[..|events| - 1]).value, ports, events[|events| - 1]);
    }
  }

  /** Each response emitted says what the outcome of its handler has it say. */
  lemma {:induction false} RepliesTellOutcomes(ports: set<string>, events: seq<Event>)
    requires Run(ports, events).Some?
    ensures Answered(Run(ports, events).value, ports)
  {
    if events != [] {
      var h := Run(ports, events[..|events| - 1]).value;
      RepliesTellOutcomes(ports, events[..|events| - 1]);
      match events[|events| - 1]
      case Finished(index, outcome) => FinishAnswers(h, ports, index, outcome);
      case _ =>
    }
  }

  /** A frame given to the inlet, and the exchange table at that moment. */
  datatype Emission = Emission(frame: InletFrame, exchanges: map<ExchangeId, Slot>)

  /** The client portal as running code, with the frames its inlet took. */
  class Portal {
    const ports: set<string>
    var status: Status
    var exchanges: map<ExchangeId, Slot>
    var gaveUp: set<ExchangeId>
    var delivered: seq<Delivery>
    var unmatched: seq<OutletResponse>
    var running: seq<OutletRequest>
    var inlet: seq<InletFrame>
    ghost var emissions: seq<Emission>

    ghost function State(): ClientState
      reads this
    {
      ClientState(status, exchanges, gaveUp, delivered, unmatched, running)
    }

    constructor (ports: set<string>)
      ensures this.ports == ports && State() == FRESH && inlet == [InStatus(Initializing)]
      ensures emissions == [Emission(InStatus(Initializing), map[])]
    {
      this.ports := ports;
      status, exchanges, gaveUp, delivered, unmatched, running := Initializing, map[], {}, [], [], [];
      inlet, emissions := [InStatus(Initializing)], [Emission(InStatus(Initializing), map[])];
    }

    /** `Inlet::send_frame`: a frame the queue has no room for is dropped. */
    method SendFrame(frame: InletFrame, room: bool)
      modifies this`inlet, this`emissions
      ensures inlet == old(inlet) + if room then [frame] else []
      ensures emissions == old(emissions) + [Emission(frame, exchanges)]
    {
      emissions := emissions + [Emission(frame, exchanges)];
      if room {
        inlet := inlet + [frame];
      }
    }

    method SetStatus(status: Status, room: bool)
      modifies this`status, this`inlet, this`emissions
      ensures State() == old(State()).(status := status)
      ensures inlet == old(inlet) + if room then [InStatus(status)] else []
    {
      this.status := status;
      SendFrame(InStatus(status), room);
    }

    /** `InletApi::notify`. */
    method Notify(request: InletRequest, room: bool)
      modifies this`inlet, this`emissions
      ensures inlet == old(inlet) + if room then [InRequest(request.(kind := Notification))] else []
    {
      SendFrame(InRequest(request.(kind := Notification)), room);
    }

    /** `InletApi::exchange` up to its wait: a warning when the kind was preset, the registration, then
        the request, which goes out when its entry is in the table. */
    method Exchange(request: InletRequest, id: ExchangeId, slot: Slot, roomForLog: bool, room: bool)
      modifies this`exchanges, this`inlet, this`emissions
      ensures State() == old(State()).(exchanges := old(exchanges)[id := slot])
      ensures emissions == old(emissions) +
              (if !request.kind.NoKind? then [Emission(InLog(KIND_REPLACED), old(exchanges))] else []) +
              [Emission(InRequest(InletRequest(request.to, request.operation, RequestResponse(id))), old(exchanges)[id := slot])]
      ensures inlet == old(inlet) +
              (if !request.kind.NoKind? && roomForLog then [InLog(KIND_REPLACED)] else []) +
              (if room then [InRequest(InletRequest(request.to, request.operation, RequestResponse(id)))] else [])
    {
      if !request.kind.NoKind? {
        SendFrame(InLog(KIND_REPLACED), roomForLog);
      }
      exchanges := exchanges[id := slot];
      SendFrame(InRequest(Tagged(request, id)), room);
    }

    /** The wait of `exchange` times out: its receiving half is dropped, its entry stays. */
    method TimeOut(id: ExchangeId)
      modifies this`gaveUp
      ensures State() == old(State()).(gaveUp := old(gaveUp) + {id})
    {
      gaveUp := gaveUp + {id};
    }

    /** `InletApi::respond`. */
    method Respond(response: InletResponse, room: bool)
      modifies this`inlet, this`emissions
      ensures inlet == old(inlet) + if room then [InResponse(response)] else []
    {
      SendFrame(InResponse(response), room);
    }

    /** `Outlet::receive`. */
    method ReceiveFrame(frame: OutletFrame, lapses: bool)
      modifies this`exchanges, this`delivered, this`unmatched, this`running
      ensures State() == Receive(old(State()), frame, lapses)
    {
      if status != Ready {
        return;
      }
      match frame {
        case OutRequest(request) => running := running + [request];
        case OutResponse(response) =>
          if response.exchangeId in exchanges {
            var slot := exchanges[response.exchangeId];
            exchanges := exchanges - {response.exchangeId};
            delivered := delivered + [Delivery(slot, response, response.exchangeId !in gaveUp && !lapses)];
          } else {
            unmatched := unmatched + [response];
          }
        case _ =>
      }
    }

    /** A request's handler finishes and emits its response. */
    method Finish(index: nat, outcome: HandlerOutcome, room: bool)
      requires index < |running|
      modifies this`running, this`inlet, this`emissions
      ensures running == old(running)[..index] + old(running)[index + 1..]
      ensures var finish := Ending(old(running)[index], outcome);
              if !room || !finish.request.kind.RequestResponse? then inlet == old(inlet)
              else
                && |inlet| == |old(inlet)| + 1 && inlet[..|old(inlet)|] == old(inlet) && inlet[|old(inlet)|].InResponse?
                && finish.request.kind == RequestResponse(inlet[|old(inlet)|].response.exchangeId)
                && inlet[|old(inlet)|].response.to == finish.request.from
                && (Fits(finish) ==> AnswersTo(finish, ports, inlet[|old(inlet)|].response))
    {
      var request := running[index];
      running := running[..index] + running[index + 1..];
      var replies := Replies(request, ports, outcome);
      OneReply(request, ports, outcome);
      assert |replies| == |Tags(replies)| == |Wanted(request)|;
      assert replies != [] ==> Tags(replies)[0] == (replies[0].to, replies[0].exchangeId);
      if Fits(Ending(request, outcome)) {
        ReplyByOutcome(Ending(request, outcome), ports);
      }
      if replies != [] {
        Respond(replies[0], room);
      }
    }
  }
}
