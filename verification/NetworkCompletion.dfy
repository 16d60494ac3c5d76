/** Which exchanges can complete: exactly those that need no answer from another portal. And that requests
    for another portal do get to it. */
module NetworkCompletion {
  import opened Outcomes
  import opened Messages
  import opened Muxer
  import opened Router
  import opened Network
  import opened NetworkInvariant
  import opened NetworkTheorems
  import Server = ServerPortal
  import Client = ClientPortal

  // ----- runs in which one peer acts while the others stand still

  /** The peers that stand still, and what the muxer knows. */
  datatype Scene = Scene(others: map<Key, Peer>, muxer: MuxState)

  /** The scene with the peer that acts. */
  function With(scene: Scene, peer: Peer, central: seq<MuxCall>, routing: seq<RouteTask>, ledger: Ledger): Mesh {
    Mesh(scene.others[peer.info.key := peer], scene.muxer, central, routing, ledger)
  }

  lemma Extend(actions: seq<Action>, m: Mesh, action: Action, m': Mesh)
    requires Reached(actions, m) && Enabled(m, action) && Next(m, action) == m'
    ensures Reached(actions + [action], m')
  {
    assert (actions + [action])[..|actions|] == actions;
  }

  /** A local action that leaves the ledger alone and is not for the muxer. */
  lemma ExtendLocal(actions: seq<Action>, scene: Scene, peer: Peer, peer': Peer, ledger: Ledger, action: Action)
    requires Reached(actions, With(scene, peer, [], [], ledger))
    requires Local(action) && !action.MuxTakes? && action.key == peer.info.key
    requires NewId(action).None? && Recorded(ledger, action) == ledger
    requires PeerEnabled(peer, action) && PeerStep(peer, action) == peer' && peer'.info == peer.info
    ensures Reached(actions + [action], With(scene, peer', [], [], ledger))
  {
    var m := With(scene, peer, [], [], ledger);
    assert m.peers[peer.info.key := peer'] == scene.others[peer.info.key := peer'];
    Extend(actions, m, action, With(scene, peer', [], [], ledger));
  }

  function At(info: Info, client: Client.ClientState, up: seq<InletFrame>, calls: seq<Server.PortalCall>,
              mux: seq<MeshRequest<Operation>>, down: seq<OutletFrame>): Peer
  {
    Peer(info, client, [], up, calls, Server.FRESH, [], mux, down)
  }

  const IDLE := Client.FRESH.(status := Ready)

  function Waiting(e: ExchangeId, slot: Slot): Client.ClientState { IDLE.(exchanges := map[e := slot]) }

  // ----- portals join

  /** A portal that is connected, live in the muxer, and Ready, with the frames of its start still queued. */
  function JoinedPeer(info: Info): Peer { At(info, IDLE, [InStatus(Initializing)], [], [], [OutInit(info)]) }

  function Alone(info: Info): Scene { Scene(map[], Add(EMPTY, info)) }

  lemma Joins(start: seq<Action>, before: Mesh, scene: Scene, info: Info) returns (actions: seq<Action>)
    requires Reached(start, before) && before == Mesh(scene.others, before.muxer, [], [], BLANK)
    requires scene.muxer == Add(before.muxer, info) && info.key !in scene.others
    ensures Reached(actions, With(scene, JoinedPeer(info), [], [], BLANK))
  {
    var connected := Mesh(scene.others[info.key := NewPeer(info)], before.muxer, [AddPortal(info)], [], BLANK);
    assert [] + [AddPortal(info)] == [AddPortal(info)] && [AddPortal(info)][1..] == [];
    Extend(start, before, Connect(info), connected);
    Extend(start + [Connect(info)], connected, CentralTakes(true), With(scene, NewPeer(info), [], [], BLANK));
    actions := start + [Connect(info)] + [CentralTakes(true)];
    ExtendLocal(actions, scene, NewPeer(info), JoinedPeer(info), BLANK, SetStatus(info.key, Ready, false));
    actions := actions + [SetStatus(info.key, Ready, false)];
  }

  lemma JoinsAlone(info: Info) returns (actions: seq<Action>)
    ensures Reached(actions, With(Alone(info), JoinedPeer(info), [], [], BLANK))
  {
    assert Reached([], START);
    actions := Joins([], START, Alone(info), info);
  }

  // ----- a request on its way to the router

  /** A portal whose client has put this request on the uplink. */
  function Sender(info: Info, client: Client.ClientState, sent: InletRequest): Peer {
    At(info, client, [InStatus(Initializing), InRequest(sent)], [], [], [OutInit(info)])
  }

  /** And when the request has left for the muxer. */
  function Waiter(info: Info, client: Client.ClientState): Peer { At(info, client, [], [], [], [OutInit(info)]) }

  /** The ledger once the exchange is open. */
  function Openings(info: Info, request: InletRequest, e: ExchangeId, slot: Slot): Ledger {
    BLANK.(openings := map[e := ByClient(info.key, slot, request)])
  }

  predicate IsSelect(request: InletRequest) {
    request.kind.RequestResponse? && |request.to| == 1 && request.operation == Resource(Select)
  }

  /** The ledger once the router is done with the request. */
  function Listed(ledger: Ledger, sent: InletRequest, infos: seq<Info>): Ledger {
    if IsSelect(sent) then ledger.(listings := ledger.listings + {Listing(sent.kind.id, infos)}) else ledger
  }

  /** The client registers the exchange and sends its request. */
  lemma Asks(start: seq<Action>, scene: Scene, info: Info, request: InletRequest, e: ExchangeId, slot: Slot)
    returns (actions: seq<Action>)
    requires Reached(start, With(scene, JoinedPeer(info), [], [], BLANK))
    ensures Reached(actions, With(scene, Sender(info, Waiting(e, slot), InletRequest(request.to, request.operation, RequestResponse(e))),
                                  [], [], Openings(info, request, e, slot)))
  {
    var k, sent, open := info.key, Client.Tagged(request, e), Open(info.key, request, e, slot);
    var peer, ledger := JoinedPeer(info), Openings(info, request, e, slot);
    var registered := peer.(client := Waiting(e, slot), opening := [sent]);
    assert IDLE.exchanges[e := slot] == map[e := slot];
    assert PeerStep(peer, open) == registered;
    assert With(scene, peer, [], [], BLANK).peers[k := registered] == scene.others[k := registered];
    Extend(start, With(scene, peer, [], [], BLANK), open, With(scene, registered, [], [], ledger));
    actions := start + [open];
    assert Without([sent], 0) == [];
    ExtendLocal(actions, scene, registered, Sender(info, Waiting(e, slot), sent), ledger, Emit(k, 0, true));
    actions := actions + [Emit(k, 0, true)];
  }

  /** The client notifies. */
  lemma Notifies(start: seq<Action>, scene: Scene, info: Info, request: InletRequest) returns (actions: seq<Action>)
    requires Reached(start, With(scene, JoinedPeer(info), [], [], BLANK))
    ensures Reached(actions, With(scene, Sender(info, IDLE, InletRequest(request.to, request.operation, Notification)), [], [],
                                  BLANK.(notices := {ClientNotice(info.key, request.to, request.operation)})))
  {
    var peer, notify := JoinedPeer(info), Notify(info.key, request, true);
    var peer' := Sender(info, IDLE, InletRequest(request.to, request.operation, Notification));
    assert PeerStep(peer, notify) == peer';
    assert With(scene, peer, [], [], BLANK).peers[info.key := peer'] == scene.others[info.key := peer'];
    Extend(start, With(scene, peer, [], [], BLANK), notify,
           With(scene, peer', [], [], BLANK.(notices := {ClientNotice(info.key, request.to, request.operation)})));
    actions := start + [notify];
  }

  /** The uplink carries the frames to the portal task. */
  lemma Relayed(start: seq<Action>, scene: Scene, info: Info, client: Client.ClientState, sent: InletRequest, ledger: Ledger)
    returns (actions: seq<Action>)
    requires Reached(start, With(scene, Sender(info, client, sent), [], [], ledger))
    ensures var calls := [Server.FrameIn(InStatus(Initializing)), Server.FrameIn(InRequest(sent))];
            Reached(actions, With(scene, At(info, client, [], calls, [], [OutInit(info)]), [], [], ledger))
  {
    var down, first, second, relay := [OutInit(info)], InStatus(Initializing), InRequest(sent), Relay(info.key, true);
    ExtendLocal(start, scene, At(info, client, [first, second], [], [], down),
                At(info, client, [second], [Server.FrameIn(first)], [], down), ledger, relay);
    actions := start + [relay];
    ExtendLocal(actions, scene, At(info, client, [second], [Server.FrameIn(first)], [], down),
                At(info, client, [], [Server.FrameIn(first), Server.FrameIn(second)], [], down), ledger, relay);
    actions := actions + [relay];
  }

  /** The portal task is done with the status in front of the request. */
  lemma Travels(start: seq<Action>, scene: Scene, info: Info, client: Client.ClientState, sent: InletRequest, ledger: Ledger)
    returns (actions: seq<Action>)
    requires Reached(start, With(scene, Sender(info, client, sent), [], [], ledger))
    ensures Reached(actions,
                    With(scene, At(info, client, [], [Server.FrameIn(InRequest(sent))], [], [OutInit(info)]), [], [], ledger))
  {
    var first, second := Server.FrameIn(InStatus(Initializing)), Server.FrameIn(InRequest(sent));
    var down, handle := [OutInit(info)], Handle(info.key, [], true);
    actions := Relayed(start, scene, info, client, sent, ledger);
    ExtendLocal(actions, scene, At(info, client, [], [first, second], [], down), At(info, client, [], [second], [], down),
                ledger, handle);
    actions := actions + [handle];
  }

  /** The request as it is in the mesh. */
  function Asking(info: Info, sent: InletRequest): MeshRequest<Operation>
    requires |sent.to| == 1
  {
    MeshRequest(sent.to[0], ByKey(info.key), sent.operation, sent.kind)
  }

  /** The portal task stamps the request and sends it to the muxer. */
  lemma Stamped(start: seq<Action>, scene: Scene, info: Info, client: Client.ClientState, sent: InletRequest, ledger: Ledger)
    returns (actions: seq<Action>)
    requires |sent.to| == 1 && !sent.kind.NoKind? && Reached(start, With(scene, Sender(info, client, sent), [], [], ledger))
    ensures Reached(actions, With(scene, At(info, client, [], [], [Asking(info, sent)], [OutInit(info)]), [], [], ledger))
  {
    var handle, next, asking := Handle(info.key, [], true), SendNext(info.key, true), Asking(info, sent);
    var taken := At(info, client, [], [Server.FrameIn(InRequest(sent))], [], [OutInit(info)]);
    var fanning := Waiter(info, client).(fan := [asking]);
    actions := Travels(start, scene, info, client, sent, ledger);
    assert Server.MuxSends(info, taken.calls[0]) == [asking];
    ExtendLocal(actions, scene, taken, fanning, ledger, handle);
    actions := actions + [handle];
    assert fanning.mux + If(true, asking) == [asking];
    ExtendLocal(actions, scene, fanning, At(info, client, [], [], [asking], [OutInit(info)]), ledger, next);
    actions := actions + [next];
  }

  lemma TakenUp(scene: Scene, asks: Peer, idle: Peer, asking: MeshRequest<Operation>, ledger: Ledger)
    requires asks.mux == [asking] && idle == asks.(mux := []) && asks.info.key in scene.muxer.portals
    ensures var m := With(scene, asks, [], [], ledger);
            Enabled(m, MuxTakes(asks.info.key))
            && Next(m, MuxTakes(asks.info.key)) == With(scene, idle, [], [Asked(asking)], ledger)
  {
    var k := asks.info.key;
    assert With(scene, asks, [], [], ledger).peers[k := idle] == scene.others[k := idle];
    assert PeerStep(asks, MuxTakes(k)) == idle;
  }

  /** The muxer hands it to the router. */
  lemma Arrives(start: seq<Action>, scene: Scene, info: Info, client: Client.ClientState, sent: InletRequest, ledger: Ledger)
    returns (actions: seq<Action>)
    requires |sent.to| == 1 && !sent.kind.NoKind? && Reached(start, With(scene, Sender(info, client, sent), [], [], ledger))
    requires info.key in scene.muxer.portals
    ensures Reached(actions, With(scene, Waiter(info, client), [], [Asked(Asking(info, sent))], ledger))
  {
    var asking, takes := Asking(info, sent), MuxTakes(info.key);
    var asks, idle := At(info, client, [], [], [asking], [OutInit(info)]), Waiter(info, client);
    actions := Stamped(start, scene, info, client, sent, ledger);
    TakenUp(scene, asks, idle, asking, ledger);
    Extend(actions, With(scene, asks, [], [], ledger), takes, With(scene, idle, [], [Asked(asking)], ledger));
    actions := actions + [takes];
  }

  /** What the router makes of the request: its own answer to a resource operation, else the request. */
  function Sent(info: Info, sent: InletRequest, infos: seq<Info>): Message<ExtOperation>
    requires |sent.to| == 1 && (sent.operation.Resource? ==> sent.kind.RequestResponse?)
  {
    match sent.operation
    case Resource(operation) => Response(MeshResponse(ByKey(info.key), sent.to[0], sent.kind.id, Signal(operation, infos)))
    case Ext(ext) => Request(MeshRequest(sent.to[0], ByKey(info.key), ext, sent.kind))
  }

  /** The router is done: a select was answered with the live portals, any other resource operation with a
      failure, and an ext operation is passed on. */
  lemma Routed(start: seq<Action>, scene: Scene, info: Info, client: Client.ClientState, sent: InletRequest, ledger: Ledger,
               infos: seq<Info>) returns (actions: seq<Action>)
    requires |sent.to| == 1 && !sent.kind.NoKind? && (sent.operation.Resource? ==> sent.kind.RequestResponse?)
    requires Reached(start, With(scene, Sender(info, client, sent), [], [], ledger))
    requires info.key in scene.muxer.portals && (IsSelect(sent) ==> Lists(infos, scene.muxer.portals))
    ensures Reached(actions,
                    With(scene, Waiter(info, client), [MessageOut(Sent(info, sent, infos))], [], Listed(ledger, sent, infos)))
  {
    var ledger', idle, message := Listed(ledger, sent, infos), Waiter(info, client), Sent(info, sent, infos);
    actions := Arrives(start, scene, info, client, sent, ledger);
    var task := if IsSelect(sent) then Selected(Asking(info, sent), infos) else Asked(Asking(info, sent));
    actions := Decides(actions, scene, info, client, sent, ledger, infos, task);
    assert RouterReply(task) == Some(message);
    actions := Speaks(actions, scene, idle, task, message, ledger');
  }

  /** The router task says what it has to and is done. */
  lemma Speaks(start: seq<Action>, scene: Scene, idle: Peer, task: RouteTask, message: Message<ExtOperation>, ledger: Ledger)
    returns (actions: seq<Action>)
    requires Reached(start, With(scene, idle, [], [task], ledger))
    requires (task.Asked? ==> !Selects(task.request)) && RouterReply(task) == Some(message)
    ensures Reached(actions, With(scene, idle, [MessageOut(message)], [], ledger))
  {
    Extend(start, With(scene, idle, [], [task], ledger), RouteReplies(0, true),
           With(scene, idle, [MessageOut(message)], [], ledger));
    actions := start + [RouteReplies(0, true)];
  }

  /** The router task asks the muxer first if it has to. */
  lemma Decides(start: seq<Action>, scene: Scene, info: Info, client: Client.ClientState, sent: InletRequest, ledger: Ledger,
                infos: seq<Info>, task: RouteTask) returns (actions: seq<Action>)
    requires |sent.to| == 1 && (IsSelect(sent) ==> Lists(infos, scene.muxer.portals))
    requires Reached(start, With(scene, Waiter(info, client), [], [Asked(Asking(info, sent))], ledger))
    requires task == if IsSelect(sent) then Selected(Asking(info, sent), infos) else Asked(Asking(info, sent))
    ensures Reached(actions, With(scene, Waiter(info, client), [], [task], Listed(ledger, sent, infos)))
  {
    actions := start;
    if IsSelect(sent) {
      var select, asked := RouteSelects(0, infos), Asked(Asking(info, sent));
      assert [asked][0 := task] == [task];
      Extend(start, With(scene, Waiter(info, client), [], [asked], ledger), select,
             With(scene, Waiter(info, client), [], [task], Listed(ledger, sent, infos)));
      actions := start + [select];
    }
  }

  // ----- from the router to a client

  lemma TakenBack(scene: Scene, idle: Peer, called: Peer, message: Message<ExtOperation>, ledger: Ledger)
    requires GetPortal(scene.muxer, Recipient(message)).Some? && Resolve(scene.muxer, Recipient(message)) == Some(idle.info.key)
    requires idle.calls == [] && called == idle.(calls := [Server.FrameOut(ToFrame(message))])
    ensures var m := With(scene, idle, [MessageOut(message)], [], ledger);
            Next(m, CentralTakes(true)) == With(scene, called, [], [], ledger)
  {
    var k := idle.info.key;
    assert With(scene, idle, [], [], ledger).peers[k := called] == scene.others[k := called];
    assert idle.calls + If(true, Server.FrameOut(ToFrame(message))) == called.calls;
    var m := With(scene, idle, [MessageOut(message)], [], ledger);
    assert m.central[1..] == [];
    assert TakeCentral(m, true) == QueueOut(m.(central := []), k, ToFrame(message), true);
  }

  /** The client takes Init and the frame behind it off the downlink. */
  lemma Received(start: seq<Action>, scene: Scene, peer: Peer, frame: OutletFrame, ledger: Ledger) returns (actions: seq<Action>)
    requires peer.down == [OutInit(peer.info), frame] && Reached(start, With(scene, peer, [], [], ledger))
    ensures Reached(actions,
                    With(scene, peer.(down := [], client := Client.Receive(peer.client, frame, false)), [], [], ledger))
  {
    var receive, rest := Receive(peer.info.key, false), peer.(down := [frame]);
    ExtendLocal(start, scene, peer, rest, ledger, receive);
    actions := start + [receive];
    ExtendLocal(actions, scene, rest, peer.(down := [], client := Client.Receive(peer.client, frame, false)), ledger, receive);
    actions := actions + [receive];
  }

  /** The muxer puts what came from the router into the call queue of the portal it is for, and the portal task
      onto the downlink. */
  lemma Forwarded(start: seq<Action>, scene: Scene, idle: Peer, message: Message<ExtOperation>, ledger: Ledger)
    returns (actions: seq<Action>)
    requires Reached(start, With(scene, idle, [MessageOut(message)], [], ledger))
    requires GetPortal(scene.muxer, Recipient(message)).Some? && Resolve(scene.muxer, Recipient(message)) == Some(idle.info.key)
    requires idle.calls == [] && idle.fan == [] && idle.task.alive && idle.down == [OutInit(idle.info)]
    ensures Reached(actions, With(scene, idle.(down := [OutInit(idle.info), ToFrame(message)]), [], [], ledger))
  {
    var k, frame := idle.info.key, ToFrame(message);
    var called := idle.(calls := [Server.FrameOut(frame)]);
    TakenBack(scene, idle, called, message, ledger);
    Extend(start, With(scene, idle, [MessageOut(message)], [], ledger), CentralTakes(true), With(scene, called, [], [], ledger));
    actions := start + [CentralTakes(true)];
    Server.OneSend(frame, [true]);
    ExtendLocal(actions, scene, called, idle.(down := [OutInit(idle.info), frame]), ledger, Handle(k, [true], true));
    actions := actions + [Handle(k, [true], true)];
  }

  /** And so to its client. */
  lemma Delivered(start: seq<Action>, scene: Scene, idle: Peer, message: Message<ExtOperation>, ledger: Ledger)
    returns (actions: seq<Action>)
    requires Reached(start, With(scene, idle, [MessageOut(message)], [], ledger))
    requires GetPortal(scene.muxer, Recipient(message)).Some? && Resolve(scene.muxer, Recipient(message)) == Some(idle.info.key)
    requires idle.calls == [] && idle.fan == [] && idle.task.alive && idle.down == [OutInit(idle.info)]
    ensures Reached(actions,
                    With(scene, idle.(down := [], client := Client.Receive(idle.client, ToFrame(message), false)), [], [], ledger))
  {
    actions := Forwarded(start, scene, idle, message, ledger);
    actions := Received(actions, scene, idle.(down := [OutInit(idle.info), ToFrame(message)]), ToFrame(message), ledger);
  }

  // ----- exchanges that complete

  /** What the client that opened the exchange is sent in the end. */
  function Answer(info: Info, request: InletRequest, e: ExchangeId): OutletResponse
    requires |request.to| != 1 || request.operation.Resource?
  {
    if |request.to| != 1 then OutletResponse(ByKey(info.key), e, Failure(Server.ONE_RECIPIENT))
    else OutletResponse(request.to[0], e, Signal(request.operation.resource, [info]))
  }

  /** The request of an exchange as the client sends it. */
  function Tagged(request: InletRequest, e: ExchangeId): InletRequest {
    InletRequest(request.to, request.operation, RequestResponse(e))
  }

  /** The portal task itself refuses a request that does not name exactly one recipient. */
  lemma Refused(info: Info, request: InletRequest, e: ExchangeId, slot: Slot) returns (actions: seq<Action>)
    requires |request.to| != 1
    ensures Reached(actions,
                    With(Alone(info), At(info, Waiting(e, slot), [], [], [], [OutInit(info), OutResponse(Answer(info, request, e))]),
                         [], [], Openings(info, request, e, slot)))
  {
    var sent, out, client := Tagged(request, e), OutResponse(Answer(info, request, e)), Waiting(e, slot);
    var ledger, handle := Openings(info, request, e, slot), Handle(info.key, [true], true);
    actions := JoinsAlone(info);
    actions := Asks(actions, Alone(info), info, request, e, slot);
    actions := Travels(actions, Alone(info), info, client, sent, ledger);
    Server.OneSend(out, [true]);
    ExtendLocal(actions, Alone(info), At(info, client, [], [Server.FrameIn(InRequest(sent))], [], [OutInit(info)]),
                At(info, client, [], [], [], [OutInit(info), out]), ledger, handle);
    actions := actions + [handle];
  }

  /** The router answers on behalf of the recipient. */
  lemma Answered(info: Info, request: InletRequest, e: ExchangeId, slot: Slot) returns (actions: seq<Action>)
    requires |request.to| == 1 && request.operation.Resource?
    ensures var client := Client.Receive(Waiting(e, slot), OutResponse(Answer(info, request, e)), false);
            Reached(actions, With(Alone(info), At(info, client, [], [], [], []), [], [],
                                  Listed(Openings(info, request, e, slot), Tagged(request, e), [info])))
  {
    var scene, ledger, client, sent := Alone(info), Openings(info, request, e, slot), Waiting(e, slot), Tagged(request, e);
    actions := JoinsAlone(info);
    actions := Asks(actions, scene, info, request, e, slot);
    actions := Routed(actions, scene, info, client, sent, ledger, [info]);
    actions := Delivered(actions, scene, Waiter(info, client), Sent(info, sent, [info]), Listed(ledger, sent, [info]));
  }

  /** Every request that is refused by its own portal task or answered by the router can complete, from
      any client and under any id: the caller that opened the exchange gets the answer. */
  lemma Completes(info: Info, request: InletRequest, e: ExchangeId, slot: Slot) returns (actions: seq<Action>, m: Mesh)
    requires |request.to| != 1 || request.operation.Resource?
    ensures Reached(actions, m)
    ensures m.ledger == Listed(Openings(info, request, e, slot), Tagged(request, e), [info])
    ensures info.key in m.peers && m.peers[info.key].client.exchanges == map[]
    ensures m.peers[info.key].client.delivered == [Client.Delivery(slot, Answer(info, request, e), true)]
  {
    var out, ledger := OutResponse(Answer(info, request, e)), Listed(Openings(info, request, e, slot), Tagged(request, e), [info]);
    if |request.to| == 1 {
      actions := Answered(info, request, e, slot);
    } else {
      actions := Refused(info, request, e, slot);
      actions := Received(actions, Alone(info), At(info, Waiting(e, slot), [], [], [], [OutInit(info), out]), out, ledger);
    }
    assert Waiting(e, slot).exchanges - {e} == map[];
    m := With(Alone(info), At(info, Client.Receive(Waiting(e, slot), out, false), [], [], [], []), [], [], ledger);
  }

  /** In this state an exchange opened with this request has completed. */
  ghost predicate Completed(m: Mesh, request: InletRequest, e: ExchangeId) {
    && OpenedByClient(m.ledger, e) && m.ledger.openings[e].request == request
    && m.ledger.openings[e].key in m.peers
    && e in DeliveredIds(m.peers[m.ledger.openings[e].key].client.delivered)
  }

  /** An exchange can complete exactly when its request does not have to be answered by another portal: it
      is a resource operation, or is refused because it does not name exactly one recipient. */
  lemma CanComplete(request: InletRequest)
    ensures (exists actions, m, e :: Reached(actions, m) && Completed(m, request, e))
            <==> |request.to| != 1 || request.operation.Resource?
  {
    if actions, m, e :| Reached(actions, m) && Completed(m, request, e) {
      if |request.to| == 1 && request.operation.Ext? {
        ForwardedNeverCompletes(actions, m, e);
        assert false;
      }
    }
    if |request.to| != 1 || request.operation.Resource? {
      var actions, m := Completes(Info("", ""), request, "", 0);
      assert m.peers[""].client.delivered[0].response.exchangeId == "";
      assert Completed(m, request, "");
    }
  }

  // ----- exchanges between two portals

  /** Two portals in the muxer, the second one added last. */
  function Both(from: Info, to: Info): MuxState { Add(Add(EMPTY, from), to) }

  /** Either of two peers may be the one that acts. */
  lemma Refocus(muxer: MuxState, a: Peer, b: Peer, central: seq<MuxCall>, routing: seq<RouteTask>, ledger: Ledger)
    requires a.info.key != b.info.key
    ensures With(Scene(map[a.info.key := a], muxer), b, central, routing, ledger)
         == With(Scene(map[b.info.key := b], muxer), a, central, routing, ledger)
  {
    assert map[a.info.key := a][b.info.key := b] == map[b.info.key := b][a.info.key := a];
  }

  lemma BothJoin(from: Info, to: Info) returns (actions: seq<Action>)
    requires from.key != to.key
    ensures Reached(actions,
                    With(Scene(map[to.key := JoinedPeer(to)], Both(from, to)), JoinedPeer(from), [], [], BLANK))
  {
    var first := With(Alone(from), JoinedPeer(from), [], [], BLANK);
    actions := JoinsAlone(from);
    assert first.peers == map[from.key := JoinedPeer(from)];
    actions := Joins(actions, first, Scene(map[from.key := JoinedPeer(from)], Both(from, to)), to);
    Refocus(Both(from, to), JoinedPeer(from), JoinedPeer(to), [], [], BLANK);
  }

  /** What one portal sends to another gets to a handler there. */
  lemma Crosses(start: seq<Action>, from: Info, client: Client.ClientState, to: Info, sent: InletRequest, ledger: Ledger)
    returns (actions: seq<Action>, m: Mesh)
    requires from.key != to.key && |sent.to| == 1 && sent.operation.Ext? && !sent.kind.NoKind? && Names(sent.to[0], to)
    requires Reached(start, With(Scene(map[to.key := JoinedPeer(to)], Both(from, to)), Sender(from, client, sent), [], [], ledger))
    ensures Reached(actions, m) && m.ledger == ledger && from.key in m.peers && m.peers[from.key].client == client
    ensures to.key in m.peers
    ensures m.peers[to.key].client.running == [OutletRequest(ByKey(from.key), sent.operation.ext, sent.kind)]
  {
    var muxer, message, asker, idle := Both(from, to), Sent(from, sent, []), Waiter(from, client), JoinedPeer(to);
    actions := Routed(start, Scene(map[to.key := idle], muxer), from, client, sent, ledger, []);
    Refocus(muxer, asker, idle, [MessageOut(message)], [], ledger);
    actions := Delivered(actions, Scene(map[from.key := asker], muxer), idle, message, ledger);
    var handling := idle.(down := [], client := Client.Receive(idle.client, ToFrame(message), false));
    m := With(Scene(map[from.key := asker], muxer), handling, [], [], ledger);
  }

  /** Every ext request for one recipient, from any portal and under any id, can get to a handler of any other
      portal that its recipient names by key or by address: unchanged, and stamped with its sender's key. */
  lemma ReachesHandler(from: Info, to: Info, request: InletRequest, e: ExchangeId, slot: Slot)
    returns (actions: seq<Action>, m: Mesh)
    requires from.key != to.key && |request.to| == 1 && request.operation.Ext? && Names(request.to[0], to)
    ensures Reached(actions, m) && m.ledger == Openings(from, request, e, slot)
    ensures from.key in m.peers && m.peers[from.key].client.exchanges == map[e := slot]
    ensures to.key in m.peers
    ensures m.peers[to.key].client.running == [OutletRequest(ByKey(from.key), request.operation.ext, RequestResponse(e))]
  {
    actions := BothJoin(from, to);
    actions := Asks(actions, Scene(map[to.key := JoinedPeer(to)], Both(from, to)), from, request, e, slot);
    actions, m := Crosses(actions, from, Waiting(e, slot), to, Tagged(request, e), Openings(from, request, e, slot));
  }

  /** And so can every notification of an ext operation. */
  lemma NoticeReachesHandler(from: Info, to: Info, request: InletRequest) returns (actions: seq<Action>, m: Mesh)
    requires from.key != to.key && |request.to| == 1 && request.operation.Ext? && Names(request.to[0], to)
    ensures Reached(actions, m) && to.key in m.peers
    ensures m.peers[to.key].client.running == [OutletRequest(ByKey(from.key), request.operation.ext, Notification)]
  {
    actions := BothJoin(from, to);
    actions := Notifies(actions, Scene(map[to.key := JoinedPeer(to)], Both(from, to)), from, request);
    actions, m := Crosses(actions, from, IDLE, to, InletRequest(request.to, request.operation, Notification),
                          BLANK.(notices := {ClientNotice(from.key, request.to, request.operation)}));
  }

  /** And a request to a handler of the portal that sent it, when the recipient names that one. */
  lemma ReachesOwnHandler(info: Info, request: InletRequest, e: ExchangeId, slot: Slot) returns (actions: seq<Action>, m: Mesh)
    requires |request.to| == 1 && request.operation.Ext? && Names(request.to[0], info)
    ensures Reached(actions, m) && m.ledger == Openings(info, request, e, slot)
    ensures info.key in m.peers && m.peers[info.key].client.exchanges == map[e := slot]
    ensures m.peers[info.key].client.running == [OutletRequest(ByKey(info.key), request.operation.ext, RequestResponse(e))]
  {
    var ledger, client, sent := Openings(info, request, e, slot), Waiting(e, slot), Tagged(request, e);
    var asker, message := Waiter(info, client), Sent(info, sent, []);
    actions := JoinsAlone(info);
    actions := Asks(actions, Alone(info), info, request, e, slot);
    actions := Routed(actions, Alone(info), info, client, sent, ledger, []);
    actions := Delivered(actions, Alone(info), asker, message, ledger);
    m := With(Alone(info), asker.(down := [], client := Client.Receive(client, ToFrame(message), false)), [], [], ledger);
  }

  // ----- exchanges the server opens

  /** The portal task is done with the status its client started with. */
  lemma Settles(info: Info) returns (actions: seq<Action>)
    ensures Reached(actions, With(Alone(info), Waiter(info, IDLE), [], [], BLANK))
  {
    var k, scene, joined, idle := info.key, Alone(info), JoinedPeer(info), Waiter(info, IDLE);
    var called := idle.(calls := [Server.FrameIn(InStatus(Initializing))]);
    actions := JoinsAlone(info);
    ExtendLocal(actions, scene, joined, called, BLANK, Relay(k, true));
    actions := actions + [Relay(k, true)];
    ExtendLocal(actions, scene, called, idle, BLANK, Handle(k, [], true));
    actions := actions + [Handle(k, [], true)];
  }

  lemma Registers(info: Info, id: ExchangeId, slot: Slot) returns (actions: seq<Action>)
    ensures Reached(actions, With(Alone(info), Waiter(info, IDLE).(task := Server.FRESH.(exchanges := map[id := slot])),
                                  [], [], BLANK))
  {
    var k, scene, idle := info.key, Alone(info), Waiter(info, IDLE);
    var called, registered := idle.(calls := [Server.Exchange(id, slot)]), idle.(task := Server.FRESH.(exchanges := map[id := slot]));
    actions := Settles(info);
    ExtendLocal(actions, scene, idle, called, BLANK, ServerOpens(k, id, slot));
    actions := actions + [ServerOpens(k, id, slot)];
    assert Server.FRESH.exchanges[id := slot] == map[id := slot];
    ExtendLocal(actions, scene, called, registered, BLANK, Handle(k, [], true));
    actions := actions + [Handle(k, [], true)];
  }

  /** A client's response to an exchange the server opened towards it gets to the caller that opened it. */
  lemma ServerExchangeCompletes(info: Info, id: ExchangeId, slot: Slot, response: InletResponse)
    returns (actions: seq<Action>, m: Mesh)
    requires response.exchangeId == id
    ensures Reached(actions, m) && info.key in m.peers
    ensures m.peers[info.key].task.answered == [Server.Answer(slot, response)] && m.peers[info.key].task.exchanges == map[]
  {
    var registered := Waiter(info, IDLE).(task := Server.FRESH.(exchanges := map[id := slot]));
    var answered := Waiter(info, IDLE).(task := Server.FRESH.(answered := [Server.Answer(slot, response)]));
    actions := Registers(info, id, slot);
    assert map[id := slot] - {id} == map[];
    actions := AnswersServer(actions, Alone(info), registered, answered, response);
    m := With(Alone(info), answered, [], [], BLANK);
  }

  lemma AnswersServer(start: seq<Action>, scene: Scene, registered: Peer, answered: Peer, response: InletResponse)
    returns (actions: seq<Action>)
    requires Reached(start, With(scene, registered, [], [], BLANK))
    requires registered.up == [] && registered.calls == [] && registered.fan == [] && registered.task.alive
    requires response.exchangeId in registered.task.exchanges
    requires answered == registered.(task := registered.task.(
                           exchanges := registered.task.exchanges - {response.exchangeId},
                           answered := registered.task.answered
                                       + [Server.Answer(registered.task.exchanges[response.exchangeId], response)]))
    ensures Reached(actions, With(scene, answered, [], [], BLANK))
  {
    var k, frame := registered.info.key, InResponse(response);
    ExtendLocal(start, scene, registered, registered.(up := [frame]), BLANK, SendOther(k, frame));
    actions := start + [SendOther(k, frame)];
    ExtendLocal(actions, scene, registered.(up := [frame]), registered.(calls := [Server.FrameIn(frame)]), BLANK, Relay(k, true));
    actions := actions + [Relay(k, true)];
    ExtendLocal(actions, scene, registered.(calls := [Server.FrameIn(frame)]), answered, BLANK, Handle(k, [], true));
    actions := actions + [Handle(k, [], true)];
  }

  /** A request server code sends its client reaches a handler there. */
  lemma ServerRequestReaches(info: Info, request: OutletRequest) returns (actions: seq<Action>, m: Mesh)
    ensures Reached(actions, m) && info.key in m.peers && m.peers[info.key].client.running == [request]
  {
    var k, idle, sends := info.key, Waiter(info, IDLE), ServerSends(info.key, OutRequest(request));
    var sent, ledger := idle.(down := [OutInit(info), OutRequest(request)]), Recorded(BLANK, sends);
    actions := Settles(info);
    assert PeerStep(idle, sends) == sent;
    assert With(Alone(info), idle, [], [], BLANK).peers[k := sent] == Alone(info).others[k := sent];
    Extend(actions, With(Alone(info), idle, [], [], BLANK), sends, With(Alone(info), sent, [], [], ledger));
    actions := actions + [sends];
    actions := Received(actions, Alone(info), sent, OutRequest(request), ledger);
    m := With(Alone(info), sent.(down := [], client := Client.Receive(IDLE, OutRequest(request), false)), [], [], ledger);
  }
}
