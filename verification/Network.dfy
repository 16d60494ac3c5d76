/** Everything together: any number of clients with their server portals, the muxer and the router.
    Channels are queues, a send may go through or fail, and every task takes its turns in any order. */
module Network {
  import opened Outcomes
  import opened Messages
  import opened Muxer
  import opened Router
  import Server = ServerPortal
  import Client = ClientPortal

  /** One connection: the client portal, the uplink between them, and the server portal with its queues. */
  datatype Peer = Peer(
    info: Info,
    client: Client.ClientState,
    opening: seq<InletRequest>,            // requests whose callers have registered them and not yet sent them
    up: seq<InletFrame>,                   // taken by the client's inlet, not yet relayed
    calls: seq<Server.PortalCall>,         // the portal task's call queue
    task: Server.TaskState,
    fan: seq<MeshRequest<Operation>>,      // messages of the call in hand that the task has still to send
    mux: seq<MeshRequest<Operation>>,      // the portal's own channel to the muxer
    down: seq<OutletFrame>)                // taken by the outlet, not yet received by the client

  /** A router task: just started, or past its select with the muxer's answer. */
  datatype RouteTask = Asked(request: MeshRequest<Operation>) | Selected(request: MeshRequest<Operation>, infos: seq<Info>)

  /** Where an exchange id comes from: a caller behind a slot gave a client this request to open an exchange
      with, or server code sent its client a request of its own. */
  datatype Origin = ByClient(key: Key, slot: Slot, request: InletRequest) | ByServer(key: Key, sent: OutletRequest)

  /** A request that asks for no response: what a client was given to notify, or what server code sent. */
  datatype Notice =
    | ClientNotice(key: Key, to: seq<Identifier>, operation: Operation)
    | ServerNotice(key: Key, sent: OutletRequest)

  /** What the muxer listed for the select of an exchange. */
  datatype Listing = Listing(id: ExchangeId, infos: seq<Info>)

  /** What has happened so far: every id in use and its origin, every notice, every listing. */
  datatype Ledger = Ledger(openings: map<ExchangeId, Origin>, notices: set<Notice>, listings: set<Listing>)

  datatype Mesh = Mesh(
    peers: map<Key, Peer>,
    muxer: MuxState,
    central: seq<MuxCall>,                 // the muxer's own channel
    routing: seq<RouteTask>,
    ledger: Ledger)

  const BLANK := Ledger(map[], {}, {})
  const START := Mesh(map[], EMPTY, [], [], BLANK)

  datatype Action =
    // at one peer
    | Open(key: Key, request: InletRequest, id: ExchangeId, slot: Slot)
    | Emit(key: Key, index: nat, room: bool)
    | Notify(key: Key, request: InletRequest, room: bool)
    | SendOther(key: Key, frame: InletFrame)
    | SetStatus(key: Key, status: Status, room: bool)
    | Relay(key: Key, room: bool)
    | Handle(key: Key, rooms: seq<bool>, listening: bool)
    | SendNext(key: Key, room: bool)
    | ServerOpens(key: Key, id: ExchangeId, slot: Slot)
    | ServerSends(key: Key, out: OutletFrame)
    | Receive(key: Key, lapses: bool)
    | TimesOut(key: Key, id: ExchangeId)
    | Finish(key: Key, index: nat)
    | MuxTakes(key: Key)
    // elsewhere
    | Connect(info: Info)
    | RouteSelects(index: nat, infos: seq<Info>)
    | RouteDies(index: nat)
    | RouteReplies(index: nat, room: bool)
    | CentralTakes(room: bool)
    | AskRemove(target: Identifier)
    | ChannelClosed(key: Key, room: bool)

  predicate Local(action: Action) {
    !action.Connect? && !action.RouteSelects? && !action.RouteDies? && !action.RouteReplies?
    && !action.CentralTakes? && !action.AskRemove? && !action.ChannelClosed?
  }

  /** The task takes its next call when it has sent the messages of the last one; meanwhile everything else
      goes on. A client registers an exchange and sends its request in two steps; many may be in between.
      Client code may answer with any response and send any other frame, but tags requests only through
      `exchange` and `notify`; server code sends its client anything but responses. A caller can time out
      while its exchange is pending. */
  predicate PeerEnabled(peer: Peer, action: Action)
    requires Local(action)
  {
    match action
    case Emit(_, index, _) => index < |peer.opening|
    case SendOther(_, frame) => !frame.InRequest?
    case Relay(_, _) => peer.up != []
    case Handle(_, _, _) => peer.task.alive && peer.calls != [] && peer.fan == []
    case SendNext(_, _) => peer.fan != []
    case ServerSends(_, out) => !out.OutResponse?
    case Receive(_, _) => peer.down != []
    case TimesOut(_, id) => id in peer.client.exchanges
    case Finish(_, index) => index < |peer.client.running|
    case MuxTakes(_) => peer.mux != []
    case _ => true
  }

  function If<T>(room: bool, item: T): seq<T> { if room then [item] else [] }

  function Without<T>(s: seq<T>, index: nat): seq<T>
    requires index < |s|
  {
    s[..index] + s[index + 1..]
  }

  /** What a local action does to its peer. */
  function PeerStep(peer: Peer, action: Action): Peer
    requires Local(action) && PeerEnabled(peer, action)
  {
    match action
    case Open(_, request, id, slot) =>
      peer.(client := peer.client.(exchanges := peer.client.exchanges[id := slot]),
            opening := peer.opening + [Client.Tagged(request, id)])
    case Emit(_, index, room) =>
      peer.(opening := Without(peer.opening, index), up := peer.up + If(room, InRequest(peer.opening[index])))
    case Notify(_, request, room) => peer.(up := peer.up + If(room, InRequest(request.(kind := Notification))))
    case SendOther(_, frame) => peer.(up := peer.up + [frame])
    case SetStatus(_, status, room) =>
      peer.(client := peer.client.(status := status), up := peer.up + If(room, InStatus(status)))
    case Relay(_, room) => peer.(up := peer.up[1..], calls := peer.calls + If(room, Server.FrameIn(peer.up[0])))
    case Handle(_, rooms, listening) =>
      var call := peer.calls[0];
      peer.(calls := peer.calls[1..],
            task := Server.After(peer.task, call, listening),
            fan := Server.MuxSends(peer.info, call),
            down := peer.down + Server.Taken(Server.OutletSends(peer.info, call), rooms))
    case SendNext(_, room) => peer.(fan := peer.fan[1..], mux := peer.mux + If(room, peer.fan[0]))
    case ServerOpens(_, id, slot) => peer.(calls := peer.calls + [Server.Exchange(id, slot)])
    case ServerSends(_, out) => peer.(down := peer.down + [out])
    case Receive(_, lapses) =>
      peer.(down := peer.down[1..], client := Client.Receive(peer.client, peer.down[0], lapses))
    case TimesOut(_, id) => peer.(client := peer.client.(gaveUp := peer.client.gaveUp + {id}))
    case Finish(_, index) => peer.(client := peer.client.(running := Without(peer.client.running, index)))
    case MuxTakes(_) => peer.(mux := peer.mux[1..])
  }

  /** The id a local action takes into use. */
  function NewId(action: Action): Option<ExchangeId> {
    match action
    case Open(_, _, id, _) => Some(id)
    case ServerSends(_, OutRequest(request)) =>
      if request.kind.RequestResponse? then Some(request.kind.id) else None
    case _ => None
  }

  /** The ledger after a local action. */
  function Recorded(ledger: Ledger, action: Action): Ledger {
    match action
    case Open(key, request, id, slot) =>
      ledger.(openings := ledger.openings[id := ByClient(key, slot, request)])
    case Notify(key, request, _) =>
      ledger.(notices := ledger.notices + {ClientNotice(key, request.to, request.operation)})
    case ServerSends(key, OutRequest(request)) =>
      if request.kind.RequestResponse?
      then ledger.(openings := ledger.openings[request.kind.id := ByServer(key, request)])
      else ledger.(notices := ledger.notices + {ServerNotice(key, request)})
    case _ => ledger
  }

  /** The mesh after a local action that turned its peer into `peer'`. */
  function LocalNext(m: Mesh, action: Action, peer': Peer): Mesh
    requires Local(action) && action.key in m.peers && PeerEnabled(m.peers[action.key], action)
  {
    m.(peers := m.peers[action.key := peer'],
       ledger := Recorded(m.ledger, action),
       routing := m.routing + if action.MuxTakes? then [Asked(m.peers[action.key].mux[0])] else [])
  }

  /** `infos` lists each live portal once. */
  ghost predicate Lists(infos: seq<Info>, portals: map<Key, Info>) {
    && (forall info :: info in infos <==> info.key in portals && portals[info.key] == info)
    && (forall i, j :: 0 <= i < j < |infos| ==> infos[i].key != infos[j].key)
  }

  /** When a step can happen. Keys are never reused and exchange ids are fresh, whoever draws them; the muxer
      takes messages only of live portals. */
  ghost predicate Enabled(m: Mesh, action: Action) {
    if Local(action) then
      && action.key in m.peers && PeerEnabled(m.peers[action.key], action)
      && (NewId(action).Some? ==> NewId(action).value !in m.ledger.openings)
      && (action.MuxTakes? ==> action.key in m.muxer.portals)
    else
      match action
      case Connect(info) => info.key !in m.peers
      case RouteSelects(index, infos) =>
        && index < |m.routing| && m.routing[index].Asked? && Selects(m.routing[index].request)
        && Lists(infos, m.muxer.portals)
      case RouteDies(index) => index < |m.routing|
      case RouteReplies(index, _) =>
        index < |m.routing| && (m.routing[index].Asked? ==> !Selects(m.routing[index].request))
      case CentralTakes(_) => m.central != []
      case _ => true
  }

  /** A connection that just got through its handshake. */
  function NewPeer(info: Info): Peer {
    Peer(info, Client.FRESH, [], [InStatus(Initializing)], [], Server.FRESH, [], [], [OutInit(info)])
  }

  /** A portal that leaves the muxer is sent Close. What it had queued for the muxer is never taken:
      its key does not come back. */
  function Shutdown(m: Mesh, key: Key, room: bool): Mesh {
    if key in m.peers then m.(peers := m.peers[key := m.peers[key].(down := m.peers[key].down + If(room, OutClose))])
    else m
  }

  /** A frame for a portal enters its call queue. */
  function QueueOut(m: Mesh, key: Key, frame: OutletFrame, room: bool): Mesh {
    if key in m.peers then
      m.(peers := m.peers[key := m.peers[key].(calls := m.peers[key].calls + If(room, Server.FrameOut(frame)))])
    else m
  }

  /** The muxer's turn on a call from its own channel. */
  function TakeCentral(m: Mesh, room: bool): Mesh
    requires m.central != []
  {
    var later := m.(central := m.central[1..]);
    match m.central[0]
    case AddPortal(info) => later.(muxer := Add(m.muxer, info))
    case RemovePortal(id) =>
      var removed := later.(muxer := Remove(m.muxer, id));
      if GetPortal(m.muxer, id).Some? then Shutdown(removed, Resolve(m.muxer, id).value, room) else removed
    case MessageIn(message) =>
      (match message
       case Request(request) => later.(routing := m.routing + [Asked(request)])
       case Response(response) => later.(central := later.central + [MessageOut(Response(response))]))
    case MessageOut(message) =>
      if GetPortal(m.muxer, Recipient(message)).Some? then
        QueueOut(later, Resolve(m.muxer, Recipient(message)).value, ToFrame(message), room)
      else later
  }

  /** What the router task has to say when it finishes. */
  function RouterReply(task: RouteTask): Option<Message<ExtOperation>> {
    Route(Request(task.request), if task.Selected? then task.infos else [])
  }

  function Next(m: Mesh, action: Action): Mesh
    requires Enabled(m, action)
  {
    if Local(action) then LocalNext(m, action, PeerStep(m.peers[action.key], action))
    else
      match action
      case Connect(info) =>
        m.(peers := m.peers[info.key := NewPeer(info)], central := m.central + [AddPortal(info)])
      case RouteSelects(index, infos) =>
        var request := m.routing[index].request;
        m.(routing := m.routing[index := Selected(request, infos)],
           ledger := m.ledger.(listings := m.ledger.listings + {Listing(request.kind.id, infos)}))
      case RouteDies(index) => m.(routing := Without(m.routing, index))
      case RouteReplies(index, room) =>
        var reply := RouterReply(m.routing[index]);
        m.(routing := Without(m.routing, index),
           central := m.central + if reply.Some? then If(room, MessageOut(reply.value)) else [])
      case CentralTakes(room) => TakeCentral(m, room)
      case AskRemove(id) => m.(central := m.central + [RemovePortal(id)])
      case ChannelClosed(key, room) =>
        var closed := m.(muxer := Closed(m.muxer, key));
        if key in m.muxer.portals then Shutdown(closed, key, room) else closed
  }

  /** The mesh after a run of steps, or None when some step could not happen. */
  ghost function Run(actions: seq<Action>): Option<Mesh> {
    if actions == [] then Some(START)
    else
      match Run(actions[..|actions| - 1])
      case None => None
      case Some(m) =>
        var action := actions[|actions| - 1];
        if Enabled(m, action) then Some(Next(m, action)) else None
  }

  ghost predicate Reached(actions: seq<Action>, m: Mesh) { Run(actions) == Some(m) }

  /** The mesh after going on from `m` with these steps, or None when some step could not happen. */
  ghost function RunFrom(m: Mesh, more: seq<Action>): Option<Mesh> {
    if more == [] then Some(m)
    else
      match RunFrom(m, more[..|more| - 1])
      case None => None
      case Some(before) =>
        var action := more[|more| - 1];
        if Enabled(before, action) then Some(Next(before, action)) else None
  }

  ghost predicate Continues(m: Mesh, more: seq<Action>, m': Mesh) { RunFrom(m, more) == Some(m') }

  /** A run goes on to another run. */
  lemma {:induction false} GoesOn(actions: seq<Action>, m: Mesh, more: seq<Action>)
    requires Reached(actions, m)
    ensures Run(actions + more) == RunFrom(m, more)
  {
    if more == [] {
      assert actions + more == actions;
    } else {
      GoesOn(actions, m, more[..|more| - 1]);
      assert (actions + more)[..|actions + more| - 1] == actions + more[..|more| - 1];
    }
  }
}
