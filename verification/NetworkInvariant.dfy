/** The invariant of the mesh: where the carrier of each exchange is, and what every queue and table
    may hold. */
module NetworkInvariant {
  import opened Outcomes
  import opened Messages
  import opened Seqs
  import opened Muxer
  import opened Router
  import opened Network
  import Server = ServerPortal
  import Client = ClientPortal

  /** Where the one carrier of an exchange is: its request on the way in and, passed on by the router, in the
      portal it was for up to the handler that runs on it; or its response on the way back. `Gone` when it
      was delivered or dropped, or when the handler has finished. */
  datatype Place =
    | Opening(key: Key)
    | Up(key: Key)
    | Calls(key: Key)
    | Sending(key: Key)
    | ToMux(key: Key)
    | Down(key: Key)
    | Running(key: Key)
    | Routing
    | Central
    | Gone

  type Places = map<ExchangeId, Place>

  function KindToken(kind: ExchangeKind): Option<ExchangeId> {
    if kind.RequestResponse? then Some(kind.id) else None
  }

  function OpenToken(request: InletRequest): Option<ExchangeId> { KindToken(request.kind) }

  function UpToken(frame: InletFrame): Option<ExchangeId> {
    if frame.InRequest? then KindToken(frame.request.kind) else None
  }

  function DownToken(frame: OutletFrame): Option<ExchangeId> {
    match frame
    case OutRequest(request) => KindToken(request.kind)
    case OutResponse(response) => Some(response.exchangeId)
    case _ => None
  }

  function CallToken(call: Server.PortalCall): Option<ExchangeId> {
    match call
    case FrameIn(frame) => UpToken(frame)
    case FrameOut(out) => DownToken(out)
    case Exchange(_, _) => None
  }

  function MuxToken(request: MeshRequest<Operation>): Option<ExchangeId> { KindToken(request.kind) }

  function RouteToken(task: RouteTask): Option<ExchangeId> { KindToken(task.request.kind) }

  function CentralToken(call: MuxCall): Option<ExchangeId> {
    if call.MessageOut? then DownToken(ToFrame(call.outbound)) else None
  }

  function RunToken(request: OutletRequest): Option<ExchangeId> { KindToken(request.kind) }

  /** The carriers in a queue are placed there, and none of them is there twice. */
  ghost predicate Holds<T(!new)>(queue: seq<T>, token: T -> Option<ExchangeId>, places: Places, here: Place) {
    && (forall i :: 0 <= i < |queue| && token(queue[i]).Some? ==>
          token(queue[i]).value in places && places[token(queue[i]).value] == here)
    && (forall i, j :: 0 <= i < j < |queue| && token(queue[i]).Some? ==> token(queue[i]) != token(queue[j]))
  }

  /** Nothing that is `here` moves away. */
  ghost predicate Stays(places: Places, places': Places, here: Place) {
    forall e :: e in places && places[e] == here ==> e in places' && places'[e] == here
  }

  lemma HoldsStays<T(!new)>(queue: seq<T>, token: T -> Option<ExchangeId>, places: Places, places': Places, here: Place)
    requires Holds(queue, token, places, here) && Stays(places, places', here)
    ensures Holds(queue, token, places', here)
  {}

  /** The carrier, if there is one, comes here from elsewhere. */
  ghost predicate Arrives(token: Option<ExchangeId>, places: Places, places': Places, here: Place) {
    token.Some? ==>
      && (token.value !in places || places[token.value] != here)
      && token.value in places' && places'[token.value] == here
  }

  lemma HoldsPush<T(!new)>(queue: seq<T>, room: bool, item: T, token: T -> Option<ExchangeId>,
                           places: Places, places': Places, here: Place)
    requires Holds(queue, token, places, here) && Stays(places, places', here)
    requires room ==> Arrives(token(item), places, places', here)
    ensures Holds(queue + If(room, item), token, places', here)
  {
    assert !room ==> queue + If(room, item) == queue;
  }

  /** Where the carrier of `token`, if there is one, goes. */
  function Moved(places: Places, token: Option<ExchangeId>, to: Place): Places {
    if token.None? then places else places[token.value := to]
  }

  lemma HoldsPop<T(!new)>(queue: seq<T>, token: T -> Option<ExchangeId>, places: Places, here: Place, to: Place)
    requires queue != [] && Holds(queue, token, places, here)
    ensures Holds(queue[1..], token, Moved(places, token(queue[0]), to), here)
  {
    var rest := queue[1..];
    assert forall i :: 0 <= i < |rest| ==> rest[i] == queue[i + 1];
  }

  lemma HoldsDrop<T(!new)>(queue: seq<T>, index: nat, token: T -> Option<ExchangeId>, places: Places, here: Place, to: Place)
    requires index < |queue| && Holds(queue, token, places, here)
    ensures Holds(queue[..index] + queue[index + 1..], token, Moved(places, token(queue[index]), to), here)
  {
    var rest := queue[..index] + queue[index + 1..];
    forall i: nat | i < |rest| ensures rest[i] == queue[if i < index then i else i + 1] {
      WithoutAt(queue, index, i);
    }
  }

  // ----- what requests and responses may be under way

  /** What counts as the reply to an opened exchange: a refusal by its own portal task unless it names
      exactly one recipient, else the router's answer on behalf of that recipient. A select is answered by a
      listing the muxer made for this exchange. Ext operations are passed on and get no reply. */
  ghost predicate IsReply(ledger: Ledger, response: OutletResponse)
    requires response.exchangeId in ledger.openings && ledger.openings[response.exchangeId].ByClient?
  {
    var opening := ledger.openings[response.exchangeId];
    var request := opening.request;
    if |request.to| != 1 then
      response.from == ByKey(opening.key) && response.signal == Failure(Server.ONE_RECIPIENT)
    else
      && response.from == request.to[0]
      && request.operation.Resource?
      && (if request.operation.resource.Select?
          then response.signal.Success? && response.signal.entity.Stubs?
               && Listing(response.exchangeId, response.signal.entity.infos) in ledger.listings
          else response.signal == Failure(PRIMITIVE))
  }

  ghost predicate OpenedByClient(ledger: Ledger, e: ExchangeId) {
    e in ledger.openings && ledger.openings[e].ByClient?
  }

  /** A response on its way to the client with this key is a reply to an exchange that client opened. */
  ghost predicate ResponseOk(ledger: Ledger, key: Key, response: OutletResponse) {
    && OpenedByClient(ledger, response.exchangeId)
    && ledger.openings[response.exchangeId].key == key
    && IsReply(ledger, response)
  }

  /** A request between a client and the muxer has the recipients and the operation it was given with. */
  ghost predicate Logged(ledger: Ledger, key: Key, request: InletRequest) {
    match request.kind
    case NoKind => false
    case Notification => ClientNotice(key, request.to, request.operation) in ledger.notices
    case RequestResponse(e) =>
      && OpenedByClient(ledger, e) && ledger.openings[e].key == key
      && request == InletRequest(ledger.openings[e].request.to, ledger.openings[e].request.operation, RequestResponse(e))
  }

  ghost predicate CopyOfNotice(ledger: Ledger, request: MeshRequest<Operation>, key: Key, to: seq<Identifier>) {
    && ClientNotice(key, to, request.operation) in ledger.notices
    && request.to in to && request.from == ByKey(key)
  }

  /** A request in the mesh is a copy, stamped with its sender's key, of one a client was given: of an exchange's
      to its one recipient, or of a notification to one of its recipients. */
  ghost predicate RequestOk(ledger: Ledger, request: MeshRequest<Operation>) {
    match request.kind
    case NoKind => false
    case Notification => exists key, to :: CopyOfNotice(ledger, request, key, to)
    case RequestResponse(e) =>
      && OpenedByClient(ledger, e) && |ledger.openings[e].request.to| == 1
      && request == MeshRequest(ledger.openings[e].request.to[0], ByKey(ledger.openings[e].key),
                                ledger.openings[e].request.operation, RequestResponse(e))
  }

  /** Does the identifier name this portal? */
  predicate Names(id: Identifier, info: Info) { id == ByKey(info.key) || id == ByAddress(info.address) }

  ghost predicate PassedNotice(ledger: Ledger, info: Info, request: OutletRequest, key: Key, tos: seq<Identifier>, to: Identifier) {
    && ClientNotice(key, tos, Ext(request.operation)) in ledger.notices
    && to in tos && Names(to, info) && request.from == ByKey(key) && request.kind == Notification
  }

  /** A request at the portal with this info was sent by server code to this very portal, or given to a client
      for a recipient that names this portal, and arrives with its operation and its sender's key. */
  ghost predicate RequestAt(ledger: Ledger, info: Info, request: OutletRequest) {
    match request.kind
    case RequestResponse(e) =>
      e in ledger.openings &&
      (match ledger.openings[e]
       case ByClient(key, _, given) =>
         && |given.to| == 1 && Names(given.to[0], info)
         && given.operation == Ext(request.operation) && request.from == ByKey(key)
       case ByServer(key, sent) => key == info.key && sent == request)
    case _ =>
      || ServerNotice(info.key, request) in ledger.notices
      || exists key, tos, to :: PassedNotice(ledger, info, request, key, tos, to)
  }

  // ----- the queues

  ghost predicate UpOk(ledger: Ledger, key: Key, frame: InletFrame) {
    frame.InRequest? ==> Logged(ledger, key, frame.request)
  }

  ghost predicate DownOk(ledger: Ledger, info: Info, frame: OutletFrame) {
    match frame
    case OutRequest(request) => RequestAt(ledger, info, request)
    case OutResponse(response) => ResponseOk(ledger, info.key, response)
    case _ => true
  }

  ghost predicate CallOk(ledger: Ledger, info: Info, call: Server.PortalCall) {
    match call
    case FrameIn(frame) => UpOk(ledger, info.key, frame)
    case FrameOut(out) => DownOk(ledger, info, out)
    case Exchange(_, _) => true
  }

  ghost predicate MuxOk(ledger: Ledger, key: Key, request: MeshRequest<Operation>) {
    RequestOk(ledger, request) && request.from == ByKey(key)
  }

  ghost predicate RouteOk(ledger: Ledger, task: RouteTask) {
    && RequestOk(ledger, task.request)
    && (task.Selected? && RouteToken(task).Some? ==> Listing(RouteToken(task).value, task.infos) in ledger.listings)
  }

  /** The request an ext request was before it was passed on. */
  function Widened(request: MeshRequest<ExtOperation>): MeshRequest<Operation> {
    MeshRequest(request.to, request.from, Ext(request.operation), request.kind)
  }

  ghost predicate MessageOk(ledger: Ledger, message: Message<ExtOperation>) {
    match message
    case Request(request) => RequestOk(ledger, Widened(request))
    case Response(response) =>
      && OpenedByClient(ledger, response.exchangeId)
      && response.to == ByKey(ledger.openings[response.exchangeId].key)
      && IsReply(ledger, ToOutletResponse(response))
  }

  ghost predicate CentralOk(ledger: Ledger, infos: map<Key, Info>, call: MuxCall) {
    match call
    case AddPortal(info) => info.key in infos && infos[info.key] == info
    case RemovePortal(_) => true
    case MessageIn(_) => false
    case MessageOut(message) => MessageOk(ledger, message)
  }

  ghost predicate OpenLane(ledger: Ledger, places: Places, key: Key, opening: seq<InletRequest>) {
    Holds(opening, OpenToken, places, Opening(key)) && forall i :: 0 <= i < |opening| ==> Logged(ledger, key, opening[i])
  }

  ghost predicate UpLane(ledger: Ledger, places: Places, key: Key, up: seq<InletFrame>) {
    Holds(up, UpToken, places, Up(key)) && forall i :: 0 <= i < |up| ==> UpOk(ledger, key, up[i])
  }

  ghost predicate CallLane(ledger: Ledger, places: Places, info: Info, calls: seq<Server.PortalCall>) {
    Holds(calls, CallToken, places, Calls(info.key)) && forall i :: 0 <= i < |calls| ==> CallOk(ledger, info, calls[i])
  }

  ghost predicate MuxLane(ledger: Ledger, places: Places, key: Key, mux: seq<MeshRequest<Operation>>) {
    Holds(mux, MuxToken, places, ToMux(key)) && forall i :: 0 <= i < |mux| ==> MuxOk(ledger, key, mux[i])
  }

  ghost predicate FanLane(ledger: Ledger, places: Places, key: Key, fan: seq<MeshRequest<Operation>>) {
    Holds(fan, MuxToken, places, Sending(key)) && forall i :: 0 <= i < |fan| ==> MuxOk(ledger, key, fan[i])
  }

  ghost predicate DownLane(ledger: Ledger, places: Places, info: Info, down: seq<OutletFrame>) {
    Holds(down, DownToken, places, Down(info.key)) && forall i :: 0 <= i < |down| ==> DownOk(ledger, info, down[i])
  }

  ghost predicate RunLane(ledger: Ledger, places: Places, info: Info, running: seq<OutletRequest>) {
    && Holds(running, RunToken, places, Running(info.key))
    && forall i :: 0 <= i < |running| ==> RequestAt(ledger, info, running[i])
  }

  ghost predicate RouteLane(ledger: Ledger, places: Places, routing: seq<RouteTask>) {
    Holds(routing, RouteToken, places, Routing) && forall i :: 0 <= i < |routing| ==> RouteOk(ledger, routing[i])
  }

  ghost predicate CentralLane(ledger: Ledger, infos: map<Key, Info>, places: Places, central: seq<MuxCall>) {
    Holds(central, CentralToken, places, Central)
    && forall i :: 0 <= i < |central| ==> CentralOk(ledger, infos, central[i])
  }

  // ----- the tables

  ghost predicate DeliveryOk(ledger: Ledger, places: Places, key: Key, d: Client.Delivery) {
    && ResponseOk(ledger, key, d.response)
    && ledger.openings[d.response.exchangeId].slot == d.slot
    && d.response.exchangeId in places && places[d.response.exchangeId] == Gone
  }

  function DeliveredIds(delivered: seq<Client.Delivery>): set<ExchangeId> {
    set i | 0 <= i < |delivered| :: delivered[i].response.exchangeId
  }

  /** An exchange the client with this key opened. */
  ghost predicate Opened(ledger: Ledger, key: Key, e: ExchangeId) {
    OpenedByClient(ledger, e) && ledger.openings[e].key == key
  }

  /** Each pending entry is an exchange the client opened, with the slot of its caller. */
  ghost predicate PendingOk(ledger: Ledger, key: Key, exchanges: map<ExchangeId, Slot>) {
    forall e :: e in exchanges ==> Opened(ledger, key, e) && ledger.openings[e].slot == exchanges[e]
  }

  /** Each delivery was a reply to an exchange the client opened, into its slot, and its only one. */
  ghost predicate DeliveriesOk(ledger: Ledger, places: Places, key: Key, delivered: seq<Client.Delivery>) {
    && (forall i :: 0 <= i < |delivered| ==> DeliveryOk(ledger, places, key, delivered[i]))
    && (forall i, j :: 0 <= i < j < |delivered| ==>
          delivered[i].response.exchangeId != delivered[j].response.exchangeId)
  }

  /** The exchanges a client opened are pending or completed, never both, and one whose carrier is still
      under way is pending. */
  ghost predicate BalanceOk(ledger: Ledger, places: Places, key: Key, pending: set<ExchangeId>, completed: set<ExchangeId>) {
    forall e :: Opened(ledger, key, e) ==>
      && (e in pending <==> e !in completed)
      && (e in places && places[e] != Gone ==> e in pending)
  }

  /** The tables of a client; no response ever failed to find its exchange. */
  ghost predicate ClientOk(ledger: Ledger, places: Places, key: Key, client: Client.ClientState) {
    && PendingOk(ledger, key, client.exchanges)
    && DeliveriesOk(ledger, places, key, client.delivered)
    && BalanceOk(ledger, places, key, client.exchanges.Keys, DeliveredIds(client.delivered))
    && client.unmatched == []
  }

  ghost predicate PeerOk(ledger: Ledger, places: Places, info: Info, peer: Peer) {
    && peer.info == info
    && OpenLane(ledger, places, info.key, peer.opening)
    && UpLane(ledger, places, info.key, peer.up)
    && CallLane(ledger, places, info, peer.calls)
    && FanLane(ledger, places, info.key, peer.fan)
    && MuxLane(ledger, places, info.key, peer.mux)
    && DownLane(ledger, places, info, peer.down)
    && RunLane(ledger, places, info, peer.client.running)
    && ClientOk(ledger, places, info.key, peer.client)
  }

  function Infos(peers: map<Key, Peer>): map<Key, Info> { map k | k in peers :: peers[k].info }

  /** Each portal is filed under its own key. */
  ghost predicate ByOwnKey(infos: map<Key, Info>) { forall k :: k in infos ==> infos[k].key == k }

  /** The muxer knows only portals that connected, and addresses only under the portal that has them. */
  ghost predicate MuxerOk(infos: map<Key, Info>, muxer: MuxState) {
    && muxer.portals.Keys <= infos.Keys
    && (forall a :: a in muxer.addressToKey ==>
          muxer.addressToKey[a] in infos && infos[muxer.addressToKey[a]].address == a)
  }

  ghost predicate TablesOk(ledger: Ledger, infos: map<Key, Info>, places: Places) {
    && places.Keys == ledger.openings.Keys
    && (forall e :: e in ledger.openings ==> ledger.openings[e].key in infos)
    && ByOwnKey(infos)
  }

  /** What lies outside the peers. */
  ghost predicate CoreOk(m: Mesh, places: Places) {
    && TablesOk(m.ledger, Infos(m.peers), places)
    && MuxerOk(Infos(m.peers), m.muxer)
    && RouteLane(m.ledger, places, m.routing)
    && CentralLane(m.ledger, Infos(m.peers), places, m.central)
  }

  ghost predicate Inv(m: Mesh, places: Places) {
    && CoreOk(m, places)
    && (forall k :: k in m.peers ==> PeerOk(m.ledger, places, m.peers[k].info, m.peers[k]))
  }

  // ----- how one step relates to the next

  /** No carrier enters or leaves the queues of the peer, and none comes back from `Gone`. */
  ghost predicate Elsewhere(places: Places, places': Places, key: Key) {
    && Stays(places, places', Opening(key)) && Stays(places, places', Up(key)) && Stays(places, places', Calls(key))
    && Stays(places, places', Sending(key)) && Stays(places, places', ToMux(key)) && Stays(places, places', Down(key))
    && Stays(places, places', Running(key)) && Stays(places, places', Gone)
  }

  /** Nothing is ever struck from the ledger. */
  ghost predicate Extends(ledger: Ledger, ledger': Ledger) {
    && (forall e :: e in ledger.openings ==> e in ledger'.openings && ledger'.openings[e] == ledger.openings[e])
    && ledger.notices <= ledger'.notices && ledger.listings <= ledger'.listings
  }

  /** The exchanges opened since are not this client's. */
  ghost predicate NotBy(ledger: Ledger, ledger': Ledger, key: Key) {
    forall e :: Opened(ledger', key, e) ==> Opened(ledger, key, e)
  }

  // ----- a larger ledger bears out the same frames

  lemma RequestStays(ledger: Ledger, ledger': Ledger, request: MeshRequest<Operation>)
    requires RequestOk(ledger, request) && Extends(ledger, ledger')
    ensures RequestOk(ledger', request)
  {
    if request.kind.Notification? {
      var key, to :| CopyOfNotice(ledger, request, key, to);
      assert CopyOfNotice(ledger', request, key, to);
    }
  }

  lemma RequestAtStays(ledger: Ledger, ledger': Ledger, info: Info, request: OutletRequest)
    requires RequestAt(ledger, info, request) && Extends(ledger, ledger')
    ensures RequestAt(ledger', info, request)
  {
    if !request.kind.RequestResponse? && ServerNotice(info.key, request) !in ledger.notices {
      var key, tos, to :| PassedNotice(ledger, info, request, key, tos, to);
      assert PassedNotice(ledger', info, request, key, tos, to);
    }
  }

  lemma DownOkStays(ledger: Ledger, ledger': Ledger, info: Info, frame: OutletFrame)
    requires DownOk(ledger, info, frame) && Extends(ledger, ledger')
    ensures DownOk(ledger', info, frame)
  {
    if frame.OutRequest? {
      RequestAtStays(ledger, ledger', info, frame.request);
    }
  }

  lemma CallOkStays(ledger: Ledger, ledger': Ledger, info: Info, call: Server.PortalCall)
    requires CallOk(ledger, info, call) && Extends(ledger, ledger')
    ensures CallOk(ledger', info, call)
  {
    if call.FrameOut? {
      DownOkStays(ledger, ledger', info, call.out);
    }
  }

  lemma CentralOkStays(ledger: Ledger, ledger': Ledger, infos: map<Key, Info>, infos': map<Key, Info>, call: MuxCall)
    requires CentralOk(ledger, infos, call) && Extends(ledger, ledger')
    requires forall k :: k in infos ==> k in infos' && infos'[k] == infos[k]
    ensures CentralOk(ledger', infos', call)
  {
    if call.MessageOut? && call.outbound.Request? {
      RequestStays(ledger, ledger', Widened(call.outbound.request));
    }
  }
}
