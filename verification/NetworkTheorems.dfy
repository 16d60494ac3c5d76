/** What follows for every run of the mesh, with any number of portals. */
module NetworkTheorems {
  import opened Outcomes
  import opened Messages
  import opened Muxer
  import Seqs
  import opened Network
  import opened NetworkInvariant
  import opened NetworkSteps
  import opened NetworkPeers
  import Server = ServerPortal
  import Client = ClientPortal

  // ----- completed exchanges

  /** Correlation: whatever completes at a client is the reply to an exchange this client opened, and it
      went to the caller that opened it. */
  lemma Correlation(actions: seq<Action>, m: Mesh, key: Key, i: nat)
    requires Reached(actions, m) && key in m.peers && i < |m.peers[key].client.delivered|
    ensures var d := m.peers[key].client.delivered[i];
            && Opened(m.ledger, key, d.response.exchangeId)
            && m.ledger.openings[d.response.exchangeId].slot == d.slot
            && IsReply(m.ledger, d.response)
  {
    var places := RunKeeps(actions, m);
    PeerInOrder(m, places, key);
    assert DeliveryOk(m.ledger, places, key, m.peers[key].client.delivered[i]);
  }

  lemma PeerInOrder(m: Mesh, places: Places, key: Key)
    requires Inv(m, places) && key in m.peers
    ensures m.peers[key].info.key == key && PeerOk(m.ledger, places, m.peers[key].info, m.peers[key])
    ensures ClientOk(m.ledger, places, key, m.peers[key].client)
  {
    assert Infos(m.peers)[key].key == key;
  }

  /** At most once: no exchange completes twice, at one client or at two. */
  lemma CompletesOnce(actions: seq<Action>, m: Mesh, key: Key, i: nat, key': Key, j: nat)
    requires Reached(actions, m)
    requires key in m.peers && i < |m.peers[key].client.delivered|
    requires key' in m.peers && j < |m.peers[key'].client.delivered|
    requires m.peers[key].client.delivered[i].response.exchangeId == m.peers[key'].client.delivered[j].response.exchangeId
    ensures key == key' && i == j
  {
    Correlation(actions, m, key, i);
    Correlation(actions, m, key', j);
    var places := RunKeeps(actions, m);
    PeerInOrder(m, places, key);
    assert DeliveriesOk(m.ledger, places, key, m.peers[key].client.delivered);
  }

  /** A client's exchanges are exactly the pending and the completed ones, and no response it handled while
      Ready ever failed to find its exchange. */
  lemma PendingOrCompleted(actions: seq<Action>, m: Mesh, key: Key, e: ExchangeId)
    requires Reached(actions, m) && key in m.peers
    ensures var client := m.peers[key].client;
            && (Opened(m.ledger, key, e) <==> e in client.exchanges || e in DeliveredIds(client.delivered))
            && !(e in client.exchanges && e in DeliveredIds(client.delivered))
            && client.unmatched == []
  {
    var places := RunKeeps(actions, m);
    PeerInOrder(m, places, key);
  }

  // ----- what is under way

  /** The i-th item of a queue of this peer carries the exchange: its request, registered and not yet sent, on
      the way to the muxer or, passed on, to the handler that runs on it; or the response on the way back. */
  predicate CarriedBy(peer: Peer, e: ExchangeId, place: Place, i: nat) {
    match place
    case Opening(_) => i < |peer.opening| && OpenToken(peer.opening[i]) == Some(e)
    case Up(_) => i < |peer.up| && UpToken(peer.up[i]) == Some(e)
    case Calls(_) => i < |peer.calls| && CallToken(peer.calls[i]) == Some(e)
    case Sending(_) => i < |peer.fan| && MuxToken(peer.fan[i]) == Some(e)
    case ToMux(_) => i < |peer.mux| && MuxToken(peer.mux[i]) == Some(e)
    case Down(_) => i < |peer.down| && DownToken(peer.down[i]) == Some(e)
    case Running(_) => i < |peer.client.running| && RunToken(peer.client.running[i]) == Some(e)
    case _ => false
  }

  /** The i-th item of the queue at this place carries the exchange. */
  predicate CarriedAt(m: Mesh, e: ExchangeId, place: Place, i: nat) {
    match place
    case Routing => i < |m.routing| && RouteToken(m.routing[i]) == Some(e)
    case Central => i < |m.central| && CentralToken(m.central[i]) == Some(e)
    case Gone => false
    case _ => place.key in m.peers && CarriedBy(m.peers[place.key], e, place, i)
  }

  lemma CarriedByPeer(ledger: Ledger, places: Places, info: Info, peer: Peer, e: ExchangeId, place: Place, i: nat)
    requires PeerOk(ledger, places, info, peer) && CarriedBy(peer, e, place, i) && place.key == info.key
    ensures e in places && places[e] == place
    ensures forall j :: CarriedBy(peer, e, place, j) ==> j == i
  {
    match place
    case Opening(_) => assert OpenLane(ledger, places, info.key, peer.opening);
    case Up(_) => assert UpLane(ledger, places, info.key, peer.up);
    case Calls(_) => assert CallLane(ledger, places, info, peer.calls);
    case Sending(_) => assert FanLane(ledger, places, info.key, peer.fan);
    case ToMux(_) => assert MuxLane(ledger, places, info.key, peer.mux);
    case Down(_) => assert DownLane(ledger, places, info, peer.down);
    case Running(_) => assert RunLane(ledger, places, info, peer.client.running);
  }

  lemma CarriedIsPlaced(m: Mesh, places: Places, e: ExchangeId, place: Place, i: nat)
    requires Inv(m, places) && CarriedAt(m, e, place, i)
    ensures e in places && places[e] == place && place != Gone
    ensures forall j :: CarriedAt(m, e, place, j) ==> j == i
  {
    if !place.Routing? && !place.Central? {
      PeerInOrder(m, places, place.key);
      CarriedByPeer(m.ledger, places, m.peers[place.key].info, m.peers[place.key], e, place, i);
    }
  }

  /** Registration before send: an exchange with anything under way is pending at the client that opened
      it and has not completed, whether or not its caller still waits. What else can be under way is a
      request server code sent to its own client. */
  lemma InFlightIsPending(actions: seq<Action>, m: Mesh, e: ExchangeId, place: Place, i: nat)
    requires Reached(actions, m) && CarriedAt(m, e, place, i)
    ensures e in m.ledger.openings && m.ledger.openings[e].key in m.peers
    ensures m.ledger.openings[e].ByClient? ==>
              var client := m.peers[m.ledger.openings[e].key].client;
              && e in client.exchanges && client.exchanges[e] == m.ledger.openings[e].slot
              && e !in DeliveredIds(client.delivered)
  {
    var places := RunKeeps(actions, m);
    CarriedIsPlaced(m, places, e, place, i);
    assert m.ledger.openings[e].key in Infos(m.peers);
    if m.ledger.openings[e].ByClient? {
      PeerInOrder(m, places, m.ledger.openings[e].key);
      assert Opened(m.ledger, m.ledger.openings[e].key, e);
    }
  }

  /** One carrier: nothing of an exchange is ever under way twice, in two places or in one. */
  lemma OneCarrier(actions: seq<Action>, m: Mesh, e: ExchangeId, place: Place, i: nat, place': Place, j: nat)
    requires Reached(actions, m) && CarriedAt(m, e, place, i) && CarriedAt(m, e, place', j)
    ensures place == place' && i == j
  {
    var places := RunKeeps(actions, m);
    CarriedIsPlaced(m, places, e, place, i);
    CarriedIsPlaced(m, places, e, place', j);
  }

  // ----- requests that were passed on

  /** The request is at this peer: in its call queue, on its downlink, or with a handler. */
  ghost predicate Held(peer: Peer, request: OutletRequest) {
    || Server.FrameOut(OutRequest(request)) in peer.calls
    || OutRequest(request) in peer.down
    || request in peer.client.running
  }

  lemma HeldIsAt(ledger: Ledger, places: Places, info: Info, peer: Peer, request: OutletRequest)
    requires PeerOk(ledger, places, info, peer) && Held(peer, request)
    ensures RequestAt(ledger, info, request)
  {
    var call := Server.FrameOut(OutRequest(request));
    if call in peer.calls {
      var i :| 0 <= i < |peer.calls| && peer.calls[i] == call;
      assert CallOk(ledger, info, peer.calls[i]);
    } else if OutRequest(request) in peer.down {
      var i :| 0 <= i < |peer.down| && peer.down[i] == OutRequest(request);
      assert DownOk(ledger, info, peer.down[i]);
    }
  }

  /** Routing of exchanges: a tagged request at a portal was sent to it by its own server side, or carries the
      operation a caller gave a client for a single recipient that names this portal, under the key of that
      client; and it is pending at the client that opened it. */
  lemma RequestReachesNamed(actions: seq<Action>, m: Mesh, key: Key, request: OutletRequest)
    requires Reached(actions, m) && key in m.peers && Held(m.peers[key], request) && request.kind.RequestResponse?
    ensures var e := request.kind.id;
            e in m.ledger.openings &&
            match m.ledger.openings[e]
            case ByServer(to, sent) => to == key && sent == request
            case ByClient(from, slot, given) =>
              && |given.to| == 1 && (given.to[0] == ByKey(key) || given.to[0] == ByAddress(m.peers[key].info.address))
              && given.operation == Ext(request.operation) && request.from == ByKey(from)
              && from in m.peers && e in m.peers[from].client.exchanges && m.peers[from].client.exchanges[e] == slot
  {
    var places := RunKeeps(actions, m);
    PeerInOrder(m, places, key);
    HeldIsAt(m.ledger, places, m.peers[key].info, m.peers[key], request);
    var e := request.kind.id;
    if m.ledger.openings[e].ByClient? {
      ForwardedNeverCompletes(actions, m, e);
      PeerInOrder(m, places, m.ledger.openings[e].key);
    }
  }

  /** Routing of notifications: an untagged request at a portal was sent to it by its own server side, or
      carries the operation a client was given to notify recipients of which one names this portal. */
  lemma NoticeReachesNamed(actions: seq<Action>, m: Mesh, key: Key, request: OutletRequest)
    requires Reached(actions, m) && key in m.peers && Held(m.peers[key], request) && !request.kind.RequestResponse?
    ensures || ServerNotice(key, request) in m.ledger.notices
            || exists from, tos, to ::
                 && ClientNotice(from, tos, Ext(request.operation)) in m.ledger.notices && to in tos
                 && (to == ByKey(key) || to == ByAddress(m.peers[key].info.address))
                 && request.from == ByKey(from) && request.kind == Notification
  {
    var places := RunKeeps(actions, m);
    PeerInOrder(m, places, key);
    HeldIsAt(m.ledger, places, m.peers[key].info, m.peers[key], request);
    if ServerNotice(key, request) !in m.ledger.notices {
      var from, tos, to :| PassedNotice(m.ledger, m.peers[key].info, request, from, tos, to);
      assert ClientNotice(from, tos, Ext(request.operation)) in m.ledger.notices && to in tos && request.from == ByKey(from);
    }
  }

  /** Is this a copy of a request a client was given, for one recipient, with its operation and its sender's key? */
  ghost predicate GivenCopy(ledger: Ledger, to: Identifier, from: Identifier, operation: Operation, kind: ExchangeKind) {
    match kind
    case NoKind => false
    case Notification => exists key, tos :: ClientNotice(key, tos, operation) in ledger.notices && to in tos && from == ByKey(key)
    case RequestResponse(e) =>
      && OpenedByClient(ledger, e) && from == ByKey(ledger.openings[e].key)
      && ledger.openings[e].request.to == [to] && ledger.openings[e].request.operation == operation
  }

  lemma CopyGiven(ledger: Ledger, request: MeshRequest<Operation>)
    requires RequestOk(ledger, request)
    ensures GivenCopy(ledger, request.to, request.from, request.operation, request.kind)
  {
    if request.kind.Notification? {
      var key, tos :| CopyOfNotice(ledger, request, key, tos);
      assert ClientNotice(key, tos, request.operation) in ledger.notices;
    }
  }

  /** Whatever the router works on or hands back to the muxer as a request is what a client was given, for one
      of its recipients, stamped with that client's key; the kind alone is replaced. */
  lemma RoutedIsStamped(actions: seq<Action>, m: Mesh)
    requires Reached(actions, m)
    ensures forall i :: 0 <= i < |m.routing| ==>
              var request := m.routing[i].request;
              GivenCopy(m.ledger, request.to, request.from, request.operation, request.kind)
    ensures forall i :: 0 <= i < |m.central| && m.central[i].MessageOut? && m.central[i].outbound.Request? ==>
              var request := m.central[i].outbound.request;
              GivenCopy(m.ledger, request.to, request.from, Ext(request.operation), request.kind)
  {
    var places := RunKeeps(actions, m);
    forall i | 0 <= i < |m.routing|
      ensures var request := m.routing[i].request;
              GivenCopy(m.ledger, request.to, request.from, request.operation, request.kind)
    {
      assert RouteOk(m.ledger, m.routing[i]);
      CopyGiven(m.ledger, m.routing[i].request);
    }
    forall i | 0 <= i < |m.central| && m.central[i].MessageOut? && m.central[i].outbound.Request?
      ensures var request := m.central[i].outbound.request;
              GivenCopy(m.ledger, request.to, request.from, Ext(request.operation), request.kind)
    {
      assert CentralOk(m.ledger, Infos(m.peers), m.central[i]);
      CopyGiven(m.ledger, Widened(m.central[i].outbound.request));
    }
  }

  /** What a client has registered or put on its uplink as a request has the recipients and the operation it was
      given with; under the id of its exchange, or as a notification. */
  lemma SentAsGiven(actions: seq<Action>, m: Mesh, key: Key, request: InletRequest)
    requires Reached(actions, m) && key in m.peers
    requires request in m.peers[key].opening || InRequest(request) in m.peers[key].up
    ensures match request.kind
            case NoKind => false
            case Notification => ClientNotice(key, request.to, request.operation) in m.ledger.notices
            case RequestResponse(e) =>
              && Opened(m.ledger, key, e)
              && m.ledger.openings[e].request.to == request.to && m.ledger.openings[e].request.operation == request.operation
  {
    var places := RunKeeps(actions, m);
    PeerInOrder(m, places, key);
    var peer := m.peers[key];
    if request in peer.opening {
      var i :| 0 <= i < |peer.opening| && peer.opening[i] == request;
      assert Logged(m.ledger, key, peer.opening[i]);
    } else {
      var i :| 0 <= i < |peer.up| && peer.up[i] == InRequest(request);
      assert UpOk(m.ledger, key, peer.up[i]);
    }
  }

  /** What the repository leaves open: an ext operation for one recipient is passed on to it, and nothing
      it answers finds the way back. Such an exchange never completes. */
  lemma ForwardedNeverCompletes(actions: seq<Action>, m: Mesh, e: ExchangeId)
    requires Reached(actions, m) && OpenedByClient(m.ledger, e)
    requires |m.ledger.openings[e].request.to| == 1 && m.ledger.openings[e].request.operation.Ext?
    ensures var key := m.ledger.openings[e].key;
            key in m.peers && e in m.peers[key].client.exchanges && e !in DeliveredIds(m.peers[key].client.delivered)
  {
    var places := RunKeeps(actions, m);
    var key := m.ledger.openings[e].key;
    assert key in Infos(m.peers) && Opened(m.ledger, key, e);
    PeerInOrder(m, places, key);
    var client := m.peers[key].client;
    forall i | 0 <= i < |client.delivered| ensures client.delivered[i].response.exchangeId != e {
      assert DeliveryOk(m.ledger, places, key, client.delivered[i]);
    }
  }

  // ----- responses

  /** A response on its way to a client is addressed to the one that opened its exchange, and nobody else's
      queue ever holds it. */
  lemma ResponseReachesOpener(actions: seq<Action>, m: Mesh, key: Key, i: nat)
    requires Reached(actions, m)
    requires key in m.peers && i < |m.peers[key].down| && m.peers[key].down[i].OutResponse?
    ensures var response := m.peers[key].down[i].response;
            Opened(m.ledger, key, response.exchangeId) && IsReply(m.ledger, response)
  {
    var places := RunKeeps(actions, m);
    PeerInOrder(m, places, key);
    assert DownOk(m.ledger, m.peers[key].info, m.peers[key].down[i]);
  }

  lemma PeerCompletes(ledger: Ledger, places: Places, info: Info, peer: Peer, response: OutletResponse, lapses: bool)
    requires PeerOk(ledger, places, info, peer) && places.Keys == ledger.openings.Keys
    requires peer.client.status == Ready && peer.down != [] && peer.down[0] == OutResponse(response)
    ensures Opened(ledger, info.key, response.exchangeId) && response.exchangeId in peer.client.exchanges
    ensures var client, e := peer.client, response.exchangeId;
            Client.Receive(client, OutResponse(response), lapses) ==
            client.(exchanges := client.exchanges - {e},
                    delivered := client.delivered
                                 + [Client.Delivery(ledger.openings[e].slot, response, e !in client.gaveUp && !lapses)])
  {
    ResponsePending(ledger, places, info, peer);
    assert PendingOk(ledger, info.key, peer.client.exchanges);
  }

  lemma ReceiveTakesHead(m: Mesh, key: Key, lapses: bool)
    requires key in m.peers && m.peers[key].down != []
    ensures Next(m, Receive(key, lapses)).peers[key].client ==
            Client.Receive(m.peers[key].client, m.peers[key].down[0], lapses)
  {}

  /** The first response a Ready client handles for an exchange takes its entry and completes it, whether or
      not its caller gave up waiting; who gave up does not hear it. */
  lemma ReadyCompletes(actions: seq<Action>, m: Mesh, key: Key, response: OutletResponse, lapses: bool)
    requires Reached(actions, m) && key in m.peers && m.peers[key].client.status == Ready
    requires m.peers[key].down != [] && m.peers[key].down[0] == OutResponse(response)
    ensures Opened(m.ledger, key, response.exchangeId)
    ensures var client, e := m.peers[key].client, response.exchangeId;
            && e in client.exchanges
            && Next(m, Receive(key, lapses)).peers[key].client ==
               client.(exchanges := client.exchanges - {e},
                       delivered := client.delivered
                                    + [Client.Delivery(m.ledger.openings[e].slot, response, e !in client.gaveUp && !lapses)])
  {
    var places := RunKeeps(actions, m);
    PeerInOrder(m, places, key);
    PeerCompletes(m.ledger, places, m.peers[key].info, m.peers[key], response, lapses);
    ReceiveTakesHead(m, key, lapses);
  }

  /** A client that is not Ready takes no notice of a response. */
  lemma NotReadyPeer(peer: Peer, action: Action)
    requires action.Receive? && peer.client.status != Ready && peer.down != [] && peer.down[0].OutResponse?
    ensures PeerStep(peer, action).client == peer.client
    ensures TokenOf(peer, action) == Some(peer.down[0].response.exchangeId) && Destination(peer, action) == Gone
  {}

  lemma NotReadyStep(m: Mesh, places: Places, action: Action, e: ExchangeId)
    requires Inv(m, places) && Local(action) && Enabled(m, action)
    requires TokenOf(m.peers[action.key], action) == Some(e) && Destination(m.peers[action.key], action) == Gone
    ensures Inv(Next(m, action), Moved(places, Some(e), Gone))
  {
    LocalKeeps(m, places, action);
  }

  lemma LocalPeerStep(m: Mesh, action: Action)
    requires Local(action) && Enabled(m, action)
    ensures action.key in Next(m, action).peers
    ensures Next(m, action).peers[action.key] == PeerStep(m.peers[action.key], action)
  {}

  lemma PendingAtHead(m: Mesh, places: Places, key: Key, response: OutletResponse)
    requires Inv(m, places) && key in m.peers && m.peers[key].down != [] && m.peers[key].down[0] == OutResponse(response)
    ensures response.exchangeId in m.peers[key].client.exchanges
  {
    PeerInOrder(m, places, key);
    ResponsePending(m.ledger, places, m.peers[key].info, m.peers[key]);
  }

  /** A response is lost on a client that is not Ready: it does nothing to the client, whose exchange stays
      pending and does not complete, however the run goes on, even when the client becomes Ready. */
  lemma NotReadyLoses(actions: seq<Action>, m: Mesh, action: Action, more: seq<Action>, m': Mesh)
    requires Reached(actions, m) && action.Receive? && Enabled(m, action)
    requires m.peers[action.key].client.status != Ready && m.peers[action.key].down[0].OutResponse?
    requires Continues(Next(m, action), more, m')
    ensures action.key in Next(m, action).peers
    ensures Next(m, action).peers[action.key].client == m.peers[action.key].client
    ensures var key, e := action.key, m.peers[action.key].down[0].response.exchangeId;
            && key in m'.peers && e in m'.peers[key].client.exchanges
            && e !in DeliveredIds(m'.peers[key].client.delivered)
  {
    var key, e := action.key, m.peers[action.key].down[0].response.exchangeId;
    var places := RunKeeps(actions, m);
    NotReadyPeer(m.peers[key], action);
    LocalPeerStep(m, action);
    PendingAtHead(m, places, key, m.peers[key].down[0].response);
    NotReadyStep(m, places, action, e);
    StrandedLoses(Next(m, action), Moved(places, Some(e), Gone), key, e, more, m');
  }

  lemma StrandedLoses(m: Mesh, places: Places, key: Key, e: ExchangeId, more: seq<Action>, m': Mesh)
    requires Inv(m, places) && Stranded(m, places, key, e) && Continues(m, more, m')
    ensures key in m'.peers && e in m'.peers[key].client.exchanges && e !in DeliveredIds(m'.peers[key].client.delivered)
  {
    var places' := StaysStranded(m, places, key, e, more, m');
    PendingIsOpen(m', places', key, e);
  }

  lemma PendingIsOpen(m: Mesh, places: Places, key: Key, e: ExchangeId)
    requires Inv(m, places) && key in m.peers && e in m.peers[key].client.exchanges
    ensures e !in DeliveredIds(m.peers[key].client.delivered)
  {
    PeerInOrder(m, places, key);
    assert Opened(m.ledger, key, e);
  }

  /** A timeout leaves the exchange pending and everything under way where it is. */
  lemma TimeoutLeavesEntry(m: Mesh, key: Key, e: ExchangeId)
    requires Enabled(m, TimesOut(key, e))
    ensures var m' := Next(m, TimesOut(key, e));
            && m' == m.(peers := m'.peers) && m'.peers.Keys == m.peers.Keys
            && (forall k :: k in m.peers ==> m'.peers[k].client.exchanges == m.peers[k].client.exchanges)
            && m'.peers[key].client.gaveUp == m.peers[key].client.gaveUp + {e}
            && (forall id, place, i :: CarriedAt(m', id, place, i) <==> CarriedAt(m, id, place, i))
  {
    var peer := m.peers[key];
    forall id: ExchangeId, place: Place, i: nat
      ensures CarriedBy(PeerStep(peer, TimesOut(key, e)), id, place, i) <==> CarriedBy(peer, id, place, i)
    {}
  }

  // ----- what a select is answered with

  /** Only the muxer's answer to a select puts a listing on record. */
  lemma ListingsGrow(m: Mesh, action: Action, listing: Listing)
    requires Enabled(m, action) && listing in Next(m, action).ledger.listings && listing !in m.ledger.listings
    ensures action.RouteSelects? && Lists(listing.infos, m.muxer.portals) && CarriedAt(m, listing.id, Routing, action.index)
  {}

  /** Every listing was true when it was made: at some earlier state of the run, while the request waited
      with the router, it named exactly the portals live in the muxer, each once. */
  lemma {:induction false} ListingWasTrue(actions: seq<Action>, m: Mesh, listing: Listing)
    returns (n: nat, mid: Mesh, index: nat)
    requires Reached(actions, m) && listing in m.ledger.listings
    ensures n < |actions| && Reached(actions[..n], mid)
    ensures Lists(listing.infos, mid.muxer.portals) && CarriedAt(mid, listing.id, Routing, index)
  {
    var last := |actions| - 1;
    assert actions != [];
    var before := Network.Run(actions[..last]).value;
    if listing in before.ledger.listings {
      n, mid, index := ListingWasTrue(actions[..last], before, listing);
      assert actions[..last][..n] == actions[..n];
    } else {
      ListingsGrow(before, actions[last], listing);
      n, mid, index := last, before, actions[last].index;
    }
  }

  /** A completed select holds exactly the portals that were live in the muxer at a state of the run in
      between: its request was with the router then, so it was pending and not yet answered. */
  lemma SelectListsLive(actions: seq<Action>, m: Mesh, key: Key, i: nat) returns (n: nat, mid: Mesh, index: nat)
    requires Reached(actions, m) && key in m.peers && i < |m.peers[key].client.delivered|
    requires var e := m.peers[key].client.delivered[i].response.exchangeId;
             && OpenedByClient(m.ledger, e) && |m.ledger.openings[e].request.to| == 1
             && m.ledger.openings[e].request.operation == Resource(Select)
    ensures var response := m.peers[key].client.delivered[i].response;
            && n < |actions| && Reached(actions[..n], mid)
            && response.signal.Success? && response.signal.entity.Stubs?
            && Lists(response.signal.entity.infos, mid.muxer.portals)
            && CarriedAt(mid, response.exchangeId, Routing, index)
            && OpenedByClient(mid.ledger, response.exchangeId) && mid.ledger.openings[response.exchangeId].key in mid.peers
            && response.exchangeId in mid.peers[mid.ledger.openings[response.exchangeId].key].client.exchanges
  {
    Correlation(actions, m, key, i);
    var response := m.peers[key].client.delivered[i].response;
    n, mid, index := ListingWasTrue(actions, m, Listing(response.exchangeId, response.signal.entity.infos));
    RoutedIsStamped(actions[..n], mid);
    InFlightIsPending(actions[..n], mid, response.exchangeId, Routing, index);
  }

  // ----- single turns

  /** The muxer's maps change with additions, removals and closed channels, and with nothing else. */
  lemma MuxerTurns(m: Mesh, action: Action)
    requires Enabled(m, action)
    ensures Next(m, action).muxer ==
            if action.CentralTakes? && m.central[0].AddPortal? then Add(m.muxer, m.central[0].info)
            else if action.CentralTakes? && m.central[0].RemovePortal? then Remove(m.muxer, m.central[0].id)
            else if action.ChannelClosed? then Closed(m.muxer, action.key)
            else m.muxer
  {}

  /** A portal that leaves the muxer is sent Close, if there is room, and no other portal notices. */
  lemma LeavingCloses(m: Mesh, action: Action, id: Identifier, room: bool)
    requires Enabled(m, action)
    requires (action == CentralTakes(room) && m.central[0] == RemovePortal(id))
             || (action.ChannelClosed? && id == ByKey(action.key) && action.room == room)
    requires GetPortal(m.muxer, id).Some? && Resolve(m.muxer, id).value in m.peers
    ensures var m', key := Next(m, action), Resolve(m.muxer, id).value;
            && m'.peers.Keys == m.peers.Keys
            && m'.peers[key] == m.peers[key].(down := m.peers[key].down + if room then [OutClose] else [])
            && forall k :: k in m.peers && k != key ==> m'.peers[k] == m.peers[k]
  {}

  lemma NextTaken(fan: seq<MeshRequest<Operation>>, mux: seq<MeshRequest<Operation>>, n: nat, rooms: seq<bool>)
    requires n < |fan|
    ensures fan[n..][0] == fan[n] && fan[n..][1..] == fan[n + 1..]
    ensures mux + Server.Taken(fan[..n], rooms) + If(n < |rooms| && rooms[n], fan[n])
         == mux + Server.Taken(fan[..n + 1], rooms)
  {
    assert fan[..n + 1][..n] == fan[..n];
    Seqs.Assoc(mux, Server.Taken(fan[..n], rooms), If(n < |rooms| && rooms[n], fan[n]));
  }

  /** The n-th send of a fan-out leaves the later ones to come, whether it goes through or not; together they are
      what a turn of the portal task takes from its messages `fan`. */
  lemma NthSend(peer: Peer, action: Action, fan: seq<MeshRequest<Operation>>, mux: seq<MeshRequest<Operation>>,
                n: nat, rooms: seq<bool>)
    requires n < |fan| && peer.fan == fan[n..] && peer.mux == mux + Server.Taken(fan[..n], rooms)
    requires action.SendNext? && action.room == (n < |rooms| && rooms[n])
    ensures var fan', mux' := fan[n + 1..], mux + Server.Taken(fan[..n + 1], rooms);
            PeerStep(peer, action) == peer.(fan := fan', mux := mux')
  {
    NextTaken(fan, mux, n, rooms);
    SendNextStep(peer, action);
  }

  lemma SendNextStep(peer: Peer, action: Action)
    requires action.SendNext? && peer.fan != []
    ensures PeerStep(peer, action) == peer.(fan := peer.fan[1..], mux := peer.mux + If(action.room, peer.fan[0]))
  {}
}
