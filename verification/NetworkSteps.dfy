/** Every step of the mesh keeps the invariant. */
module NetworkSteps {
  import opened Outcomes
  import opened Messages
  import opened Muxer
  import opened Router
  import opened Network
  import Server = ServerPortal
  import opened NetworkInvariant
  import opened NetworkLanes
  import opened NetworkPeers

  // ----- local steps

  /** The carrier of a local action starts out at its peer, or is new. */
  lemma TokenNear(ledger: Ledger, places: Places, info: Info, peer: Peer, action: Action)
    requires CanAct(ledger, places, info, peer, action)
    ensures var token := TokenOf(peer, action);
            token.Some? ==>
              if NewId(action).Some? then token.value !in places
              else token.value in places
                   && places[token.value] in {Opening(info.key), Up(info.key), Calls(info.key), Sending(info.key),
                                              ToMux(info.key), Down(info.key), Running(info.key)}
  {
    assert NewId(action).Some? ==> TokenOf(peer, action) == NewId(action);
  }

  lemma LocalPeer(ledger: Ledger, places: Places, info: Info, peer: Peer, action: Action)
    requires CanAct(ledger, places, info, peer, action)
    ensures PeerOk(Recorded(ledger, action), Moved(places, TokenOf(peer, action), Destination(peer, action)),
                   info, PeerStep(peer, action))
  {
    if action.Open? || action.ServerSends? || action.Notify? || action.SendOther? || action.SetStatus?
       || action.ServerOpens? || action.TimesOut? {
      FreshFrames(ledger, places, info, peer, action);
    } else {
      CarrierMoves(ledger, places, info, peer, action);
    }
  }

  /** The actions that bring something new. */
  lemma FreshFrames(ledger: Ledger, places: Places, info: Info, peer: Peer, action: Action)
    requires action.Open? || action.ServerSends? || action.Notify? || action.SendOther? || action.SetStatus?
             || action.ServerOpens? || action.TimesOut?
    requires CanAct(ledger, places, info, peer, action)
    ensures PeerOk(Recorded(ledger, action), Moved(places, TokenOf(peer, action), Destination(peer, action)),
                   info, PeerStep(peer, action))
  {
    if action.Open? {
      OpenPeer(ledger, places, info, peer, action);
    } else if action.ServerSends? {
      ServerSendsPeer(ledger, places, info, peer, action);
    } else {
      assert TokenOf(peer, action).None?;
      QuietPeer(ledger, places, info, peer, action);
    }
  }

  /** The actions that move on what is there. */
  lemma CarrierMoves(ledger: Ledger, places: Places, info: Info, peer: Peer, action: Action)
    requires action.Emit? || action.Relay? || action.Handle? || action.SendNext? || action.Receive? || action.Finish?
             || action.MuxTakes?
    requires CanAct(ledger, places, info, peer, action)
    ensures Recorded(ledger, action) == ledger
    ensures PeerOk(ledger, Moved(places, TokenOf(peer, action), Destination(peer, action)), info, PeerStep(peer, action))
  {
    match action
    case Emit(_, _, _) => EmitPeer(ledger, places, info, peer, action);
    case Relay(_, _) => RelayPeer(ledger, places, info, peer, action);
    case Handle(_, _, _) => HandlePeer(ledger, places, info, peer, action);
    case SendNext(_, _) => SendNextPeer(ledger, places, info, peer, action);
    case Receive(_, _) => ReceivePeer(ledger, places, info, peer, action);
    case Finish(_, _) => FinishPeer(ledger, places, info, peer, action);
    case MuxTakes(_) => MuxTakesPeer(ledger, places, info, peer, action);
  }

  /** Outside the peers a local action only adds. */
  lemma LocalOutside(ledger: Ledger, places: Places, info: Info, peer: Peer, action: Action)
    requires CanAct(ledger, places, info, peer, action)
    ensures var places' := Moved(places, TokenOf(peer, action), Destination(peer, action));
            && Stays(places, places', Routing) && Stays(places, places', Central) && Stays(places, places', Gone)
            && Near(places, TokenOf(peer, action), info.key)
  {
    TokenNear(ledger, places, info, peer, action);
  }

  /** The muxer takes a message, and a router task starts on it. */
  lemma TakenRouting(ledger: Ledger, places: Places, info: Info, mux: seq<MeshRequest<Operation>>, routing: seq<RouteTask>)
    requires mux != [] && MuxLane(ledger, places, info.key, mux) && RouteLane(ledger, places, routing)
    ensures RouteLane(ledger, Moved(places, MuxToken(mux[0]), Routing), routing + [Asked(mux[0])])
  {
    assert MuxOk(ledger, info.key, mux[0]);
    MovesOn(places, MuxToken(mux[0]), ToMux(info.key), Routing);
    RoutePush(ledger, places, Moved(places, MuxToken(mux[0]), Routing), routing, Asked(mux[0]));
  }

  lemma LocalRouting(ledger: Ledger, places: Places, info: Info, peer: Peer, action: Action, routing: seq<RouteTask>)
    requires CanAct(ledger, places, info, peer, action) && RouteLane(ledger, places, routing)
    ensures RouteLane(Recorded(ledger, action), Moved(places, TokenOf(peer, action), Destination(peer, action)),
                      routing + if action.MuxTakes? then [Asked(peer.mux[0])] else [])
  {
    if action.MuxTakes? {
      TakenRouting(ledger, places, info, peer.mux, routing);
    } else {
      LocalOutside(ledger, places, info, peer, action);
      RecordedExtends(ledger, action, info.key);
      RouteStays(ledger, Recorded(ledger, action), places,
                 Moved(places, TokenOf(peer, action), Destination(peer, action)), routing);
      assert routing + [] == routing;
    }
  }

  lemma LocalTables(ledger: Ledger, infos: map<Key, Info>, places: Places, info: Info, peer: Peer, action: Action)
    requires CanAct(ledger, places, info, peer, action) && info.key in infos && TablesOk(ledger, infos, places)
    ensures TablesOk(Recorded(ledger, action), infos, Moved(places, TokenOf(peer, action), Destination(peer, action)))
  {
    TokenNear(ledger, places, info, peer, action);
    RecordedExtends(ledger, action, info.key);
  }

  lemma SameInfos(peers: map<Key, Peer>, key: Key, peer: Peer)
    requires key in peers && peer.info == peers[key].info
    ensures Infos(peers[key := peer]) == Infos(peers)
  {}

  /** A step at one peer, put together from what it does to the peer, the router tasks and the tables. */
  lemma LocalAssembles(m: Mesh, m': Mesh, places: Places, places': Places, token: Option<ExchangeId>, to: Place, key: Key)
    requires Inv(m, places) && Near(places, token, key) && places' == Moved(places, token, to)
    requires key in m.peers && key in m'.peers && m'.peers == m.peers[key := m'.peers[key]]
    requires m'.muxer == m.muxer && m'.central == m.central
    requires Extends(m.ledger, m'.ledger) && Stays(places, places', Central)
    requires forall k :: k in m.peers && k != key ==> NotBy(m.ledger, m'.ledger, k)
    requires TablesOk(m'.ledger, Infos(m.peers), places')
    requires RouteLane(m'.ledger, places', m'.routing)
    requires PeerOk(m'.ledger, places', m.peers[key].info, m'.peers[key])
    ensures Inv(m', places')
  {
    var infos := Infos(m.peers);
    CentralStays(m.ledger, m'.ledger, infos, infos, places, places', m.central);
    SameInfos(m.peers, key, m'.peers[key]);
    assert CoreOk(m', places');
    OnePeerKeeps(m, m', places, token, to, key);
  }

  /** What a local action leaves alone, whatever becomes of its peer. */
  lemma LocalFrame(m: Mesh, action: Action, peer': Peer)
    requires Local(action) && Enabled(m, action)
    ensures var m', k := LocalNext(m, action, peer'), action.key;
            && k in m'.peers && m'.peers[k] == peer' && m'.peers == m.peers[k := peer']
            && m'.muxer == m.muxer && m'.central == m.central && m'.ledger == Recorded(m.ledger, action)
            && Extends(m.ledger, m'.ledger)
            && (forall j :: j != k ==> NotBy(m.ledger, m'.ledger, j))
  {
    forall j | j != action.key ensures NotBy(m.ledger, Recorded(m.ledger, action), j) {
      RecordedExtends(m.ledger, action, j);
    }
    RecordedExtends(m.ledger, action, action.key);
  }

  lemma LocalKeeps(m: Mesh, places: Places, action: Action)
    requires Local(action) && Enabled(m, action) && Inv(m, places)
    ensures var peer := m.peers[action.key];
            Inv(LocalNext(m, action, PeerStep(peer, action)), Moved(places, TokenOf(peer, action), Destination(peer, action)))
  {
    var peer, k, infos := m.peers[action.key], action.key, Infos(m.peers);
    assert infos[k] == peer.info;
    assert CanAct(m.ledger, places, peer.info, peer, action);
    var peer' := PeerStep(peer, action);
    var m', token, to := LocalNext(m, action, peer'), TokenOf(peer, action), Destination(peer, action);
    LocalFrame(m, action, peer');
    LocalPeer(m.ledger, places, peer.info, peer, action);
    LocalRouting(m.ledger, places, peer.info, peer, action, m.routing);
    LocalTables(m.ledger, infos, places, peer.info, peer, action);
    LocalOutside(m.ledger, places, peer.info, peer, action);
    LocalAssembles(m, m', places, Moved(places, token, to), token, to, k);
  }

  // ----- steps elsewhere

  /** A step that leaves the peers alone and opens nothing. */
  lemma CoreKeeps(m: Mesh, m': Mesh, places: Places, places': Places)
    requires Inv(m, places) && m'.peers == m.peers
    requires m'.ledger.openings == m.ledger.openings && Extends(m.ledger, m'.ledger)
    requires forall k :: k in m.peers ==> Elsewhere(places, places', k)
    requires CoreOk(m', places')
    ensures Inv(m', places')
  {
    forall k | k in m'.peers ensures PeerOk(m'.ledger, places', m'.peers[k].info, m'.peers[k]) {
      assert Infos(m.peers)[k].key == k;
      BystanderKeeps(m.ledger, m'.ledger, places, places', m.peers[k].info, m.peers[k]);
    }
  }

  lemma ConnectKeeps(m: Mesh, places: Places, info: Info)
    requires Enabled(m, Connect(info)) && Inv(m, places)
    ensures Inv(Next(m, Connect(info)), places)
  {
    var m', infos := Next(m, Connect(info)), Infos(m.peers);
    ConnectCore(m.ledger, places, infos, info, m.muxer, m.central);
    ConnectInfos(m.peers, info);
    FreshPeer(m.ledger, places, info);
    JoinKeeps(m, m', places, info);
  }

  lemma ConnectInfos(peers: map<Key, Peer>, info: Info)
    ensures Infos(peers[info.key := NewPeer(info)]) == Infos(peers)[info.key := info]
  {}

  /** A peer joins and the muxer's channel is in order with it. */
  lemma JoinKeeps(m: Mesh, m': Mesh, places: Places, info: Info)
    requires Inv(m, places) && m' == m.(peers := m.peers[info.key := NewPeer(info)], central := m'.central)
    requires TablesOk(m.ledger, Infos(m'.peers), places) && MuxerOk(Infos(m'.peers), m.muxer)
    requires CentralLane(m.ledger, Infos(m'.peers), places, m'.central)
    requires PeerOk(m.ledger, places, info, NewPeer(info))
    ensures Inv(m', places)
  {
    assert CoreOk(m', places);
    OnePeerKeeps(m, m', places, None, Gone, info.key);
  }

  lemma ConnectCore(ledger: Ledger, places: Places, infos: map<Key, Info>, info: Info, muxer: MuxState, central: seq<MuxCall>)
    requires TablesOk(ledger, infos, places) && MuxerOk(infos, muxer) && CentralLane(ledger, infos, places, central)
    requires info.key !in infos
    ensures var infos' := infos[info.key := info];
            && TablesOk(ledger, infos', places) && MuxerOk(infos', muxer)
            && CentralLane(ledger, infos', places, central + [AddPortal(info)])
  {
    var infos' := infos[info.key := info];
    CentralStays(ledger, ledger, infos, infos', places, places, central);
    CentralPush(ledger, infos', places, places, central, true, AddPortal(info));
  }

  lemma FreshPeer(ledger: Ledger, places: Places, info: Info)
    requires forall e :: e in ledger.openings ==> ledger.openings[e].key != info.key
    ensures PeerOk(ledger, places, info, NewPeer(info))
  {}

  // ----- the router

  /** The muxer's listing is on record when the router task goes on with it. */
  lemma SelectsRoute(ledger: Ledger, ledger': Ledger, places: Places, routing: seq<RouteTask>, index: nat, infos: seq<Info>)
    requires index < |routing| && RouteLane(ledger, places, routing) && Selects(routing[index].request)
    requires ledger' == ledger.(listings := ledger.listings + {Listing(routing[index].request.kind.id, infos)})
    ensures RouteLane(ledger', places, routing[index := Selected(routing[index].request, infos)])
  {
    RouteStays(ledger, ledger', places, places, routing);
    assert RouteOk(ledger', routing[index]);
    RouteUpdate(ledger', places, routing, index, Selected(routing[index].request, infos));
  }

  lemma SelectsKeeps(m: Mesh, places: Places, action: Action)
    requires action.RouteSelects? && Enabled(m, action) && Inv(m, places)
    ensures Inv(Next(m, action), places)
  {
    var m', request := Next(m, action), m.routing[action.index].request;
    var ledger' := m.ledger.(listings := m.ledger.listings + {Listing(request.kind.id, action.infos)});
    assert m' == m.(routing := m.routing[action.index := Selected(request, action.infos)], ledger := ledger');
    SelectsRoute(m.ledger, ledger', places, m.routing, action.index, action.infos);
    CentralStays(m.ledger, ledger', Infos(m.peers), Infos(m.peers), places, places, m.central);
    ListingKeeps(m, m', places);
  }

  lemma TablesStay(ledger: Ledger, ledger': Ledger, infos: map<Key, Info>, places: Places)
    requires TablesOk(ledger, infos, places) && ledger'.openings == ledger.openings
    ensures TablesOk(ledger', infos, places)
  {}

  /** New listings, and router tasks in order with them, disturb nothing else. */
  lemma ListingKeeps(m: Mesh, m': Mesh, places: Places)
    requires Inv(m, places) && m' == m.(routing := m'.routing, ledger := m'.ledger)
    requires m'.ledger == m.ledger.(listings := m'.ledger.listings) && m.ledger.listings <= m'.ledger.listings
    requires RouteLane(m'.ledger, places, m'.routing)
    requires CentralLane(m'.ledger, Infos(m.peers), places, m.central)
    ensures Inv(m', places)
  {
    TablesStay(m.ledger, m'.ledger, Infos(m.peers), places);
    assert CoreOk(m', places);
    forall k | k in m'.peers ensures PeerOk(m'.ledger, places, m'.peers[k].info, m'.peers[k]) {
      assert Infos(m.peers)[k].key == k;
      BystanderKeeps(m.ledger, m'.ledger, places, places, m.peers[k].info, m.peers[k]);
    }
  }

  lemma RoutedElsewhere(ledger: Ledger, places: Places, routing: seq<RouteTask>, index: nat, to: Place, key: Key)
    requires index < |routing| && RouteLane(ledger, places, routing)
    requires to in {Central, Gone}
    ensures Elsewhere(places, Moved(places, RouteToken(routing[index]), to), key)
    ensures Stays(places, Moved(places, RouteToken(routing[index]), to), Central)
    ensures Moved(places, RouteToken(routing[index]), to).Keys == places.Keys
  {
    MovesOn(places, RouteToken(routing[index]), Routing, to);
  }

  lemma DiesKeeps(m: Mesh, places: Places, action: Action)
    requires action.RouteDies? && Enabled(m, action) && Inv(m, places)
    ensures Inv(Next(m, action), Moved(places, RouteToken(m.routing[action.index]), Gone))
  {
    var places' := Moved(places, RouteToken(m.routing[action.index]), Gone);
    forall k ensures Elsewhere(places, places', k) {
      RoutedElsewhere(m.ledger, places, m.routing, action.index, Gone, k);
    }
    RoutedElsewhere(m.ledger, places, m.routing, action.index, Gone, "");
    RouteDrop(m.ledger, places, m.routing, action.index, Gone);
    CentralStays(m.ledger, m.ledger, Infos(m.peers), Infos(m.peers), places, places', m.central);
    assert CoreOk(Next(m, action), places');
    CoreKeeps(m, Next(m, action), places, places');
  }

  /** What the router sends on carries the exchange of the request it was given: the reply to it, or the
      request itself. */
  lemma ReplyOk(ledger: Ledger, task: RouteTask)
    requires RouteOk(ledger, task) && RouterReply(task).Some? && (task.Asked? ==> !Selects(task.request))
    ensures MessageOk(ledger, RouterReply(task).value)
    ensures CentralToken(MessageOut(RouterReply(task).value)) == RouteToken(task)
  {
    if RouterReply(task).value.Request? {
      assert Widened(RouterReply(task).value.request) == task.request;
    }
  }

  function RepliesTo(task: RouteTask, room: bool): Place {
    if room && RouterReply(task).Some? then Central else Gone
  }

  lemma RepliesCentral(ledger: Ledger, infos: map<Key, Info>, places: Places, places': Places,
                       central: seq<MuxCall>, task: RouteTask, room: bool)
    requires CentralLane(ledger, infos, places, central) && RouteOk(ledger, task)
    requires task.Asked? ==> !Selects(task.request)
    requires RouteToken(task).Some? ==> RouteToken(task).value in places && places[RouteToken(task).value] == Routing
    requires places' == Moved(places, RouteToken(task), RepliesTo(task, room))
    ensures CentralLane(ledger, infos, places',
                        central + if RouterReply(task).Some? then If(room, MessageOut(RouterReply(task).value)) else [])
  {
    MovesOn(places, RouteToken(task), Routing, RepliesTo(task, room));
    if RouterReply(task).Some? {
      ReplyOk(ledger, task);
      CentralPush(ledger, infos, places, places', central, room, MessageOut(RouterReply(task).value));
    } else {
      CentralStays(ledger, ledger, infos, infos, places, places', central);
      assert central + [] == central;
    }
  }

  lemma RepliesKeeps(m: Mesh, places: Places, action: Action)
    requires action.RouteReplies? && Enabled(m, action) && Inv(m, places)
    ensures var task := m.routing[action.index];
            Inv(Next(m, action), Moved(places, RouteToken(task), RepliesTo(task, action.room)))
  {
    var task := m.routing[action.index];
    var to := RepliesTo(task, action.room);
    var places' := Moved(places, RouteToken(task), to);
    forall k ensures Elsewhere(places, places', k) {
      RoutedElsewhere(m.ledger, places, m.routing, action.index, to, k);
    }
    RoutedElsewhere(m.ledger, places, m.routing, action.index, to, "");
    RouteDrop(m.ledger, places, m.routing, action.index, to);
    RepliesCentral(m.ledger, Infos(m.peers), places, places', m.central, task, action.room);
    assert CoreOk(Next(m, action), places');
    CoreKeeps(m, Next(m, action), places, places');
  }

  // ----- the muxer's own channel

  /** Close enters a downlink. */
  lemma ShutdownKeeps(m: Mesh, places: Places, key: Key, room: bool)
    requires Inv(m, places)
    ensures Inv(Shutdown(m, key, room), places)
  {
    if key in m.peers {
      var peer, m' := m.peers[key], Shutdown(m, key, room);
      DownPush(m.ledger, places, places, peer.info, peer.down, room, OutClose);
      SameInfos(m.peers, key, m'.peers[key]);
      assert CoreOk(m', places);
      OnePeerKeeps(m, m', places, None, Gone, key);
    }
  }

  /** Changing what the muxer knows, within what connected, changes nothing else. */
  lemma MuxerKeeps(m: Mesh, places: Places, muxer: MuxState)
    requires Inv(m, places) && MuxerOk(Infos(m.peers), muxer)
    ensures Inv(m.(muxer := muxer), places)
  {}

  lemma CentralHead(ledger: Ledger, infos: map<Key, Info>, places: Places, central: seq<MuxCall>)
    requires central != [] && CentralLane(ledger, infos, places, central)
    ensures var token := CentralToken(central[0]);
            token.Some? ==> token.value in places && places[token.value] == Central
  {}

  lemma CentralElsewhere(ledger: Ledger, infos: map<Key, Info>, places: Places, central: seq<MuxCall>, to: Place)
    requires central != [] && CentralLane(ledger, infos, places, central) && TablesOk(ledger, infos, places)
    ensures forall here :: here != Central ==> Stays(places, Moved(places, CentralToken(central[0]), to), here)
    ensures TablesOk(ledger, infos, Moved(places, CentralToken(central[0]), to))
    ensures forall k :: Near(places, CentralToken(central[0]), k)
  {
    CentralHead(ledger, infos, places, central);
    MovesOn(places, CentralToken(central[0]), Central, to);
  }

  lemma PopCore(ledger: Ledger, infos: map<Key, Info>, places: Places, central: seq<MuxCall>)
    requires central != [] && CentralLane(ledger, infos, places, central) && TablesOk(ledger, infos, places)
    ensures var places' := Moved(places, CentralToken(central[0]), Gone);
            && CentralLane(ledger, infos, places', central[1..]) && TablesOk(ledger, infos, places')
            && Stays(places, places', Routing) && forall k :: Elsewhere(places, places', k)
  {
    var places' := Moved(places, CentralToken(central[0]), Gone);
    CentralPop(ledger, infos, places, central, Gone);
    CentralElsewhere(ledger, infos, places, central, Gone);
    forall k ensures Elsewhere(places, places', k) {}
  }

  /** The call at the head of the muxer's channel is taken and its carrier, if any, dropped. */
  lemma PopKeeps(m: Mesh, places: Places)
    requires Inv(m, places) && m.central != []
    ensures Inv(m.(central := m.central[1..]), Moved(places, CentralToken(m.central[0]), Gone))
  {
    var places', m' := Moved(places, CentralToken(m.central[0]), Gone), m.(central := m.central[1..]);
    PopCore(m.ledger, Infos(m.peers), places, m.central);
    RouteStays(m.ledger, m.ledger, places, places', m.routing);
    assert CoreOk(m', places');
    CoreKeeps(m, m', places, places');
  }

  lemma ForwardCore(m: Mesh, m': Mesh, places: Places, key: Key, to: Place)
    requires CoreOk(m, places) && m.central != [] && key in m.peers && key in m'.peers
    requires m' == m.(central := m.central[1..], peers := m.peers[key := m'.peers[key]])
    requires m'.peers[key].info == m.peers[key].info
    ensures CoreOk(m', Moved(places, CentralToken(m.central[0]), to))
    ensures Near(places, CentralToken(m.central[0]), key)
  {
    CentralPop(m.ledger, Infos(m.peers), places, m.central, to);
    CentralElsewhere(m.ledger, Infos(m.peers), places, m.central, to);
    RouteStays(m.ledger, m.ledger, places, Moved(places, CentralToken(m.central[0]), to), m.routing);
    SameInfos(m.peers, key, m'.peers[key]);
  }

  /** A frame for a portal moves from the muxer's channel into the portal's call queue. */
  lemma ForwardKeeps(m: Mesh, places: Places, key: Key, frame: OutletFrame, room: bool)
    requires Inv(m, places) && m.central != [] && key in m.peers
    requires DownOk(m.ledger, m.peers[key].info, frame) && DownToken(frame) == CentralToken(m.central[0])
    ensures Inv(QueueOut(m.(central := m.central[1..]), key, frame, room),
                Moved(places, CentralToken(m.central[0]), if room then Calls(key) else Gone))
  {
    var m', peer := QueueOut(m.(central := m.central[1..]), key, frame, room), m.peers[key];
    assert Infos(m.peers)[key].key == key;
    CentralHead(m.ledger, Infos(m.peers), places, m.central);
    ForwardPeer(m.ledger, places, peer.info, peer, frame, room);
    QueuedKeeps(m, m', places, key, if room then Calls(key) else Gone);
  }

  lemma QueuedKeeps(m: Mesh, m': Mesh, places: Places, key: Key, to: Place)
    requires Inv(m, places) && m.central != [] && key in m.peers && key in m'.peers
    requires m' == m.(central := m.central[1..], peers := m.peers[key := m'.peers[key]])
    requires m'.peers[key].info == m.peers[key].info
    requires PeerOk(m.ledger, Moved(places, CentralToken(m.central[0]), to), m.peers[key].info, m'.peers[key])
    ensures Inv(m', Moved(places, CentralToken(m.central[0]), to))
  {
    ForwardCore(m, m', places, key, to);
    OnePeerKeeps(m, m', places, CentralToken(m.central[0]), to, key);
  }

  lemma ForwardPeer(ledger: Ledger, places: Places, info: Info, peer: Peer, frame: OutletFrame, room: bool)
    requires PeerOk(ledger, places, info, peer) && DownOk(ledger, info, frame) && places.Keys == ledger.openings.Keys
    requires DownToken(frame).Some? ==> DownToken(frame).value in places && places[DownToken(frame).value] == Central
    ensures PeerOk(ledger, Moved(places, DownToken(frame), if room then Calls(info.key) else Gone), info,
                   peer.(calls := peer.calls + If(room, Server.FrameOut(frame))))
  {
    var to := if room then Calls(info.key) else Gone;
    var places' := Moved(places, DownToken(frame), to);
    MovesOn(places, DownToken(frame), Central, to);
    LanesStay(ledger, ledger, places, places', info, peer, Central);
    CallPush(ledger, places, places', info, peer.calls, room, Server.FrameOut(frame));
  }

  /** A passed-on request arrives, in its outlet form, at a portal its recipient names. */
  lemma RequestArrives(ledger: Ledger, info: Info, request: MeshRequest<ExtOperation>)
    requires RequestOk(ledger, Widened(request)) && Names(request.to, info)
    ensures RequestAt(ledger, info, ToOutletRequest(request))
  {
    if request.kind.Notification? {
      var key, to :| CopyOfNotice(ledger, Widened(request), key, to);
      assert PassedNotice(ledger, info, ToOutletRequest(request), key, to, request.to);
    }
  }

  /** The muxer resolves an identifier to a portal it names. */
  lemma ResolvesNamed(infos: map<Key, Info>, muxer: MuxState, id: Identifier)
    requires MuxerOk(infos, muxer) && ByOwnKey(infos) && GetPortal(muxer, id).Some?
    ensures Resolve(muxer, id).value in infos && Names(id, infos[Resolve(muxer, id).value])
  {
    assert Resolve(muxer, id).value in muxer.portals.Keys;
  }

  lemma MessageArrives(ledger: Ledger, info: Info, message: Message<ExtOperation>)
    requires MessageOk(ledger, message) && Names(Recipient(message), info)
    requires message.Response? ==> info.key == ledger.openings[message.response.exchangeId].key
    ensures DownOk(ledger, info, ToFrame(message))
  {
    if message.Request? {
      RequestArrives(ledger, info, message.request);
    }
  }

  lemma DeliveredOutKeeps(m: Mesh, places: Places, message: Message<ExtOperation>, room: bool)
    requires Inv(m, places) && m.central != [] && m.central[0] == MessageOut(message)
    requires GetPortal(m.muxer, Recipient(message)).Some?
    ensures var key := Resolve(m.muxer, Recipient(message)).value;
            Inv(QueueOut(m.(central := m.central[1..]), key, ToFrame(message), room),
                Moved(places, CentralToken(m.central[0]), if room then Calls(key) else Gone))
  {
    var key := Resolve(m.muxer, Recipient(message)).value;
    assert CentralOk(m.ledger, Infos(m.peers), m.central[0]);
    ResolvesNamed(Infos(m.peers), m.muxer, Recipient(message));
    MessageArrives(m.ledger, m.peers[key].info, message);
    ForwardKeeps(m, places, key, ToFrame(message), room);
  }

  lemma MessageOutKeeps(m: Mesh, places: Places, message: Message<ExtOperation>, room: bool) returns (places': Places)
    requires Inv(m, places) && m.central != [] && m.central[0] == MessageOut(message)
    ensures Inv(TakeCentral(m, room), places') && Stays(places, places', Gone)
  {
    if GetPortal(m.muxer, Recipient(message)).None? {
      CentralElsewhere(m.ledger, Infos(m.peers), places, m.central, Gone);
      assert TakeCentral(m, room) == m.(central := m.central[1..]);
      PopKeeps(m, places);
      places' := Moved(places, CentralToken(m.central[0]), Gone);
    } else {
      var key := Resolve(m.muxer, Recipient(message)).value;
      assert TakeCentral(m, room) == QueueOut(m.(central := m.central[1..]), key, ToFrame(message), room);
      DeliveredOutKeeps(m, places, message, room);
      CentralElsewhere(m.ledger, Infos(m.peers), places, m.central, if room then Calls(key) else Gone);
      places' := Moved(places, CentralToken(m.central[0]), if room then Calls(key) else Gone);
    }
  }

  lemma AddPortalKeeps(m: Mesh, places: Places, info: Info, room: bool)
    requires Inv(m, places) && m.central != [] && m.central[0] == AddPortal(info)
    ensures Inv(TakeCentral(m, room), places)
  {
    assert CentralOk(m.ledger, Infos(m.peers), m.central[0]);
    PopKeeps(m, places);
    MuxerKeeps(m.(central := m.central[1..]), places, Add(m.muxer, info));
  }

  lemma RemovePortalKeeps(m: Mesh, places: Places, id: Identifier, room: bool)
    requires Inv(m, places) && m.central != [] && m.central[0] == RemovePortal(id)
    ensures Inv(TakeCentral(m, room), places)
  {
    PopKeeps(m, places);
    RemoveKeepsMesh(m.(central := m.central[1..]), places, id, room);
  }

  lemma CentralKeeps(m: Mesh, places: Places, room: bool) returns (places': Places)
    requires Inv(m, places) && m.central != []
    ensures Inv(TakeCentral(m, room), places') && Stays(places, places', Gone)
  {
    places' := places;
    assert CentralOk(m.ledger, Infos(m.peers), m.central[0]);
    match m.central[0]
    case MessageOut(message) => places' := MessageOutKeeps(m, places, message, room);
    case AddPortal(info) => AddPortalKeeps(m, places, info, room);
    case RemovePortal(id) => RemovePortalKeeps(m, places, id, room);
  }

  lemma RemoveKeepsMesh(m: Mesh, places: Places, id: Identifier, room: bool)
    requires Inv(m, places)
    ensures Inv(m.(muxer := Remove(m.muxer, id)), places)
    ensures GetPortal(m.muxer, id).Some? ==>
              Inv(Shutdown(m.(muxer := Remove(m.muxer, id)), Resolve(m.muxer, id).value, room), places)
  {
    MuxerKeeps(m, places, Remove(m.muxer, id));
    if GetPortal(m.muxer, id).Some? {
      ShutdownKeeps(m.(muxer := Remove(m.muxer, id)), places, Resolve(m.muxer, id).value, room);
    }
  }

  lemma ClosedKeepsMesh(m: Mesh, places: Places, action: Action)
    requires action.ChannelClosed? && Inv(m, places)
    ensures Inv(Next(m, action), places)
  {
    MuxerKeeps(m, places, Closed(m.muxer, action.key));
    ShutdownKeeps(m.(muxer := Closed(m.muxer, action.key)), places, action.key, action.room);
  }

  lemma AskRemoveKeeps(m: Mesh, places: Places, id: Identifier)
    requires Inv(m, places)
    ensures Inv(m.(central := m.central + [RemovePortal(id)]), places)
  {
    var m' := m.(central := m.central + [RemovePortal(id)]);
    CentralPush(m.ledger, Infos(m.peers), places, places, m.central, true, RemovePortal(id));
    assert CoreOk(m', places);
  }

  // ----- any step, any run

  lemma RouterKeeps(m: Mesh, places: Places, action: Action) returns (places': Places)
    requires action.RouteSelects? || action.RouteDies? || action.RouteReplies?
    requires Enabled(m, action) && Inv(m, places)
    ensures Inv(Next(m, action), places') && Stays(places, places', Gone)
  {
    match action
    case RouteSelects(_, _) =>
      SelectsKeeps(m, places, action);
      places' := places;
    case RouteDies(index) =>
      DiesKeeps(m, places, action);
      RoutedElsewhere(m.ledger, places, m.routing, index, Gone, "");
      places' := Moved(places, RouteToken(m.routing[index]), Gone);
    case RouteReplies(index, room) =>
      RepliesKeeps(m, places, action);
      RoutedElsewhere(m.ledger, places, m.routing, index, RepliesTo(m.routing[index], room), "");
      places' := Moved(places, RouteToken(m.routing[index]), RepliesTo(m.routing[index], room));
  }

  lemma MuxerStepKeeps(m: Mesh, places: Places, action: Action) returns (places': Places)
    requires action.Connect? || action.CentralTakes? || action.AskRemove? || action.ChannelClosed?
    requires Enabled(m, action) && Inv(m, places)
    ensures Inv(Next(m, action), places') && Stays(places, places', Gone)
  {
    places' := places;
    match action
    case Connect(info) => ConnectKeeps(m, places, info);
    case CentralTakes(room) => places' := CentralKeeps(m, places, room);
    case AskRemove(id) => AskRemoveKeeps(m, places, id);
    case ChannelClosed(_, _) => ClosedKeepsMesh(m, places, action);
  }

  lemma LocalLeavesGone(m: Mesh, places: Places, action: Action)
    requires Local(action) && Enabled(m, action) && Inv(m, places)
    ensures var peer := m.peers[action.key];
            Stays(places, Moved(places, TokenOf(peer, action), Destination(peer, action)), Gone)
  {
    assert Infos(m.peers)[action.key].key == action.key;
    LocalOutside(m.ledger, places, m.peers[action.key].info, m.peers[action.key], action);
  }

  /** Every step keeps the mesh in order, for some places of the carriers; and nothing comes back that is
      gone. */
  lemma StepKeeps(m: Mesh, places: Places, action: Action) returns (places': Places)
    requires Enabled(m, action) && Inv(m, places)
    ensures Inv(Next(m, action), places') && Stays(places, places', Gone)
  {
    if Local(action) {
      LocalKeeps(m, places, action);
      LocalLeavesGone(m, places, action);
      places' := Moved(places, TokenOf(m.peers[action.key], action), Destination(m.peers[action.key], action));
    } else if action.RouteSelects? || action.RouteDies? || action.RouteReplies? {
      places' := RouterKeeps(m, places, action);
    } else {
      places' := MuxerStepKeeps(m, places, action);
    }
  }

  /** Every reachable state is in order. */
  lemma {:induction false} RunKeeps(actions: seq<Action>, m: Mesh) returns (places: Places)
    requires Reached(actions, m)
    ensures Inv(m, places)
  {
    if actions == [] {
      places := map[];
    } else {
      var before := Network.Run(actions[..|actions| - 1]).value;
      places := RunKeeps(actions[..|actions| - 1], before);
      places := StepKeeps(before, places, actions[|actions| - 1]);
    }
  }

  // ----- exchanges whose carrier is gone

  /** The exchange is pending at this client, and nothing of it is under way any more. */
  ghost predicate Stranded(m: Mesh, places: Places, key: Key, e: ExchangeId) {
    key in m.peers && e in m.peers[key].client.exchanges && e in places && places[e] == Gone
  }

  lemma PeerKeepsPending(ledger: Ledger, places: Places, info: Info, peer: Peer, action: Action, e: ExchangeId)
    requires CanAct(ledger, places, info, peer, action)
    requires e in peer.client.exchanges && e in places && places[e] == Gone
    ensures e in PeerStep(peer, action).client.exchanges
  {
    if action.Receive? {
      assert DownLane(ledger, places, info, peer.down);
      assert DownToken(peer.down[0]) != Some(e);
    }
  }

  /** What happens elsewhere leaves every client alone. */
  lemma OthersKeepClients(m: Mesh, action: Action, key: Key)
    requires !Local(action) && Enabled(m, action) && key in m.peers
    ensures key in Next(m, action).peers && Next(m, action).peers[key].client == m.peers[key].client
  {}

  lemma LocalElsewhere(m: Mesh, action: Action, key: Key)
    requires Local(action) && Enabled(m, action) && key in m.peers && key != action.key
    ensures key in Next(m, action).peers && Next(m, action).peers[key] == m.peers[key]
  {}

  lemma LocalHere(m: Mesh, places: Places, action: Action, e: ExchangeId)
    requires Local(action) && Enabled(m, action) && Inv(m, places) && Stranded(m, places, action.key, e)
    ensures action.key in Next(m, action).peers && e in Next(m, action).peers[action.key].client.exchanges
  {
    var peer := m.peers[action.key];
    assert Infos(m.peers)[action.key] == peer.info;
    assert CanAct(m.ledger, places, peer.info, peer, action);
    PeerKeepsPending(m.ledger, places, peer.info, peer, action, e);
    LocalFrame(m, action, PeerStep(peer, action));
  }

  lemma StepStrands(m: Mesh, places: Places, places': Places, action: Action, key: Key, e: ExchangeId)
    requires Enabled(m, action) && Inv(m, places) && Stranded(m, places, key, e) && Stays(places, places', Gone)
    ensures Stranded(Next(m, action), places', key, e)
  {
    if Local(action) && action.key == key {
      LocalHere(m, places, action, e);
    } else if Local(action) {
      LocalElsewhere(m, action, key);
    } else {
      OthersKeepClients(m, action, key);
    }
  }

  lemma StrandsOn(m: Mesh, places: Places, action: Action, key: Key, e: ExchangeId) returns (places': Places)
    requires Enabled(m, action) && Inv(m, places) && Stranded(m, places, key, e)
    ensures Inv(Next(m, action), places') && Stranded(Next(m, action), places', key, e)
  {
    places' := StepKeeps(m, places, action);
    StepStrands(m, places, places', action, key, e);
  }

  /** Such an exchange stays as it is, however the run goes on. */
  lemma {:induction false} StaysStranded(m: Mesh, places: Places, key: Key, e: ExchangeId, more: seq<Action>, m': Mesh)
    returns (places': Places)
    requires Inv(m, places) && Stranded(m, places, key, e) && Continues(m, more, m')
    ensures Inv(m', places') && Stranded(m', places', key, e)
  {
    if more == [] {
      places' := places;
    } else {
      var before := Network.RunFrom(m, more[..|more| - 1]).value;
      places' := StaysStranded(m, places, key, e, more[..|more| - 1], before);
      places' := StrandsOn(before, places', more[|more| - 1], key, e);
    }
  }
}
