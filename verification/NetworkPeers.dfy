/** What each local action does to its peer. */
module NetworkPeers {
  import opened Outcomes
  import opened Messages
  import opened Network
  import Server = ServerPortal
  import Client = ClientPortal
  import opened NetworkInvariant
  import opened NetworkLanes

  /** The carrier a local action moves. */
  function TokenOf(peer: Peer, action: Action): Option<ExchangeId>
    requires Local(action) && PeerEnabled(peer, action)
  {
    match action
    case Emit(_, index, _) => OpenToken(peer.opening[index])
    case Relay(_, _) => UpToken(peer.up[0])
    case Handle(_, _, _) => CallToken(peer.calls[0])
    case SendNext(_, _) => MuxToken(peer.fan[0])
    case Receive(_, _) => DownToken(peer.down[0])
    case Finish(_, index) => RunToken(peer.client.running[index])
    case MuxTakes(_) => MuxToken(peer.mux[0])
    case _ => NewId(action)
  }

  predicate First(rooms: seq<bool>) { rooms != [] && rooms[0] }

  /** Where it goes. */
  function Destination(peer: Peer, action: Action): Place
    requires Local(action) && PeerEnabled(peer, action)
  {
    var key := action.key;
    match action
    case Open(_, _, _, _) => Opening(key)
    case Emit(_, _, room) => if room then Up(key) else Gone
    case Relay(_, room) => if room then Calls(key) else Gone
    case Handle(_, rooms, _) => HandledTo(key, peer.info, peer.calls[0], rooms)
    case SendNext(_, room) => if room then ToMux(key) else Gone
    case ServerSends(_, _) => Down(key)
    case Receive(_, _) => ReceivedTo(key, peer.client, peer.down[0])
    case MuxTakes(_) => Routing
    case _ => Gone
  }

  function ReceivedTo(key: Key, client: Client.ClientState, frame: OutletFrame): Place {
    if frame.OutRequest? && client.status == Ready then Running(key) else Gone
  }

  /** Where the carrier of a handled call goes. */
  function HandledTo(key: Key, info: Info, call: Server.PortalCall, rooms: seq<bool>): Place {
    if Server.MuxSends(info, call) != [] then Sending(key) else if First(rooms) then Down(key) else Gone
  }

  /** What a local action writes into the ledger is new, and an exchange only of the client it is for. */
  lemma RecordedExtends(ledger: Ledger, action: Action, key: Key)
    requires Local(action) && (NewId(action).Some? ==> NewId(action).value !in ledger.openings)
    ensures Extends(ledger, Recorded(ledger, action))
    ensures key != action.key || !action.Open? ==> NotBy(ledger, Recorded(ledger, action), key)
    ensures Recorded(ledger, action).openings.Keys ==
            ledger.openings.Keys + if NewId(action).Some? then {NewId(action).value} else {}
  {}

  /** A local action before it touches its peer. */
  ghost predicate CanAct(ledger: Ledger, places: Places, info: Info, peer: Peer, action: Action) {
    && Local(action) && PeerEnabled(peer, action) && action.key == info.key
    && (NewId(action).Some? ==> NewId(action).value !in ledger.openings)
    && PeerOk(ledger, places, info, peer) && places.Keys == ledger.openings.Keys
  }

  // ----- what a step leaves alone

  /** A carrier that leaves one place leaves nothing else. */
  lemma MovesOn(places: Places, token: Option<ExchangeId>, from: Place, to: Place)
    requires token.Some? ==> token.value in places && places[token.value] == from
    ensures forall here :: here != from ==> Stays(places, Moved(places, token, to), here)
  {}

  lemma Enters(places: Places, token: Option<ExchangeId>, to: Place)
    requires token.Some? ==> token.value !in places
    ensures forall here :: Stays(places, Moved(places, token, to), here)
  {}

  // ----- sending

  lemma OpenBalance(ledger: Ledger, ledger': Ledger, places: Places, places': Places,
                    key: Key, pending: set<ExchangeId>, delivered: seq<Client.Delivery>, id: ExchangeId)
    requires BalanceOk(ledger, places, key, pending, DeliveredIds(delivered))
    requires DeliveriesOk(ledger, places, key, delivered)
    requires id !in ledger.openings && ledger'.openings.Keys == ledger.openings.Keys + {id} && Extends(ledger, ledger')
    requires forall e :: e in places' && e != id ==> e in places && places'[e] == places[e]
    ensures BalanceOk(ledger', places', key, pending + {id}, DeliveredIds(delivered))
  {
    assert id !in DeliveredIds(delivered);
  }

  lemma OpenClient(ledger: Ledger, ledger': Ledger, places: Places, places': Places,
                   key: Key, client: Client.ClientState, id: ExchangeId)
    requires ClientOk(ledger, places, key, client) && places.Keys == ledger.openings.Keys
    requires id !in ledger.openings && ledger'.openings.Keys == ledger.openings.Keys + {id} && Extends(ledger, ledger')
    requires Opened(ledger', key, id)
    requires places'.Keys == ledger'.openings.Keys && forall e :: e in places ==> places'[e] == places[e]
    ensures ClientOk(ledger', places', key, client.(exchanges := client.exchanges[id := ledger'.openings[id].slot]))
  {
    DeliveriesStay(ledger, ledger', places, places', key, client.delivered);
    OpenBalance(ledger, ledger', places, places', key, client.exchanges.Keys, client.delivered, id);
    assert client.exchanges[id := ledger'.openings[id].slot].Keys == client.exchanges.Keys + {id};
  }

  lemma OpenPeer(ledger: Ledger, places: Places, info: Info, peer: Peer, action: Action)
    requires action.Open? && CanAct(ledger, places, info, peer, action)
    ensures PeerOk(Recorded(ledger, action), Moved(places, Some(action.id), Opening(info.key)), info, PeerStep(peer, action))
  {
    var ledger', places' := Recorded(ledger, action), Moved(places, Some(action.id), Opening(info.key));
    RecordedExtends(ledger, action, info.key);
    Enters(places, Some(action.id), Opening(info.key));
    LanesStay(ledger, ledger', places, places', info, peer, Opening(info.key));
    OpenStays(ledger, ledger', places, places, info, peer.opening);
    OpenPush(ledger', places, places', info, peer.opening, true, Client.Tagged(action.request, action.id));
    OpenClient(ledger, ledger', places, places', info.key, peer.client, action.id);
  }

  /** The request leaves its caller for the uplink, or is dropped there. */
  lemma EmitPeer(ledger: Ledger, places: Places, info: Info, peer: Peer, action: Action)
    requires action.Emit? && CanAct(ledger, places, info, peer, action)
    ensures PeerOk(ledger, Moved(places, TokenOf(peer, action), Destination(peer, action)), info, PeerStep(peer, action))
  {
    var to := Destination(peer, action);
    var places' := Moved(places, TokenOf(peer, action), to);
    MovesOn(places, TokenOf(peer, action), Opening(info.key), to);
    LanesStay(ledger, ledger, places, places', info, peer, Opening(info.key));
    OpenDrop(ledger, places, info, peer.opening, action.index, to);
    UpPush(ledger, places, places', info, peer.up, action.room, InRequest(peer.opening[action.index]));
  }

  lemma ServerSendsPeer(ledger: Ledger, places: Places, info: Info, peer: Peer, action: Action)
    requires action.ServerSends? && CanAct(ledger, places, info, peer, action)
    ensures PeerOk(Recorded(ledger, action), Moved(places, NewId(action), Down(info.key)), info, PeerStep(peer, action))
  {
    var ledger', places' := Recorded(ledger, action), Moved(places, NewId(action), Down(info.key));
    RecordedExtends(ledger, action, info.key);
    Enters(places, NewId(action), Down(info.key));
    LanesStay(ledger, ledger', places, places', info, peer, Down(info.key));
    DownStays(ledger, ledger', places, places, info, peer.down);
    DownPush(ledger', places, places', info, peer.down, true, action.out);
  }

  lemma RelayPeer(ledger: Ledger, places: Places, info: Info, peer: Peer, action: Action)
    requires action.Relay? && CanAct(ledger, places, info, peer, action)
    ensures PeerOk(ledger, Moved(places, TokenOf(peer, action), Destination(peer, action)), info, PeerStep(peer, action))
  {
    var to := Destination(peer, action);
    var places' := Moved(places, TokenOf(peer, action), to);
    MovesOn(places, TokenOf(peer, action), Up(info.key), to);
    LanesStay(ledger, ledger, places, places', info, peer, Up(info.key));
    UpPop(ledger, places, info, peer.up, to);
    CallPush(ledger, places, places', info, peer.calls, action.room, Server.FrameIn(peer.up[0]));
  }

  lemma MuxTakesPeer(ledger: Ledger, places: Places, info: Info, peer: Peer, action: Action)
    requires action.MuxTakes? && CanAct(ledger, places, info, peer, action)
    ensures PeerOk(ledger, Moved(places, TokenOf(peer, action), Routing), info, PeerStep(peer, action))
  {
    var places' := Moved(places, TokenOf(peer, action), Routing);
    MovesOn(places, TokenOf(peer, action), ToMux(info.key), Routing);
    LanesStay(ledger, ledger, places, places', info, peer, ToMux(info.key));
    MuxPop(ledger, places, info, peer.mux, Routing);
  }

  /** Frames without a carrier join the queues of the peer, or a caller times out. */
  lemma QuietPeer(ledger: Ledger, places: Places, info: Info, peer: Peer, action: Action)
    requires action.Notify? || action.SendOther? || action.SetStatus? || action.ServerOpens? || action.TimesOut?
    requires CanAct(ledger, places, info, peer, action)
    ensures PeerOk(Recorded(ledger, action), places, info, PeerStep(peer, action))
  {
    var ledger' := Recorded(ledger, action);
    RecordedExtends(ledger, action, info.key);
    BystanderKeeps(ledger, ledger', places, places, info, peer);
    match action {
      case Notify(_, request, room) =>
        UpPush(ledger', places, places, info, peer.up, room, InRequest(request.(kind := Notification)));
      case SendOther(_, frame) => UpPush(ledger', places, places, info, peer.up, true, frame);
      case SetStatus(_, status, room) => UpPush(ledger', places, places, info, peer.up, room, InStatus(status));
      case ServerOpens(_, id, slot) => CallPush(ledger', places, places, info, peer.calls, true, Server.Exchange(id, slot));
      case TimesOut(_, _) =>
    }
  }

  // ----- receiving

  /** A response that comes out of the downlink of its client finds its exchange pending. */
  lemma ResponsePending(ledger: Ledger, places: Places, info: Info, peer: Peer)
    requires PeerOk(ledger, places, info, peer) && places.Keys == ledger.openings.Keys
    requires peer.down != [] && peer.down[0].OutResponse?
    ensures peer.down[0].response.exchangeId in peer.client.exchanges
    ensures ResponseOk(ledger, info.key, peer.down[0].response)
  {
    assert DownToken(peer.down[0]).Some?;
    assert DownOk(ledger, info, peer.down[0]);
    assert Opened(ledger, info.key, peer.down[0].response.exchangeId);
  }

  lemma DeliveredPush(delivered: seq<Client.Delivery>, d: Client.Delivery)
    ensures DeliveredIds(delivered + [d]) == DeliveredIds(delivered) + {d.response.exchangeId}
  {
    var longer := delivered + [d];
    forall e | e in DeliveredIds(delivered) ensures e in DeliveredIds(longer) {
      var i :| 0 <= i < |delivered| && delivered[i].response.exchangeId == e;
      assert longer[i] == delivered[i];
    }
    assert longer[|delivered|] == d;
  }

  lemma DeliverDeliveries(ledger: Ledger, places: Places, places': Places, key: Key,
                          delivered: seq<Client.Delivery>, d: Client.Delivery)
    requires DeliveriesOk(ledger, places, key, delivered) && DeliveryOk(ledger, places', key, d)
    requires d.response.exchangeId !in DeliveredIds(delivered)
    requires Stays(places, places', Gone)
    ensures DeliveriesOk(ledger, places', key, delivered + [d])
  {
    DeliveriesStay(ledger, ledger, places, places', key, delivered);
    assert forall i :: 0 <= i < |delivered| ==> delivered[i].response.exchangeId in DeliveredIds(delivered);
  }

  lemma DeliverClient(ledger: Ledger, places: Places, places': Places, key: Key,
                      client: Client.ClientState, response: OutletResponse, lapses: bool)
    requires ClientOk(ledger, places, key, client) && places.Keys == ledger.openings.Keys
    requires ResponseOk(ledger, key, response) && response.exchangeId in client.exchanges
    requires places[response.exchangeId] != Gone && places' == places[response.exchangeId := Gone]
    requires client.status == Ready
    ensures ClientOk(ledger, places', key, Client.Receive(client, OutResponse(response), lapses))
  {
    var e := response.exchangeId;
    var d := Client.Handed(client, response, lapses);
    DeliverDeliveries(ledger, places, places', key, client.delivered, d);
    DeliveredPush(client.delivered, d);
    assert (client.exchanges - {e}).Keys == client.exchanges.Keys - {e};
  }

  /** The handlers of a peer that received a frame: one more when it was a request and the portal is Ready. */
  lemma ReceiveRuns(ledger: Ledger, places: Places, places': Places, info: Info, client: Client.ClientState,
                    frame: OutletFrame, lapses: bool)
    requires RunLane(ledger, places, info, client.running) && DownOk(ledger, info, frame)
    requires DownToken(frame).Some? ==> DownToken(frame).value in places && places[DownToken(frame).value] == Down(info.key)
    requires places' == Moved(places, DownToken(frame), ReceivedTo(info.key, client, frame))
    ensures RunLane(ledger, places', info, Client.Receive(client, frame, lapses).running)
  {
    if frame.OutRequest? && client.status == Ready {
      RunPush(ledger, places, places', info, client.running, true, frame.request);
    } else {
      RunStays(ledger, ledger, places, places', info, client.running);
    }
  }

  lemma ReceiveClient(ledger: Ledger, places: Places, places': Places, info: Info, peer: Peer, lapses: bool)
    requires PeerOk(ledger, places, info, peer) && places.Keys == ledger.openings.Keys && peer.down != []
    requires places' == Moved(places, DownToken(peer.down[0]), ReceivedTo(info.key, peer.client, peer.down[0]))
    ensures ClientOk(ledger, places', info.key, Client.Receive(peer.client, peer.down[0], lapses))
  {
    var frame := peer.down[0];
    if frame.OutResponse? && peer.client.status == Ready {
      ResponsePending(ledger, places, info, peer);
      DeliverClient(ledger, places, places', info.key, peer.client, frame.response, lapses);
    } else {
      ClientStays(ledger, ledger, places, places', info.key, peer.client);
    }
  }

  lemma ReceivePeer(ledger: Ledger, places: Places, info: Info, peer: Peer, action: Action)
    requires action.Receive? && CanAct(ledger, places, info, peer, action)
    ensures PeerOk(ledger, Moved(places, TokenOf(peer, action), Destination(peer, action)), info, PeerStep(peer, action))
  {
    var places' := Moved(places, TokenOf(peer, action), Destination(peer, action));
    MovesOn(places, TokenOf(peer, action), Down(info.key), Destination(peer, action));
    LanesStay(ledger, ledger, places, places', info, peer, Down(info.key));
    DownPop(ledger, places, info, peer.down, Destination(peer, action));
    ReceiveRuns(ledger, places, places', info, peer.client, peer.down[0], action.lapses);
    ReceiveClient(ledger, places, places', info, peer, action.lapses);
  }

  /** A handler finishes; the exchange of its request, passed on from elsewhere, stays without an answer. */
  lemma FinishPeer(ledger: Ledger, places: Places, info: Info, peer: Peer, action: Action)
    requires action.Finish? && CanAct(ledger, places, info, peer, action)
    ensures PeerOk(ledger, Moved(places, TokenOf(peer, action), Gone), info, PeerStep(peer, action))
  {
    var places' := Moved(places, TokenOf(peer, action), Gone);
    MovesOn(places, TokenOf(peer, action), Running(info.key), Gone);
    LanesStay(ledger, ledger, places, places', info, peer, Running(info.key));
    RunDrop(ledger, places, info, peer.client.running, action.index, Gone);
  }

  // ----- handling a call

  /** What a call makes the task send to the muxer are stamped copies of what the client sent. */
  lemma SendsOk(ledger: Ledger, info: Info, call: Server.PortalCall)
    requires CallOk(ledger, info, call)
    ensures forall i :: 0 <= i < |Server.MuxSends(info, call)| ==> MuxOk(ledger, info.key, Server.MuxSends(info, call)[i])
  {
    var sends := Server.MuxSends(info, call);
    forall i | 0 <= i < |sends| ensures MuxOk(ledger, info.key, sends[i]) {
      if call.frame.request.kind.Notification? {
        assert CopyOfNotice(ledger, sends[i], info.key, call.frame.request.to);
      }
    }
  }

  /** A single-recipient exchange becomes one message with its id. */
  lemma StampedToken(info: Info, call: Server.PortalCall)
    requires CallToken(call).Some? && Server.MuxSends(info, call) != []
    ensures |Server.MuxSends(info, call)| == 1 && MuxToken(Server.MuxSends(info, call)[0]) == CallToken(call)
  {}

  lemma QuietSends(info: Info, call: Server.PortalCall)
    requires CallToken(call).None? || Server.MuxSends(info, call) == []
    ensures forall i :: 0 <= i < |Server.MuxSends(info, call)| ==> MuxToken(Server.MuxSends(info, call)[i]).None?
  {}

  /** The frame a call puts on the downlink carries the exchange of the call, if any: the frame of the call
      itself, or the refusal of its request. */
  lemma OutletOk(ledger: Ledger, info: Info, call: Server.PortalCall)
    requires CallOk(ledger, info, call) && Server.OutletSends(info, call) != []
    ensures var sends := Server.OutletSends(info, call);
            && |sends| == 1 && DownOk(ledger, info, sends[0]) && DownToken(sends[0]) == CallToken(call)
            && Server.MuxSends(info, call) == []
  {}

  lemma HandleFan(ledger: Ledger, places: Places, info: Info, call: Server.PortalCall, rooms: seq<bool>)
    requires CallOk(ledger, info, call)
    requires CallToken(call).Some? ==> CallToken(call).value in places && places[CallToken(call).value] == Calls(info.key)
    ensures FanLane(ledger, Moved(places, CallToken(call), HandledTo(info.key, info, call, rooms)), info.key,
                    Server.MuxSends(info, call))
  {
    SendsOk(ledger, info, call);
    if CallToken(call).None? || Server.MuxSends(info, call) == [] {
      QuietSends(info, call);
    } else {
      StampedToken(info, call);
    }
  }

  lemma HandleDown(ledger: Ledger, places: Places, places': Places, info: Info,
                   down: seq<OutletFrame>, call: Server.PortalCall, rooms: seq<bool>)
    requires DownLane(ledger, places, info, down) && CallOk(ledger, info, call)
    requires CallToken(call).Some? ==> CallToken(call).value in places && places[CallToken(call).value] == Calls(info.key)
    requires places' == Moved(places, CallToken(call), HandledTo(info.key, info, call, rooms))
    ensures DownLane(ledger, places', info, down + Server.Taken(Server.OutletSends(info, call), rooms))
  {
    var sends := Server.OutletSends(info, call);
    if sends == [] {
      DownStays(ledger, ledger, places, places', info, down);
      assert down + [] == down;
    } else {
      OutletOk(ledger, info, call);
      assert sends == [sends[0]];
      Server.OneSend(sends[0], rooms);
      DownPush(ledger, places, places', info, down, First(rooms), sends[0]);
    }
  }

  lemma SendNextPeer(ledger: Ledger, places: Places, info: Info, peer: Peer, action: Action)
    requires action.SendNext? && CanAct(ledger, places, info, peer, action)
    ensures PeerOk(ledger, Moved(places, TokenOf(peer, action), Destination(peer, action)), info, PeerStep(peer, action))
  {
    var to := Destination(peer, action);
    var places' := Moved(places, TokenOf(peer, action), to);
    MovesOn(places, TokenOf(peer, action), Sending(info.key), to);
    LanesStay(ledger, ledger, places, places', info, peer, Sending(info.key));
    FanPop(ledger, places, info, peer.fan, to);
    MuxPush(ledger, places, places', info, peer.mux, action.room, peer.fan[0]);
  }

  lemma HandlePeer(ledger: Ledger, places: Places, info: Info, peer: Peer, action: Action)
    requires action.Handle? && CanAct(ledger, places, info, peer, action)
    ensures PeerOk(ledger, Moved(places, TokenOf(peer, action), Destination(peer, action)), info, PeerStep(peer, action))
  {
    var call, to := peer.calls[0], Destination(peer, action);
    var places' := Moved(places, TokenOf(peer, action), to);
    MovesOn(places, TokenOf(peer, action), Calls(info.key), to);
    LanesStay(ledger, ledger, places, places', info, peer, Calls(info.key));
    CallPop(ledger, places, info, peer.calls, to);
    HandleFan(ledger, places, info, call, action.rooms);
    HandleDown(ledger, places, places', info, peer.down, call, action.rooms);
  }
}
