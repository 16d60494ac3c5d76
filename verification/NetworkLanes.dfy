/** How the invariant of one queue, and of a peer that takes no part, survives a step. */
module NetworkLanes {
  import opened Outcomes
  import opened Messages
  import opened Muxer
  import opened Network
  import Server = ServerPortal
  import Client = ClientPortal
  import opened NetworkInvariant

  // ----- one lane: nothing happens to it, a frame joins it, its head leaves it

  lemma OpenStays(ledger: Ledger, ledger': Ledger, places: Places, places': Places, info: Info, opening: seq<InletRequest>)
    requires OpenLane(ledger, places, info.key, opening) && Extends(ledger, ledger') && Stays(places, places', Opening(info.key))
    ensures OpenLane(ledger', places', info.key, opening)
  {
    HoldsStays(opening, OpenToken, places, places', Opening(info.key));
  }

  lemma OpenPush(ledger: Ledger, places: Places, places': Places, info: Info, opening: seq<InletRequest>,
                room: bool, item: InletRequest)
    requires OpenLane(ledger, places, info.key, opening) && Stays(places, places', Opening(info.key))
    requires room ==> Logged(ledger, info.key, item) && Arrives(OpenToken(item), places, places', Opening(info.key))
    ensures OpenLane(ledger, places', info.key, opening + If(room, item))
  {
    HoldsPush(opening, room, item, OpenToken, places, places', Opening(info.key));
  }

  lemma OpenDrop(ledger: Ledger, places: Places, info: Info, opening: seq<InletRequest>, index: nat, to: Place)
    requires index < |opening| && OpenLane(ledger, places, info.key, opening)
    ensures OpenLane(ledger, Moved(places, OpenToken(opening[index]), to), info.key, Without(opening, index))
  {
    HoldsDrop(opening, index, OpenToken, places, Opening(info.key), to);
  }

  lemma UpStays(ledger: Ledger, ledger': Ledger, places: Places, places': Places, info: Info, up: seq<InletFrame>)
    requires UpLane(ledger, places, info.key, up) && Extends(ledger, ledger') && Stays(places, places', Up(info.key))
    ensures UpLane(ledger', places', info.key, up)
  {
    HoldsStays(up, UpToken, places, places', Up(info.key));
  }

  lemma UpPush(ledger: Ledger, places: Places, places': Places, info: Info, up: seq<InletFrame>,
                room: bool, item: InletFrame)
    requires UpLane(ledger, places, info.key, up) && Stays(places, places', Up(info.key))
    requires room ==> UpOk(ledger, info.key, item) && Arrives(UpToken(item), places, places', Up(info.key))
    ensures UpLane(ledger, places', info.key, up + If(room, item))
  {
    HoldsPush(up, room, item, UpToken, places, places', Up(info.key));
  }

  lemma UpPop(ledger: Ledger, places: Places, info: Info, up: seq<InletFrame>, to: Place)
    requires up != [] && UpLane(ledger, places, info.key, up)
    ensures UpLane(ledger, Moved(places, UpToken(up[0]), to), info.key, up[1..])
  {
    HoldsPop(up, UpToken, places, Up(info.key), to);
  }

  lemma CallStays(ledger: Ledger, ledger': Ledger, places: Places, places': Places, info: Info, calls: seq<Server.PortalCall>)
    requires CallLane(ledger, places, info, calls) && Extends(ledger, ledger') && Stays(places, places', Calls(info.key))
    ensures CallLane(ledger', places', info, calls)
  {
    HoldsStays(calls, CallToken, places, places', Calls(info.key));
    forall i | 0 <= i < |calls| ensures CallOk(ledger', info, calls[i]) {
      CallOkStays(ledger, ledger', info, calls[i]);
    }
  }

  lemma CallPush(ledger: Ledger, places: Places, places': Places, info: Info, calls: seq<Server.PortalCall>,
                room: bool, item: Server.PortalCall)
    requires CallLane(ledger, places, info, calls) && Stays(places, places', Calls(info.key))
    requires room ==> CallOk(ledger, info, item) && Arrives(CallToken(item), places, places', Calls(info.key))
    ensures CallLane(ledger, places', info, calls + If(room, item))
  {
    HoldsPush(calls, room, item, CallToken, places, places', Calls(info.key));
  }

  lemma CallPop(ledger: Ledger, places: Places, info: Info, calls: seq<Server.PortalCall>, to: Place)
    requires calls != [] && CallLane(ledger, places, info, calls)
    ensures CallLane(ledger, Moved(places, CallToken(calls[0]), to), info, calls[1..])
  {
    HoldsPop(calls, CallToken, places, Calls(info.key), to);
  }

  lemma FanStays(ledger: Ledger, ledger': Ledger, places: Places, places': Places, info: Info, fan: seq<MeshRequest<Operation>>)
    requires FanLane(ledger, places, info.key, fan) && Extends(ledger, ledger') && Stays(places, places', Sending(info.key))
    ensures FanLane(ledger', places', info.key, fan)
  {
    HoldsStays(fan, MuxToken, places, places', Sending(info.key));
    forall i | 0 <= i < |fan| ensures MuxOk(ledger', info.key, fan[i]) {
      RequestStays(ledger, ledger', fan[i]);
    }
  }

  lemma FanPop(ledger: Ledger, places: Places, info: Info, fan: seq<MeshRequest<Operation>>, to: Place)
    requires fan != [] && FanLane(ledger, places, info.key, fan)
    ensures FanLane(ledger, Moved(places, MuxToken(fan[0]), to), info.key, fan[1..])
  {
    HoldsPop(fan, MuxToken, places, Sending(info.key), to);
  }

  lemma MuxStays(ledger: Ledger, ledger': Ledger, places: Places, places': Places, info: Info, mux: seq<MeshRequest<Operation>>)
    requires MuxLane(ledger, places, info.key, mux) && Extends(ledger, ledger') && Stays(places, places', ToMux(info.key))
    ensures MuxLane(ledger', places', info.key, mux)
  {
    HoldsStays(mux, MuxToken, places, places', ToMux(info.key));
    forall i | 0 <= i < |mux| ensures MuxOk(ledger', info.key, mux[i]) {
      RequestStays(ledger, ledger', mux[i]);
    }
  }

  lemma MuxPush(ledger: Ledger, places: Places, places': Places, info: Info, mux: seq<MeshRequest<Operation>>,
                room: bool, item: MeshRequest<Operation>)
    requires MuxLane(ledger, places, info.key, mux) && Stays(places, places', ToMux(info.key))
    requires room ==> MuxOk(ledger, info.key, item) && Arrives(MuxToken(item), places, places', ToMux(info.key))
    ensures MuxLane(ledger, places', info.key, mux + If(room, item))
  {
    HoldsPush(mux, room, item, MuxToken, places, places', ToMux(info.key));
  }

  lemma MuxPop(ledger: Ledger, places: Places, info: Info, mux: seq<MeshRequest<Operation>>, to: Place)
    requires mux != [] && MuxLane(ledger, places, info.key, mux)
    ensures MuxLane(ledger, Moved(places, MuxToken(mux[0]), to), info.key, mux[1..])
  {
    HoldsPop(mux, MuxToken, places, ToMux(info.key), to);
  }

  lemma DownStays(ledger: Ledger, ledger': Ledger, places: Places, places': Places, info: Info, down: seq<OutletFrame>)
    requires DownLane(ledger, places, info, down) && Extends(ledger, ledger') && Stays(places, places', Down(info.key))
    ensures DownLane(ledger', places', info, down)
  {
    HoldsStays(down, DownToken, places, places', Down(info.key));
    forall i | 0 <= i < |down| ensures DownOk(ledger', info, down[i]) {
      DownOkStays(ledger, ledger', info, down[i]);
    }
  }

  lemma DownPush(ledger: Ledger, places: Places, places': Places, info: Info, down: seq<OutletFrame>,
                room: bool, item: OutletFrame)
    requires DownLane(ledger, places, info, down) && Stays(places, places', Down(info.key))
    requires room ==> DownOk(ledger, info, item) && Arrives(DownToken(item), places, places', Down(info.key))
    ensures DownLane(ledger, places', info, down + If(room, item))
  {
    HoldsPush(down, room, item, DownToken, places, places', Down(info.key));
  }

  lemma DownPop(ledger: Ledger, places: Places, info: Info, down: seq<OutletFrame>, to: Place)
    requires down != [] && DownLane(ledger, places, info, down)
    ensures DownLane(ledger, Moved(places, DownToken(down[0]), to), info, down[1..])
  {
    HoldsPop(down, DownToken, places, Down(info.key), to);
  }

  lemma RunStays(ledger: Ledger, ledger': Ledger, places: Places, places': Places, info: Info, running: seq<OutletRequest>)
    requires RunLane(ledger, places, info, running) && Extends(ledger, ledger') && Stays(places, places', Running(info.key))
    ensures RunLane(ledger', places', info, running)
  {
    HoldsStays(running, RunToken, places, places', Running(info.key));
    forall i | 0 <= i < |running| ensures RequestAt(ledger', info, running[i]) {
      RequestAtStays(ledger, ledger', info, running[i]);
    }
  }

  lemma RunPush(ledger: Ledger, places: Places, places': Places, info: Info, running: seq<OutletRequest>,
                room: bool, item: OutletRequest)
    requires RunLane(ledger, places, info, running) && Stays(places, places', Running(info.key))
    requires room ==> RequestAt(ledger, info, item) && Arrives(RunToken(item), places, places', Running(info.key))
    ensures RunLane(ledger, places', info, running + If(room, item))
  {
    HoldsPush(running, room, item, RunToken, places, places', Running(info.key));
  }

  lemma RunDrop(ledger: Ledger, places: Places, info: Info, running: seq<OutletRequest>, index: nat, to: Place)
    requires index < |running| && RunLane(ledger, places, info, running)
    ensures RunLane(ledger, Moved(places, RunToken(running[index]), to), info, Without(running, index))
  {
    HoldsDrop(running, index, RunToken, places, Running(info.key), to);
  }

  lemma RouteStays(ledger: Ledger, ledger': Ledger, places: Places, places': Places, routing: seq<RouteTask>)
    requires RouteLane(ledger, places, routing) && Extends(ledger, ledger') && Stays(places, places', Routing)
    ensures RouteLane(ledger', places', routing)
  {
    HoldsStays(routing, RouteToken, places, places', Routing);
    forall i | 0 <= i < |routing| ensures RouteOk(ledger', routing[i]) {
      RequestStays(ledger, ledger', routing[i].request);
    }
  }

  lemma RoutePush(ledger: Ledger, places: Places, places': Places, routing: seq<RouteTask>, item: RouteTask)
    requires RouteLane(ledger, places, routing) && Stays(places, places', Routing)
    requires RouteOk(ledger, item) && Arrives(RouteToken(item), places, places', Routing)
    ensures RouteLane(ledger, places', routing + [item])
  {
    HoldsPush(routing, true, item, RouteToken, places, places', Routing);
  }

  lemma RouteDrop(ledger: Ledger, places: Places, routing: seq<RouteTask>, index: nat, to: Place)
    requires index < |routing| && RouteLane(ledger, places, routing)
    ensures RouteLane(ledger, Moved(places, RouteToken(routing[index]), to), Without(routing, index))
  {
    HoldsDrop(routing, index, RouteToken, places, Routing, to);
  }

  lemma RouteUpdate(ledger: Ledger, places: Places, routing: seq<RouteTask>, index: nat, item: RouteTask)
    requires index < |routing| && RouteLane(ledger, places, routing)
    requires item.request == routing[index].request && RouteOk(ledger, item)
    ensures RouteLane(ledger, places, routing[index := item])
  {
    var updated := routing[index := item];
    assert forall i :: 0 <= i < |updated| ==> updated[i].request == routing[i].request;
  }

  lemma CentralStays(ledger: Ledger, ledger': Ledger, infos: map<Key, Info>, infos': map<Key, Info>,
                     places: Places, places': Places, central: seq<MuxCall>)
    requires CentralLane(ledger, infos, places, central) && Extends(ledger, ledger')
    requires forall k :: k in infos ==> k in infos' && infos'[k] == infos[k]
    requires Stays(places, places', Central)
    ensures CentralLane(ledger', infos', places', central)
  {
    HoldsStays(central, CentralToken, places, places', Central);
    forall i | 0 <= i < |central| ensures CentralOk(ledger', infos', central[i]) {
      CentralOkStays(ledger, ledger', infos, infos', central[i]);
    }
  }

  lemma CentralPush(ledger: Ledger, infos: map<Key, Info>, places: Places, places': Places,
                    central: seq<MuxCall>, room: bool, item: MuxCall)
    requires CentralLane(ledger, infos, places, central) && Stays(places, places', Central)
    requires room ==> CentralOk(ledger, infos, item) && Arrives(CentralToken(item), places, places', Central)
    ensures CentralLane(ledger, infos, places', central + If(room, item))
  {
    HoldsPush(central, room, item, CentralToken, places, places', Central);
  }

  lemma CentralPop(ledger: Ledger, infos: map<Key, Info>, places: Places, central: seq<MuxCall>, to: Place)
    requires central != [] && CentralLane(ledger, infos, places, central)
    ensures CentralLane(ledger, infos, Moved(places, CentralToken(central[0]), to), central[1..])
  {
    HoldsPop(central, CentralToken, places, Central, to);
  }

  // ----- who takes no part in a step

  lemma DeliveriesStay(ledger: Ledger, ledger': Ledger, places: Places, places': Places,
                       key: Key, delivered: seq<Client.Delivery>)
    requires DeliveriesOk(ledger, places, key, delivered) && Extends(ledger, ledger') && Stays(places, places', Gone)
    ensures DeliveriesOk(ledger', places', key, delivered)
  {}

  lemma ClientStays(ledger: Ledger, ledger': Ledger, places: Places, places': Places,
                    key: Key, client: Client.ClientState)
    requires ClientOk(ledger, places, key, client)
    requires Extends(ledger, ledger') && NotBy(ledger, ledger', key)
    requires Stays(places, places', Gone) && places.Keys == ledger.openings.Keys
    ensures ClientOk(ledger', places', key, client)
  {
    DeliveriesStay(ledger, ledger', places, places', key, client.delivered);
  }

  /** What of a peer survives when nothing but `from` is left by a carrier: the queues elsewhere, and the client
      unless it opened an exchange. */
  lemma LanesStay(ledger: Ledger, ledger': Ledger, places: Places, places': Places, info: Info, peer: Peer, from: Place)
    requires PeerOk(ledger, places, info, peer) && Extends(ledger, ledger') && places.Keys == ledger.openings.Keys
    requires from != Gone && forall here :: here != from ==> Stays(places, places', here)
    ensures from != Opening(info.key) ==> OpenLane(ledger', places', info.key, peer.opening)
    ensures from != Up(info.key) ==> UpLane(ledger', places', info.key, peer.up)
    ensures from != Calls(info.key) ==> CallLane(ledger', places', info, peer.calls)
    ensures from != Sending(info.key) ==> FanLane(ledger', places', info.key, peer.fan)
    ensures from != ToMux(info.key) ==> MuxLane(ledger', places', info.key, peer.mux)
    ensures from != Down(info.key) ==> DownLane(ledger', places', info, peer.down)
    ensures from != Running(info.key) ==> RunLane(ledger', places', info, peer.client.running)
    ensures NotBy(ledger, ledger', info.key) ==> ClientOk(ledger', places', info.key, peer.client)
  {
    if from != Opening(info.key) { OpenStays(ledger, ledger', places, places', info, peer.opening); }
    if from != Up(info.key) { UpStays(ledger, ledger', places, places', info, peer.up); }
    if from != Calls(info.key) { CallStays(ledger, ledger', places, places', info, peer.calls); }
    if from != Sending(info.key) { FanStays(ledger, ledger', places, places', info, peer.fan); }
    if from != ToMux(info.key) { MuxStays(ledger, ledger', places, places', info, peer.mux); }
    if from != Down(info.key) { DownStays(ledger, ledger', places, places', info, peer.down); }
    if from != Running(info.key) { RunStays(ledger, ledger', places, places', info, peer.client.running); }
    if NotBy(ledger, ledger', info.key) { ClientStays(ledger, ledger', places, places', info.key, peer.client); }
  }

  lemma BystanderKeeps(ledger: Ledger, ledger': Ledger, places: Places, places': Places, info: Info, peer: Peer)
    requires PeerOk(ledger, places, info, peer)
    requires Extends(ledger, ledger') && NotBy(ledger, ledger', info.key) && Elsewhere(places, places', info.key)
    requires places.Keys == ledger.openings.Keys
    ensures PeerOk(ledger', places', info, peer)
  {
    OpenStays(ledger, ledger', places, places', info, peer.opening);
    UpStays(ledger, ledger', places, places', info, peer.up);
    CallStays(ledger, ledger', places, places', info, peer.calls);
    FanStays(ledger, ledger', places, places', info, peer.fan);
    MuxStays(ledger, ledger', places, places', info, peer.mux);
    DownStays(ledger, ledger', places, places', info, peer.down);
    RunStays(ledger, ledger', places, places', info, peer.client.running);
    ClientStays(ledger, ledger', places, places', info.key, peer.client);
  }

  /** Is the carrier at this peer, or outside all peers, or nowhere yet? */
  predicate Near(places: Places, token: Option<ExchangeId>, key: Key) {
    token.Some? && token.value in places ==>
      places[token.value] in {Opening(key), Up(key), Calls(key), Sending(key), ToMux(key), Down(key), Running(key), Routing, Central}
  }

  lemma MovedElsewhere(places: Places, token: Option<ExchangeId>, to: Place, key: Key, other: Key)
    requires key != other && Near(places, token, key)
    ensures Elsewhere(places, Moved(places, token, to), other)
  {}

  /** A step that touches one peer and moves one carrier at most. */
  lemma OnePeerKeeps(m: Mesh, m': Mesh, places: Places, token: Option<ExchangeId>, to: Place, key: Key)
    requires Inv(m, places) && Near(places, token, key)
    requires key in m'.peers && m'.peers == m.peers[key := m'.peers[key]]
    requires Extends(m.ledger, m'.ledger)
    requires forall k :: k in m.peers && k != key ==> NotBy(m.ledger, m'.ledger, k)
    requires PeerOk(m'.ledger, Moved(places, token, to), m'.peers[key].info, m'.peers[key])
    requires CoreOk(m', Moved(places, token, to))
    ensures Inv(m', Moved(places, token, to))
  {
    forall k | k in m'.peers && k != key
      ensures PeerOk(m'.ledger, Moved(places, token, to), m'.peers[k].info, m'.peers[k])
    {
      MovedElsewhere(places, token, to, key, k);
      assert Infos(m.peers)[k].key == k;
      BystanderKeeps(m.ledger, m'.ledger, places, Moved(places, token, to), m.peers[k].info, m.peers[k]);
    }
  }
}
