/** The portal muxer: which portals are live, and the two indexes between their keys and addresses. */
module Muxer {
  import opened Outcomes
  import opened Messages

  datatype MuxState = MuxState(
    portals: map<Key, Info>,
    addressToKey: map<Address, Key>,
    keyToAddress: map<Key, Address>)

  const EMPTY := MuxState(map[], map[], map[])

  function Add(m: MuxState, info: Info): MuxState {
    MuxState(m.portals[info.key := info],
             m.addressToKey[info.address := info.key],
             m.keyToAddress[info.key := info.address])
  }

  /** The key an identifier stands for. */
  function Resolve(m: MuxState, id: Identifier): Option<Key> {
    match id
    case ByKey(key) => Some(key)
    case ByAddress(address) => if address in m.addressToKey then Some(m.addressToKey[address]) else None
  }

  function Remove(m: MuxState, id: Identifier): MuxState {
    match Resolve(m, id)
    case None => m
    case Some(key) =>
      if key !in m.portals then m
      else
        var info := m.portals[key];
        MuxState(m.portals - {key}, m.addressToKey - {info.address}, m.keyToAddress - {info.key})
  }

  /** The channel of a portal closed: the portal goes, its index entries stay. */
  function Closed(m: MuxState, key: Key): MuxState {
    m.(portals := m.portals - {key})
  }

  function GetPortal(m: MuxState, id: Identifier): Option<Info> {
    match Resolve(m, id)
    case None => None
    case Some(key) => if key in m.portals then Some(m.portals[key]) else None
  }

  /** The two indexes invert each other and cover every live portal. They may also keep entries of
      portals that are gone. */
  ghost predicate Indexed(m: MuxState) {
    && (forall k :: k in m.keyToAddress ==>
          m.keyToAddress[k] in m.addressToKey && m.addressToKey[m.keyToAddress[k]] == k)
    && (forall a :: a in m.addressToKey ==>
          m.addressToKey[a] in m.keyToAddress && m.keyToAddress[m.addressToKey[a]] == a)
    && (forall k :: k in m.portals ==>
          m.portals[k].key == k && k in m.keyToAddress && m.keyToAddress[k] == m.portals[k].address)
  }

  /** Neither index holds the key or the address for somebody else. */
  predicate Agrees(m: MuxState, info: Info) {
    && (info.key in m.keyToAddress ==> m.keyToAddress[info.key] == info.address)
    && (info.address in m.addressToKey ==> m.addressToKey[info.address] == info.key)
  }

  /** Adding a portal keeps the indexes in order exactly when they do not contradict it. */
  lemma AddKeeps(m: MuxState, info: Info)
    requires Indexed(m)
    ensures Indexed(Add(m, info)) <==> Agrees(m, info)
  {
    var m' := Add(m, info);
    if info.key in m.keyToAddress && m.keyToAddress[info.key] != info.address {
      var stale := m.keyToAddress[info.key];
      assert stale in m'.addressToKey && m'.addressToKey[stale] == info.key;
    }
    if info.address in m.addressToKey && m.addressToKey[info.address] != info.key {
      var stale := m.addressToKey[info.address];
      assert stale in m'.keyToAddress && m'.keyToAddress[stale] == info.address;
    }
  }

  lemma RemoveKeeps(m: MuxState, id: Identifier)
    requires Indexed(m)
    ensures Indexed(Remove(m, id))
  {}

  lemma ClosedKeeps(m: MuxState, key: Key)
    requires Indexed(m)
    ensures Indexed(Closed(m, key))
  {}

  /** A closed channel leaves the address leading to the key of the portal that is gone: it still resolves, and
      to nothing. Every other portal is found as before. */
  lemma ClosedGoesStale(m: MuxState, key: Key, other: Identifier)
    requires Indexed(m) && key in m.portals
    ensures var m', address := Closed(m, key), m.portals[key].address;
            && Resolve(m', ByAddress(address)) == Some(key) && key in m'.keyToAddress && m'.keyToAddress[key] == address
            && GetPortal(m', ByAddress(address)).None? && GetPortal(m', ByKey(key)).None?
            && (other != ByKey(key) && other != ByAddress(address) ==> GetPortal(m', other) == GetPortal(m, other))
  {}

  /** Looking an address up finds exactly the live portal that has it, stale index entries or not. */
  lemma LookupIsScan(m: MuxState, address: Address, info: Info)
    requires Indexed(m)
    ensures GetPortal(m, ByAddress(address)) == Some(info) <==>
            info.address == address && info.key in m.portals && m.portals[info.key] == info
  {}

  datatype Step = AddStep(info: Info) | RemoveStep(id: Identifier) | ClosedStep(key: Key)

  function After(m: MuxState, step: Step): MuxState {
    match step
    case AddStep(info) => Add(m, info)
    case RemoveStep(id) => Remove(m, id)
    case ClosedStep(key) => Closed(m, key)
  }

  function Run(steps: seq<Step>): MuxState {
    if steps == [] then EMPTY else After(Run(steps[..|steps| - 1]), steps[|steps| - 1])
  }

  /** Each key always comes with the same address, and distinct keys with distinct addresses. */
  ghost predicate OneAddressPerKey(steps: seq<Step>) {
    forall i, j :: 0 <= i < j < |steps| && steps[i].AddStep? && steps[j].AddStep? ==>
      (steps[i].info.key == steps[j].info.key <==> steps[i].info.address == steps[j].info.address)
  }

  /** Index entries come from additions. */
  ghost predicate Added(steps: seq<Step>, key: Key, address: Address) {
    exists i :: 0 <= i < |steps| && steps[i].AddStep? && steps[i].info.key == key && steps[i].info.address == address
  }

  ghost predicate Traced(m: MuxState, steps: seq<Step>) {
    && (forall k :: k in m.keyToAddress ==> Added(steps, k, m.keyToAddress[k]))
    && (forall a :: a in m.addressToKey ==> Added(steps, m.addressToKey[a], a))
  }

  lemma AddedLater(steps: seq<Step>, later: seq<Step>, m: MuxState)
    requires steps <= later && Traced(m, steps)
    ensures Traced(m, later)
  {
    forall k, a | Added(steps, k, a) ensures Added(later, k, a) {
      var i :| 0 <= i < |steps| && steps[i].AddStep? && steps[i].info.key == k && steps[i].info.address == a;
      assert later[i] == steps[i];
    }
  }

  lemma {:induction false} EntriesWereAdded(steps: seq<Step>)
    ensures Traced(Run(steps), steps)
  {
    if steps != [] {
      var before, last := steps[..|steps| - 1], steps[|steps| - 1];
      EntriesWereAdded(before);
      AddedLater(before, steps, Run(before));
      if last.AddStep? {
        assert Added(steps, last.info.key, last.info.address);
      }
    }
  }

  /** After any run of additions, removals and closed channels the indexes are in order. */
  lemma {:induction false} RunIndexed(steps: seq<Step>)
    requires OneAddressPerKey(steps)
    ensures Indexed(Run(steps))
    decreases |steps|, 1
  {
    if steps != [] {
      var before, last := steps[..|steps| - 1], steps[|steps| - 1];
      RunIndexed(before);
      match last
      case AddStep(info) =>
        AddAgrees(steps);
        AddKeeps(Run(before), info);
      case RemoveStep(id) => RemoveKeeps(Run(before), id);
      case ClosedStep(key) => ClosedKeeps(Run(before), key);
    }
  }

  /** The last addition of such a run contradicts neither index, and its portal is free to come. */
  lemma {:induction false} AddAgrees(steps: seq<Step>)
    requires OneAddressPerKey(steps) && steps != [] && steps[|steps| - 1].AddStep?
    ensures var m, info := Run(steps[..|steps| - 1]), steps[|steps| - 1].info;
            Agrees(m, info) && Free(m, info)
    decreases |steps|, 0
  {
    var before, info := steps[..|steps| - 1], steps[|steps| - 1].info;
    var m := Run(before);
    RunIndexed(before);
    EntriesWereAdded(before);
    if info.key in m.keyToAddress {
      assert Added(before, info.key, m.keyToAddress[info.key]);
    }
    if info.address in m.addressToKey {
      assert Added(before, m.addressToKey[info.address], info.address);
    }
  }

  // ----- when lookups are right

  /** Each portal is filed under its own key. */
  ghost predicate Filed(m: MuxState) { forall k :: k in m.portals ==> m.portals[k].key == k }

  /** Looking an address up finds exactly the live portal that has it. */
  ghost predicate LookupRight(m: MuxState) {
    forall address, info ::
      GetPortal(m, ByAddress(address)) == Some(info) <==>
      info.address == address && info.key in m.portals && m.portals[info.key] == info
  }

  /** No other live portal has the address of this one, and no other address leads to its key. */
  predicate Free(m: MuxState, info: Info) {
    && (forall k :: k in m.portals && k != info.key ==> m.portals[k].address != info.address)
    && (forall a :: a in m.addressToKey && a != info.address ==> m.addressToKey[a] != info.key)
  }

  /** A second portal at the address of a live one hides it from lookups. */
  lemma SharedAddressHides(m: MuxState, info: Info, other: Info)
    requires other.key in m.portals && m.portals[other.key] == other
    requires other.key != info.key && other.address == info.address
    ensures var m' := Add(m, info);
            && other.key in m'.portals && m'.portals[other.key] == other
            && GetPortal(m', ByAddress(other.address)) == Some(info)
            && !LookupRight(m')
  {
    assert GetPortal(Add(m, info), ByAddress(other.address)) != Some(other);
  }

  /** A key that comes back at another address is found at the old one as well. */
  lemma StaleAddressMisleads(m: MuxState, info: Info, address: Address)
    requires address in m.addressToKey && m.addressToKey[address] == info.key && address != info.address
    ensures GetPortal(Add(m, info), ByAddress(address)) == Some(info)
    ensures !LookupRight(Add(m, info))
  {
    assert GetPortal(Add(m, info), ByAddress(address)) == Some(info);
  }

  /** An addition keeps lookups right exactly when the portal is free to come. */
  lemma AddKeepsLookup(m: MuxState, info: Info)
    requires Filed(m) && LookupRight(m)
    ensures LookupRight(Add(m, info)) <==> Free(m, info)
  {
    if k :| k in m.portals && k != info.key && m.portals[k].address == info.address {
      SharedAddressHides(m, info, m.portals[k]);
    }
    if a :| a in m.addressToKey && a != info.address && m.addressToKey[a] == info.key {
      StaleAddressMisleads(m, info, a);
    }
    if Free(m, info) {
      var m' := Add(m, info);
      forall address, found
        ensures GetPortal(m', ByAddress(address)) == Some(found) <==>
                found.address == address && found.key in m'.portals && m'.portals[found.key] == found
      {
        assert GetPortal(m, ByAddress(address)) == Some(found) <==>
               found.address == address && found.key in m.portals && m.portals[found.key] == found;
      }
    }
  }

  /** Nothing but an addition can spoil them. */
  lemma OtherStepsKeepLookup(m: MuxState, step: Step)
    requires Filed(m) && LookupRight(m) && !step.AddStep?
    ensures LookupRight(After(m, step))
  {
    var m' := After(m, step);
    forall address, found
      ensures GetPortal(m', ByAddress(address)) == Some(found) <==>
              found.address == address && found.key in m'.portals && m'.portals[found.key] == found
    {
      assert GetPortal(m, ByAddress(address)) == Some(found) <==>
             found.address == address && found.key in m.portals && m.portals[found.key] == found;
      if step.RemoveStep? && GetPortal(m, step.id).Some? {
        var gone := GetPortal(m, step.id).value;
        assert GetPortal(m, ByAddress(gone.address)) == Some(gone);
      }
    }
  }

  lemma {:induction false} RunFiled(steps: seq<Step>)
    ensures Filed(Run(steps))
  {
    if steps != [] {
      RunFiled(steps[..|steps| - 1]);
    }
  }

  /** Each portal of the run is free to come when it is added. */
  ghost predicate AllFree(steps: seq<Step>) {
    forall n :: 0 <= n < |steps| && steps[n].AddStep? ==> Free(Run(steps[..n]), steps[n].info)
  }

  ghost predicate AlwaysRight(steps: seq<Step>) {
    forall n :: 0 <= n <= |steps| ==> LookupRight(Run(steps[..n]))
  }

  lemma RunStep(steps: seq<Step>, n: nat)
    requires n < |steps|
    ensures Run(steps[..n + 1]) == After(Run(steps[..n]), steps[n])
  {
    assert steps[..n + 1][..n] == steps[..n];
  }

  /** Lookups by address are right at every moment of a run exactly when each portal was free to come when
      it was added: no other live portal had its address and no other address led to its key. Entries of
      portals that are gone do no harm. */
  lemma LookupExactly(steps: seq<Step>)
    ensures AlwaysRight(steps) <==> AllFree(steps)
  {
    if AlwaysRight(steps) {
      forall n | 0 <= n < |steps| && steps[n].AddStep? ensures Free(Run(steps[..n]), steps[n].info) {
        RunFiled(steps[..n]);
        RunStep(steps, n);
        AddKeepsLookup(Run(steps[..n]), steps[n].info);
      }
    }
    if AllFree(steps) {
      forall n: nat | n <= |steps| ensures LookupRight(Run(steps[..n])) {
        RightUpTo(steps, n);
      }
    }
  }

  lemma {:induction false} RightUpTo(steps: seq<Step>, n: nat)
    requires AllFree(steps) && n <= |steps|
    ensures LookupRight(Run(steps[..n]))
  {
    if n > 0 {
      RightUpTo(steps, n - 1);
      RunFiled(steps[..n - 1]);
      RunStep(steps, n - 1);
      if steps[n - 1].AddStep? {
        AddKeepsLookup(Run(steps[..n - 1]), steps[n - 1].info);
      } else {
        OtherStepsKeepLookup(Run(steps[..n - 1]), steps[n - 1]);
      }
    }
  }

  /** Every lookup by address at the end of such a run is a scan of the live portals. */
  lemma RunLookup(steps: seq<Step>, address: Address, info: Info)
    requires AllFree(steps)
    ensures var m := Run(steps);
            GetPortal(m, ByAddress(address)) == Some(info) <==>
            info.address == address && info.key in m.portals && m.portals[info.key] == info
  {
    LookupExactly(steps);
    assert steps[..|steps|] == steps;
    assert LookupRight(Run(steps[..|steps|]));
  }

  /** A portal that reconnects at its old address under a new key is free to come once its channel closed,
      whatever the closed step left in the indexes. */
  lemma ReconnectIsFree(m: MuxState, gone: Key, info: Info)
    requires Filed(m) && LookupRight(m) && gone in m.portals && info.address == m.portals[gone].address
    requires forall a :: a in m.addressToKey ==> m.addressToKey[a] != info.key
    ensures Free(Closed(m, gone), info)
  {
    forall k | k in m.portals && k != gone ensures m.portals[k].address != info.address {
      assert GetPortal(m, ByAddress(info.address)) == Some(m.portals[gone]);
      assert GetPortal(m, ByAddress(m.portals[k].address)) == Some(m.portals[k]);
    }
  }

  /** With one address per key and one key per address every portal is free to come. */
  lemma OneAddressIsFree(steps: seq<Step>)
    requires OneAddressPerKey(steps)
    ensures AllFree(steps)
  {
    forall n | 0 <= n < |steps| && steps[n].AddStep? ensures Free(Run(steps[..n]), steps[n].info) {
      AddAgrees(steps[..n + 1]);
      assert steps[..n + 1][..n] == steps[..n];
    }
  }

  /** Removing by address and removing by key are the same, and an unknown address removes nothing. */
  lemma RemoveEitherWay(m: MuxState, key: Key, address: Address)
    requires Indexed(m)
    ensures key in m.keyToAddress && m.keyToAddress[key] == address ==>
              Remove(m, ByAddress(address)) == Remove(m, ByKey(key))
    ensures address !in m.addressToKey ==> Remove(m, ByAddress(address)) == m
    ensures key !in m.keyToAddress ==> Remove(m, ByKey(key)) == m
  {}

  /** Removing takes away exactly the one portal, however it was named: it cannot be found any more by
      key or by address, and everything else resolves as before. */
  lemma RemoveTakesOne(m: MuxState, id: Identifier, other: Identifier)
    requires Indexed(m) && GetPortal(m, id).Some?
    ensures var gone := GetPortal(m, id).value;
            && (other == ByKey(gone.key) || other == ByAddress(gone.address) ==>
                  GetPortal(Remove(m, id), other).None?)
            && (other != ByKey(gone.key) && other != ByAddress(gone.address) ==>
                  GetPortal(Remove(m, id), other) == GetPortal(m, other))
  {}

  lemma RemoveAdded(m: MuxState, info: Info, id: Identifier)
    requires id == ByKey(info.key) || id == ByAddress(info.address)
    ensures Remove(Add(m, info), id) ==
            MuxState(m.portals - {info.key}, m.addressToKey - {info.address}, m.keyToAddress - {info.key})
  {
    assert GetPortal(Add(m, info), id) == Some(info);
    var m' := Remove(Add(m, info), id);
    assert m'.portals == m.portals - {info.key};
    assert m'.addressToKey == m.addressToKey - {info.address};
    assert m'.keyToAddress == m.keyToAddress - {info.key};
  }

  /** Adding a portal and removing it again restores the muxer exactly when neither index knew it. */
  lemma AddThenRemove(m: MuxState, info: Info, id: Identifier)
    requires Indexed(m)
    requires id == ByKey(info.key) || id == ByAddress(info.address)
    ensures Remove(Add(m, info), id) == m <==> info.key !in m.keyToAddress && info.address !in m.addressToKey
  {
    RemoveAdded(m, info, id);
    assert info.key !in (m.keyToAddress - {info.key}) && info.address !in (m.addressToKey - {info.address});
    if info.key !in m.keyToAddress && info.address !in m.addressToKey {
      assert m.portals - {info.key} == m.portals;
      assert m.addressToKey - {info.address} == m.addressToKey;
      assert m.keyToAddress - {info.key} == m.keyToAddress;
    }
  }

  /** Adding leaves the resolution of every other portal alone. */
  lemma AddLeavesOthers(m: MuxState, info: Info, other: Identifier)
    requires Indexed(m) && Agrees(m, info)
    ensures GetPortal(Add(m, info), ByKey(info.key)) == Some(info)
    ensures GetPortal(Add(m, info), ByAddress(info.address)) == Some(info)
    ensures other != ByKey(info.key) && other != ByAddress(info.address) ==>
              GetPortal(Add(m, info), other) == GetPortal(m, other)
  {}

  datatype MuxCall =
    | AddPortal(info: Info)
    | RemovePortal(id: Identifier)
    | MessageIn(inbound: Message<Operation>)
    | MessageOut(outbound: Message<ExtOperation>)

  /** `PortalMuxer`: the maps, and what it hands to the router, to the portals' call queues and to the
      portals it shuts down. */
  class PortalMuxer {
    var portals: map<Key, Info>
    var addressToKey: map<Address, Key>
    var keyToAddress: map<Key, Address>
    var routed: seq<Message<Operation>>
    var forwarded: seq<(Key, OutletFrame)>
    var shutdowns: seq<Key>

    ghost function State(): MuxState
      reads this
    {
      MuxState(portals, addressToKey, keyToAddress)
    }

    ghost predicate Valid()
      reads this
    {
      Filed(State())
    }

    constructor ()
      ensures Valid() && State() == EMPTY && routed == [] && forwarded == [] && shutdowns == []
    {
      portals, addressToKey, keyToAddress := map[], map[], map[];
      routed, forwarded, shutdowns := [], [], [];
    }

    method HandleAdd(info: Info)
      requires Valid()
      modifies this`portals, this`addressToKey, this`keyToAddress
      ensures Valid()
      ensures State() == Add(old(State()), info)
    {
      keyToAddress := keyToAddress[info.key := info.address];
      addressToKey := addressToKey[info.address := info.key];
      portals := portals[info.key := info];
    }

    method HandleRemove(id: Identifier)
      requires Valid()
      modifies this`portals, this`addressToKey, this`keyToAddress, this`shutdowns
      ensures Valid()
      ensures State() == Remove(old(State()), id)
      ensures shutdowns == old(shutdowns) +
              if GetPortal(old(State()), id).Some? then [Resolve(old(State()), id).value] else []
    {
      var key: Key;
      match id {
        case ByKey(k) => key := k;
        case ByAddress(address) =>
          if address !in addressToKey {
            return;
          }
          key := addressToKey[address];
      }
      if key in portals {
        var info := portals[key];
        portals := portals - {key};
        keyToAddress := keyToAddress - {info.key};
        addressToKey := addressToKey - {info.address};
        shutdowns := shutdowns + [key];
      }
    }

    method HandleClosed(key: Key)
      requires Valid()
      modifies this`portals, this`shutdowns
      ensures Valid()
      ensures State() == Closed(old(State()), key)
      ensures shutdowns == old(shutdowns) + if key in old(portals) then [key] else []
    {
      if key in portals {
        portals := portals - {key};
        shutdowns := shutdowns + [key];
      }
    }

    /** A message for a portal goes to the call queue of the portal its recipient resolves to, if
        there is one and its queue takes it. */
    method HandleOut(message: Message<ExtOperation>, room: bool)
      modifies this`forwarded
      ensures forwarded == old(forwarded) +
              match GetPortal(State(), Recipient(message))
              case Some(info) => if room then [(Resolve(State(), Recipient(message)).value, ToFrame(message))] else []
              case None => []
    {
      var id := Recipient(message);
      var found := FindPortal(id);
      if found.Some? && room {
        match message {
          case Request(request) => forwarded := forwarded + [(found.value, OutRequest(ToOutletRequest(request)))];
          case Response(response) => forwarded := forwarded + [(found.value, OutResponse(ToOutletResponse(response)))];
        }
      }
    }

    /** `get_portal`, naming the portal by its key in the map. */
    method FindPortal(id: Identifier) returns (key: Option<Key>)
      ensures key == if GetPortal(State(), id).Some? then Resolve(State(), id) else None
    {
      match id {
        case ByKey(k) => key := if k in portals then Some(k) else None;
        case ByAddress(address) =>
          if address in addressToKey && addressToKey[address] in portals {
            key := Some(addressToKey[address]);
          } else {
            key := None;
          }
      }
    }

    /** `Select`: the infos of the live portals the selector accepts, each once. */
    method HandleSelect(selector: Info -> bool) returns (chosen: seq<Info>)
      requires Valid()
      ensures forall info :: info in chosen <==> info.key in portals && portals[info.key] == info && selector(info)
      ensures forall i, j :: 0 <= i < j < |chosen| ==> chosen[i].key != chosen[j].key
    {
      chosen := [];
      var left := portals.Keys;
      while left != {}
        invariant left <= portals.Keys
        invariant forall info :: info in chosen <==>
                    info.key in portals && info.key !in left && portals[info.key] == info && selector(info)
        invariant forall i, j :: 0 <= i < j < |chosen| ==> chosen[i].key != chosen[j].key
        decreases left
      {
        var key :| key in left;
        left := left - {key};
        var info := portals[key];
        if selector(info) {
          chosen := chosen + [info];
        }
      }
    }

    /** One call of the muxer's loop; `room` tells whether the addressed portal's queue takes a frame. */
    method Handle(call: MuxCall, room: bool)
      requires Valid()
      modifies this
      ensures Valid()
      ensures State() ==
              match call
              case AddPortal(info) => Add(old(State()), info)
              case RemovePortal(id) => Remove(old(State()), id)
              case _ => old(State())
      ensures routed == old(routed) + if call.MessageIn? then [call.inbound] else []
      ensures shutdowns == old(shutdowns) +
              if call.RemovePortal? && GetPortal(old(State()), call.id).Some?
              then [Resolve(old(State()), call.id).value] else []
      ensures !call.MessageOut? ==> forwarded == old(forwarded)
      ensures call.MessageOut? ==>
                forwarded == old(forwarded) +
                match GetPortal(old(State()), Recipient(call.outbound))
                case Some(info) =>
                  if room then [(Resolve(old(State()), Recipient(call.outbound)).value, ToFrame(call.outbound))] else []
                case None => []
    {
      match call {
        case AddPortal(info) => HandleAdd(info);
        case RemovePortal(id) => HandleRemove(id);
        case MessageIn(message) => routed := routed + [message];
        case MessageOut(message) => HandleOut(message, room);
      }
    }
  }
}
