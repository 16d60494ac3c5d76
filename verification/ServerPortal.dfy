/** The server side of one portal: the task that handles its calls one by one. */
module ServerPortal {
  import opened Messages

  const ONE_RECIPIENT := "a RequestResponse message must have one and only one to recipient."

  datatype PortalCall = FrameIn(frame: InletFrame) | FrameOut(out: OutletFrame) | Exchange(id: ExchangeId, slot: Slot)

  /** A response handed to the caller that waits behind `slot`. */
  datatype Answer = Answer(slot: Slot, response: InletResponse)

  /** The task's own state: its exchange table, what it answered from it, the responses it found no
      entry for, and whether it still runs. */
  datatype TaskState = TaskState(
    exchanges: map<ExchangeId, Slot>,
    answered: seq<Answer>,
    missing: seq<InletResponse>,
    alive: bool)

  const FRESH := TaskState(map[], [], [], true)

  /** One stamped copy per recipient, in recipient order. */
  function Copies(request: InletRequest, from: Identifier): (r: seq<MeshRequest<Operation>>)
    ensures |r| == |request.to|
    ensures forall i :: 0 <= i < |r| ==> r[i] == Stamp(request, from, request.to[i])
  {
    seq(|request.to|, i requires 0 <= i < |request.to| => Stamp(request, from, request.to[i]))
  }

  /** The messages a call makes the task try to send to the muxer, in order. */
  function MuxSends(info: Info, call: PortalCall): seq<MeshRequest<Operation>> {
    if call.FrameIn? && call.frame.InRequest? then
      var request := call.frame.request;
      match request.kind
      case NoKind => []
      case Notification => Copies(request, ByKey(info.key))
      case RequestResponse(_) => if |request.to| != 1 then [] else [Stamp(request, ByKey(info.key), request.to[0])]
    else []
  }

  /** The frames a call makes the task try to send to its client. */
  function OutletSends(info: Info, call: PortalCall): seq<OutletFrame> {
    match call
    case FrameOut(out) => [out]
    case Exchange(_, _) => []
    case FrameIn(frame) =>
      if frame.InRequest? && frame.request.kind.RequestResponse? && |frame.request.to| != 1 then
        [OutResponse(OutletResponse(ByKey(info.key), frame.request.kind.id, Failure(ONE_RECIPIENT)))]
      else []
  }

  /** The task after a call. `listening` tells whether the caller behind an answered exchange still
      waits; the task panics when it does not. */
  function After(s: TaskState, call: PortalCall, listening: bool): TaskState {
    match call
    case FrameOut(_) => s
    case Exchange(id, slot) => s.(exchanges := s.exchanges[id := slot])
    case FrameIn(frame) =>
      if !frame.InResponse? then s
      else
        var response := frame.response;
        if response.exchangeId !in s.exchanges then s.(missing := s.missing + [response])
        else
          var removed := s.(exchanges := s.exchanges - {response.exchangeId});
          if listening then removed.(answered := s.answered + [Answer(s.exchanges[response.exchangeId], response)])
          else removed.(alive := false)
  }

  /** Of the attempted sends, those for which there was room. */
  function Taken<T>(sends: seq<T>, room: seq<bool>): seq<T> {
    if sends == [] then []
    else
      var last := |sends| - 1;
      Taken(sends[..last], room) + if last < |room| && room[last] then [sends[last]] else []
  }

  /** The task as running code, with the queues it sends into. */
  class PortalTask {
    const info: Info
    var exchanges: map<ExchangeId, Slot>
    var answered: seq<Answer>
    var missing: seq<InletResponse>
    var alive: bool
    var muxQueue: seq<MeshRequest<Operation>>
    var outletQueue: seq<OutletFrame>
    var broadcast: seq<Status>
    var removals: seq<Key>
    ghost var attempted: seq<MeshRequest<Operation>>

    ghost function State(): TaskState
      reads this
    {
      TaskState(exchanges, answered, missing, alive)
    }

    /** The task starts by sending Init and runs on only when that went through; else it asks the muxer to
        remove its portal, if there is room for that. */
    constructor (info: Info, room: bool, roomToRemove: bool)
      ensures this.info == info && State() == FRESH.(alive := room)
      ensures muxQueue == [] && broadcast == [] && attempted == []
      ensures outletQueue == if room then [OutInit(info)] else []
      ensures removals == if !room && roomToRemove then [info.key] else []
    {
      this.info := info;
      exchanges, answered, missing, alive := map[], [], [], room;
      muxQueue, broadcast, attempted := [], [], [];
      outletQueue := if room then [OutInit(info)] else [];
      removals := if !room && roomToRemove then [info.key] else [];
    }

    /** One turn of the task. `room` tells which of the turn's sends go through. */
    method Handle(call: PortalCall, room: seq<bool>, listening: bool)
      requires alive
      modifies this
      ensures State() == After(old(State()), call, listening)
      ensures attempted == old(attempted) + MuxSends(info, call)
      ensures muxQueue == old(muxQueue) + Taken(MuxSends(info, call), room)
      ensures outletQueue == old(outletQueue) + Taken(OutletSends(info, call), room)
      ensures removals == old(removals)
      ensures broadcast == old(broadcast) +
              if call.FrameIn? && call.frame.InStatus? then [call.frame.status] else []
    {
      match call {
        case FrameIn(frame) =>
          match frame {
            case InRequest(request) => HandleRequest(request, room);
            case InResponse(response) => HandleResponse(response, listening);
            case InStatus(status) => broadcast := broadcast + [status];
            case _ =>
          }
        case Exchange(id, slot) => exchanges := exchanges[id := slot];
        case FrameOut(out) =>
          OneSend(out, room);
          if room != [] && room[0] {
            outletQueue := outletQueue + [out];
          }
      }
    }

    method HandleRequest(request: InletRequest, room: seq<bool>)
      modifies this`muxQueue, this`outletQueue, this`attempted
      ensures var call := FrameIn(InRequest(request));
              && attempted == old(attempted) + MuxSends(info, call)
              && muxQueue == old(muxQueue) + Taken(MuxSends(info, call), room)
              && outletQueue == old(outletQueue) + Taken(OutletSends(info, call), room)
    {
      match request.kind {
        case NoKind =>
        case Notification => Notify(request, room);
        case RequestResponse(id) =>
          if |request.to| != 1 {
            var reply := OutResponse(OutletResponse(ByKey(info.key), id, Failure(ONE_RECIPIENT)));
            OneSend(reply, room);
            if room != [] && room[0] {
              outletQueue := outletQueue + [reply];
            }
          } else {
            var message := Stamp(request, ByKey(info.key), request.to[0]);
            OneSend(message, room);
            attempted := attempted + [message];
            if room != [] && room[0] {
              muxQueue := muxQueue + [message];
            }
          }
      }
    }

    /** The fan-out loop over the recipients of a notification. */
    method Notify(request: InletRequest, room: seq<bool>)
      modifies this`muxQueue, this`attempted
      ensures attempted == old(attempted) + Copies(request, ByKey(info.key))
      ensures muxQueue == old(muxQueue) + Taken(Copies(request, ByKey(info.key)), room)
    {
      ghost var copies := Copies(request, ByKey(info.key));
      for i := 0 to |request.to|
        invariant attempted == old(attempted) + copies[..i]
        invariant muxQueue == old(muxQueue) + Taken(copies[..i], room)
      {
        assert copies[..i + 1] == copies[..i] + [copies[i]];
        assert copies[..i + 1][..i] == copies[..i];
        var message := Stamp(request, ByKey(info.key), request.to[i]);
        attempted := attempted + [message];
        if i < |room| && room[i] {
          muxQueue := muxQueue + [message];
        }
      }
      assert copies[..|request.to|] == copies;
    }

    method HandleResponse(response: InletResponse, listening: bool)
      modifies this`exchanges, this`answered, this`missing, this`alive
      ensures State() == After(old(State()), FrameIn(InResponse(response)), listening)
    {
      if response.exchangeId !in exchanges {
        missing := missing + [response];
      } else {
        var slot := exchanges[response.exchangeId];
        exchanges := exchanges - {response.exchangeId};
        if listening {
          answered := answered + [Answer(slot, response)];
        } else {
          alive := false;
        }
      }
    }
  }

  /** Where there was room, in order. */
  function Positions(n: nat, room: seq<bool>): (r: seq<nat>)
    ensures forall i :: 0 <= i < |r| ==> r[i] < n && r[i] < |room| && room[r[i]]
    ensures forall i, j :: 0 <= i < j < |r| ==> r[i] < r[j]
    ensures forall k :: 0 <= k < n && k < |room| && room[k] ==> k in r
  {
    if n == 0 then [] else Positions(n - 1, room) + if n - 1 < |room| && room[n - 1] then [n - 1] else []
  }

  /** What is taken are exactly the sends at those positions. */
  lemma {:induction false} TakenExactly<T>(sends: seq<T>, room: seq<bool>)
    ensures var at := Positions(|sends|, room);
            |Taken(sends, room)| == |at| && forall i :: 0 <= i < |at| ==> Taken(sends, room)[i] == sends[at[i]]
  {
    if sends != [] {
      TakenExactly(sends[..|sends| - 1], room);
    }
  }

  lemma OneSend<T>(item: T, room: seq<bool>)
    ensures Taken([item], room) == if room != [] && room[0] then [item] else []
  {
    assert [item][..0] == [];
  }
}
