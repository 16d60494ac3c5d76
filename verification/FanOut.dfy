/** What a run of calls makes the portal task send: every message is accounted for. */
module FanOut {
  import opened Messages
  import opened ServerPortal

  function AllMuxSends(info: Info, calls: seq<PortalCall>): seq<MeshRequest<Operation>> {
    if calls == [] then [] else MuxSends(info, calls[0]) + AllMuxSends(info, calls[1..])
  }

  /** The request frames of a run of calls. */
  function Requests(calls: seq<PortalCall>): seq<InletRequest> {
    if calls == [] then []
    else (if calls[0].FrameIn? && calls[0].frame.InRequest? then [calls[0].frame.request] else []) + Requests(calls[1..])
  }

  /** How many recipients the notifications name altogether. */
  function NotificationRecipients(requests: seq<InletRequest>): nat {
    if requests == [] then 0
    else (if requests[0].kind.Notification? then |requests[0].to| else 0) + NotificationRecipients(requests[1..])
  }

  /** How many of the requests ask for a response and name one recipient. */
  function SingleRequests(requests: seq<InletRequest>): nat {
    if requests == [] then 0
    else (if requests[0].kind.RequestResponse? && |requests[0].to| == 1 then 1 else 0) + SingleRequests(requests[1..])
  }

  /** Conservation: the attempted mux messages are as many as the notifications have recipients and the
      single-recipient requests together, and each is stamped with the portal's key. */
  lemma {:induction false} SendsCount(info: Info, calls: seq<PortalCall>)
    ensures |AllMuxSends(info, calls)| ==
            NotificationRecipients(Requests(calls)) + SingleRequests(Requests(calls))
    ensures forall m :: m in AllMuxSends(info, calls) ==> m.from == ByKey(info.key)
  {
    if calls != [] {
      SendsCount(info, calls[1..]);
      if calls[0].FrameIn? && calls[0].frame.InRequest? {
        assert Requests(calls)[1..] == Requests(calls[1..]);
      } else {
        assert Requests(calls) == Requests(calls[1..]);
      }
    }
  }

  /** The recipients of a notification get the same operation from the portal's key, in the order in which
      they are named. */
  lemma NotificationOrder(info: Info, request: InletRequest, i: nat)
    requires request.kind.Notification? && i < |request.to|
    ensures var sends := MuxSends(info, FrameIn(InRequest(request)));
            && |sends| == |request.to|
            && sends[i] == MeshRequest(request.to[i], ByKey(info.key), request.operation, Notification)
            && ToInletRequest(sends[i]) == request.(to := [request.to[i]])
    ensures OutletSends(info, FrameIn(InRequest(request))) == []
  {}

  /** A request for a response goes to its one recipient, or is refused for not naming one. */
  lemma RequestGoesOrIsRefused(info: Info, request: InletRequest)
    requires request.kind.RequestResponse?
    ensures var mux, out := MuxSends(info, FrameIn(InRequest(request))), OutletSends(info, FrameIn(InRequest(request)));
            if |request.to| == 1 then
              out == [] && mux == [MeshRequest(request.to[0], ByKey(info.key), request.operation, request.kind)]
            else
              && mux == []
              && out == [OutResponse(OutletResponse(ByKey(info.key), request.kind.id,
                                     Failure("a RequestResponse message must have one and only one to recipient.")))]
  {}

  function AllOutletSends(info: Info, calls: seq<PortalCall>): seq<OutletFrame> {
    if calls == [] then [] else OutletSends(info, calls[0]) + AllOutletSends(info, calls[1..])
  }

  /** The calls that must put a frame on the downlink: frames handed to the task for it, and refused requests. */
  function Outgoing(calls: seq<PortalCall>): seq<PortalCall> {
    if calls == [] then []
    else
      var refused := calls[0].FrameIn? && calls[0].frame.InRequest?
                     && calls[0].frame.request.kind.RequestResponse? && |calls[0].frame.request.to| != 1;
      (if calls[0].FrameOut? || refused then [calls[0]] else []) + Outgoing(calls[1..])
  }

  /** Over any calls the task puts on the downlink the frames handed to it and its refusals, one for one and in
      order, and nothing for any other frame of its client. */
  lemma {:induction false} OutletAccounted(info: Info, calls: seq<PortalCall>)
    ensures |AllOutletSends(info, calls)| == |Outgoing(calls)|
    ensures forall i :: 0 <= i < |Outgoing(calls)| ==>
              var sent := AllOutletSends(info, calls)[i];
              match Outgoing(calls)[i]
              case FrameOut(out) => sent == out
              case FrameIn(frame) =>
                frame.InRequest? && sent.OutResponse? && frame.request.kind == RequestResponse(sent.response.exchangeId)
              case _ => false
  {
    if calls != [] {
      OutletAccounted(info, calls[1..]);
    }
  }

  /** The exchange ids the task accounts for while it handles a call: by a routed message or by an error reply. */
  function Accounted(info: Info, call: PortalCall): seq<ExchangeId> {
    MuxIds(MuxSends(info, call)) + if call.FrameIn? then OutletIds(OutletSends(info, call)) else []
  }

  function MuxIds(sends: seq<MeshRequest<Operation>>): seq<ExchangeId> {
    if sends == [] then []
    else (if sends[0].kind.RequestResponse? then [sends[0].kind.id] else []) + MuxIds(sends[1..])
  }

  function OutletIds(sends: seq<OutletFrame>): seq<ExchangeId> {
    if sends == [] then []
    else (if sends[0].OutResponse? then [sends[0].response.exchangeId] else []) + OutletIds(sends[1..])
  }

  function AllAccounted(info: Info, calls: seq<PortalCall>): seq<ExchangeId> {
    if calls == [] then [] else Accounted(info, calls[0]) + AllAccounted(info, calls[1..])
  }

  function RequestIds(requests: seq<InletRequest>): seq<ExchangeId> {
    if requests == [] then []
    else (if requests[0].kind.RequestResponse? then [requests[0].kind.id] else []) + RequestIds(requests[1..])
  }

  lemma {:induction false} NoIds(sends: seq<MeshRequest<Operation>>)
    requires forall m :: m in sends ==> !m.kind.RequestResponse?
    ensures MuxIds(sends) == []
  {
    if sends != [] {
      NoIds(sends[1..]);
    }
  }

  lemma AccountedOnce(info: Info, request: InletRequest)
    ensures Accounted(info, FrameIn(InRequest(request))) ==
            if request.kind.RequestResponse? then [request.kind.id] else []
  {
    var call := FrameIn(InRequest(request));
    if !request.kind.RequestResponse? {
      NoIds(MuxSends(info, call));
    } else {
      var mux, out := MuxSends(info, call), OutletSends(info, call);
      if |request.to| == 1 {
        assert mux[1..] == [] && MuxIds(mux) == [request.kind.id] + [];
      } else {
        assert out[1..] == [] && OutletIds(out) == [request.kind.id] + [];
      }
    }
  }

  /** Every request for a response gives exactly one of a routed message and an error reply, under its
      own id: the ids accounted for are the ids asked for, one for one and in order. */
  lemma {:induction false} EveryRequestAccounted(info: Info, calls: seq<PortalCall>)
    ensures AllAccounted(info, calls) == RequestIds(Requests(calls))
  {
    if calls != [] {
      EveryRequestAccounted(info, calls[1..]);
      if calls[0].FrameIn? && calls[0].frame.InRequest? {
        AccountedOnce(info, calls[0].frame.request);
        assert Requests(calls)[1..] == Requests(calls[1..]);
      } else {
        assert Requests(calls) == Requests(calls[1..]);
        assert Accounted(info, calls[0]) == [];
      }
    }
  }
}
