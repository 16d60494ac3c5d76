/** The one concrete router: it answers resource operations itself and echoes everything else. */
module Router {
  import opened Outcomes
  import opened Messages
  import opened Muxer

  const PRIMITIVE := "this is a primitive router that cannot handle resource commands other than Select"

  /** Does routing this request ask the muxer for the live portals first? */
  predicate Selects(request: MeshRequest<Operation>) {
    request.operation.Resource? && request.operation.resource.Select? && request.kind.RequestResponse?
  }

  /** What the router answers to a resource request. */
  function Signal(operation: ResourceOperation, infos: seq<Info>): ResponseEntity {
    match operation
    case Select => Success(Stubs(infos))
    case _ => Failure(PRIMITIVE)
  }

  /** `InYourFaceRouter::route`: what goes back to the muxer, if anything; `infos` is the muxer's answer
      to a select. */
  function Route(message: Message<Operation>, infos: seq<Info>): Option<Message<ExtOperation>> {
    match message
    case Response(response) => Some(Response(response))
    case Request(request) =>
      match request.operation
      case Resource(operation) =>
        if !request.kind.RequestResponse? then None
        else Some(Response(MeshResponse(request.from, request.to, request.kind.id, Signal(operation, infos))))
      case Ext(_) =>
        match TryExt(request)
        case None => None
        case Some(ext) => Some(Request(ext))
  }

  /** The router invents nothing: a response it gives to a request goes back to the sender, from the
      recipient, under the request's own id; a request it passes on is the request it got; and a request
      for a response is never dropped, ext operations included (their unwrap cannot fail), while a resource
      request that asks for no response is. */
  lemma RouteKeeps(request: MeshRequest<Operation>, infos: seq<Info>)
    ensures var sent := Route(Request(request), infos);
            && (sent.Some? && sent.value.Response? ==>
                  var response := sent.value.response;
                  && response.to == request.from && response.from == request.to
                  && request.kind == RequestResponse(response.exchangeId))
            && (sent.Some? && sent.value.Request? ==>
                  var passed := sent.value.request;
                  MeshRequest(passed.to, passed.from, Ext(passed.operation), passed.kind) == request)
            && (sent.Some? <==> request.kind.RequestResponse? || request.operation.Ext?)
            && (sent.Some? ==> (sent.value.Request? <==> request.operation.Ext?))
  {}

  /** A select is answered with the muxer's listing, and any other resource operation with a failure. */
  lemma RouteAnswers(request: MeshRequest<Operation>, infos: seq<Info>)
    requires request.operation.Resource? && request.kind.RequestResponse?
    ensures var sent := Route(Request(request), infos);
            && sent.Some? && sent.value.Response?
            && sent.value.response.signal ==
               if request.operation == Resource(Select) then Success(Stubs(infos))
               else Failure("this is a primitive router that cannot handle resource commands other than Select")
  {}

  /** A response goes through unchanged. */
  lemma ResponsePasses(response: MeshResponse, infos: seq<Info>)
    ensures Route(Response(response), infos) == Some(Response(response))
  {}

  /** The router as running code, with the muxer queue it sends into. */
  class InYourFaceRouter {
    var muxQueue: seq<MuxCall>

    constructor ()
      ensures muxQueue == []
    {
      muxQueue := [];
    }

    method Send(call: MuxCall, room: bool)
      modifies this
      ensures muxQueue == old(muxQueue) + if room then [call] else []
    {
      if room {
        muxQueue := muxQueue + [call];
      }
    }

    method RouteMessage(message: Message<Operation>, infos: seq<Info>, room: bool)
      modifies this
      ensures var sent := Route(message, infos);
              muxQueue == old(muxQueue) + if sent.Some? && room then [MessageOut(sent.value)] else []
    {
      match message {
        case Response(response) => Send(MessageOut(Response(response)), room);
        case Request(request) =>
          match request.operation {
            case Ext(ext) =>
              Send(MessageOut(Request(MeshRequest(request.to, request.from, ext, request.kind))), room);
            case Resource(operation) =>
              if request.kind.RequestResponse? {
                var signal: ResponseEntity;
                match operation {
                  case Select => signal := Success(Stubs(infos));
                  case _ => signal := Failure(PRIMITIVE);
                }
                Send(MessageOut(Response(MeshResponse(request.from, request.to, request.kind.id, signal))), room);
              }
          }
      }
    }
  }
}
