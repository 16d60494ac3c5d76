/** Frames, requests and responses, and the conversions between their inlet, mesh and outlet forms. */
module Messages {
  import opened Outcomes

  type Key = string
  type Address = string
  type ExchangeId = string
  /** One reply channel: the sending half sits in an exchange table, the receiving half with a caller. */
  type Slot = nat

  datatype Identifier = ByKey(key: Key) | ByAddress(address: Address)

  datatype ExchangeKind = NoKind | Notification | RequestResponse(id: ExchangeId)

  datatype Info = Info(key: Key, address: Address)

  datatype ResourceOperation = Create | Select | Get | Set | Delete
  datatype ExtOperation = Http(path: string) | Port(port: string, text: string)
  datatype Operation = Resource(resource: ResourceOperation) | Ext(ext: ExtOperation)

  datatype Entity = Empty | Stubs(infos: seq<Info>) | Text(text: string) | HttpResponse(code: nat)
  datatype ResponseEntity = Success(entity: Entity) | Failure(message: string)

  datatype Status = Unknown | Initializing | Ready | Panicked(message: string) | Done

  datatype InletRequest = InletRequest(to: seq<Identifier>, operation: Operation, kind: ExchangeKind)
  datatype InletResponse = InletResponse(to: Identifier, exchangeId: ExchangeId, signal: ResponseEntity)
  datatype InletFrame =
    | InLog(text: string)
    | InCommand
    | InRequest(request: InletRequest)
    | InResponse(response: InletResponse)
    | InStatus(status: Status)
    | InBinParcel
    | InClose

  datatype OutletRequest = OutletRequest(from: Identifier, operation: ExtOperation, kind: ExchangeKind)
  datatype OutletResponse = OutletResponse(from: Identifier, exchangeId: ExchangeId, signal: ResponseEntity)
  datatype OutletFrame =
    | OutInit(info: Info)
    | OutCommandEvent
    | OutRequest(request: OutletRequest)
    | OutResponse(response: OutletResponse)
    | OutBinParcel
    | OutClose

  datatype MeshRequest<Op> = MeshRequest(to: Identifier, from: Identifier, operation: Op, kind: ExchangeKind)
  datatype MeshResponse =
    MeshResponse(to: Identifier, from: Identifier, exchangeId: ExchangeId, signal: ResponseEntity)
  datatype Message<Op> = Request(request: MeshRequest<Op>) | Response(response: MeshResponse)

  /** `Message::to`. */
  function Recipient<Op>(message: Message<Op>): Identifier {
    match message
    case Request(request) => request.to
    case Response(response) => response.to
  }

  /** `Request::from`: one recipient's copy of an inlet request, stamped with its sender. */
  function Stamp(request: InletRequest, from: Identifier, to: Identifier): MeshRequest<Operation> {
    MeshRequest(to, from, request.operation, request.kind)
  }

  /** `TryInto<Request<ExtOperation>>`: resource operations cannot leave the server. */
  function TryExt(request: MeshRequest<Operation>): Option<MeshRequest<ExtOperation>> {
    match request.operation
    case Resource(_) => None
    case Ext(ext) => Some(MeshRequest(request.to, request.from, ext, request.kind))
  }

  /** `Into<inlet::Request>`. */
  function ToInletRequest(request: MeshRequest<Operation>): InletRequest {
    InletRequest([request.to], request.operation, request.kind)
  }

  /** `Into<outlet::Request>`. */
  function ToOutletRequest(request: MeshRequest<ExtOperation>): OutletRequest {
    OutletRequest(request.from, request.operation, request.kind)
  }

  /** `Response::from`. */
  function ToMeshResponse(response: OutletResponse, from: Identifier, to: Identifier): MeshResponse {
    MeshResponse(to, from, response.exchangeId, response.signal)
  }

  /** `Into<inlet::Response>`. */
  function ToInletResponse(response: MeshResponse): InletResponse {
    InletResponse(response.to, response.exchangeId, response.signal)
  }

  /** `Into<outlet::Response>`. */
  function ToOutletResponse(response: MeshResponse): OutletResponse {
    OutletResponse(response.from, response.exchangeId, response.signal)
  }

  /** The outlet frame a message becomes on its way to a portal. */
  function ToFrame(message: Message<ExtOperation>): OutletFrame {
    match message
    case Request(request) => OutRequest(ToOutletRequest(request))
    case Response(response) => OutResponse(ToOutletResponse(response))
  }

  /** On its way to a portal a message loses its recipient and nothing else. */
  lemma FrameKeeps(message: Message<ExtOperation>)
    ensures match message
            case Request(request) =>
              ToFrame(message) == OutRequest(OutletRequest(request.from, request.operation, request.kind))
            case Response(response) =>
              ToFrame(message) == OutResponse(OutletResponse(response.from, response.exchangeId, response.signal))
  {}

  /** A single-recipient request survives the trip into the mesh and back unchanged, whoever stamped it,
      and that is the only kind that does. */
  lemma RequestRoundTrip(request: InletRequest, from: Identifier, to: Identifier)
    ensures ToInletRequest(Stamp(request, from, to)) == request <==> request.to == [to]
    ensures Stamp(request, from, to).from == from
  {}

  /** Only the response's sender can be lost between its outlet and mesh forms. */
  lemma ResponseRoundTrip(response: OutletResponse, from: Identifier, to: Identifier)
    ensures ToOutletResponse(ToMeshResponse(response, from, to)) == response <==> from == response.from
    ensures ToInletResponse(ToMeshResponse(response, from, to))
         == InletResponse(to, response.exchangeId, response.signal)
  {}

  /** A request forwarded to another portal arrives with its sender, operation and kind, exactly when
      it is an ext operation. */
  lemma ForwardKeeps(request: InletRequest, from: Identifier, to: Identifier)
    ensures var ext := TryExt(Stamp(request, from, to));
            && (ext.Some? <==> request.operation.Ext?)
            && (ext.Some? ==>
                  && ext.value.to == to
                  && ToOutletRequest(ext.value) == OutletRequest(from, request.operation.ext, request.kind))
  {}
}
