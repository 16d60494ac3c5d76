# Resource mesh portals: a verified model

A portal connects a client process to a mesh server over TCP. The client opens exchanges by sending
requests tagged with a fresh exchange id; the server-side portal task stamps each request with the
portal's key and hands it to the muxer; a router answers or passes it on; the response travels back into
the client's table of pending exchanges. This project models that path, the framed transport and the
handshake below it, and the text forms of versions, specifics and addresses, and proves what they keep.

Code that changes state step by step is modelled by classes and loops (`PortalMuxer`, `PortalTask`,
`Portal`, `FrameReader`, `FrameWriter`, `Stages`, `InitGate`, `PortalTcpServer`, `InYourFaceRouter`,
`Address` printing). Each method is proved against a function on values, and the protocol theorems are
about those same functions, composed into state machines whose steps interleave in any order.

| module | what it is |
|---|---|
| `Network*` | clients, uplinks, server portal tasks, muxer and router together, for any number of portals and any run; its invariant places the one carrier of every exchange and traces every request and response to what was sent |
| `ServerPortal`, `FanOut`, `ExchangeTable`, `InitWait` | the server portal task, what a run of calls makes it send, the exchanges the server opens, and the wait in `init` |
| `ClientPortal`, `Router`, `Messages` | the client portal, the one concrete router, frames and conversions |
| `Muxer` | the three maps of the muxer and every run of additions, removals and closed channels |
| `Framing`, `Pipeline`, `Uplink` | length-prefixed frames under any chunking; the queues and pumps from client to portal task, any of which may fail at any time |
| `Handshake`, `Lifecycle` | the two-sided flavor and authorization handshake; the server's status events and shutdown flag |
| `Scanners`, `Decimal`, `VersionText`, `SpecificText`, `AddressText` | longest-match scanners, decimal numerals with the `usize` bound, the three text forms |

## What the code does that its purpose does not suggest

- `Address::to_string` tests the index against the length, which it never reaches, so every segment gets a
  colon. No printed address parses (`AddressText.PrintedNeverParses`), and only the last colon is in the
  way (`AddressText.PrintedWithoutLastColon`). `Address::parent` removes index `len`, so it panics on every
  address but the empty one (`AddressText.Parent`).
- Version numbers beyond `usize` panic in `parse_version` instead of giving an error; the texts on which
  this happens are characterised exactly (`VersionText.PanicsExactly`, `SpecificText.PanicsExactly`).
- The length of a frame is cast to `u32`. Framing is right exactly when every frame is shorter than 2^32
  bytes (`Framing.StreamRoundTrip`). The pipeline, whose reader stops at the first frame that does not
  deserialize, keeps its order exactly when no longer frame has a cut, its length taken modulo 2^32, that
  deserializes (`Pipeline.PrefixExactly`); where no proper prefix of a frame deserializes it needs no bound
  (`Pipeline.PrefixUnbounded`).
- A client ignores every frame until it is Ready. A response that comes before is lost for good, and its
  exchange never completes (`NetworkTheorems.NotReadyLoses`).
- A client's response is looked up only in its own portal task's table, so a request passed on to another
  portal is never answered back. An exchange can complete exactly when its request is a resource operation
  or is refused for its number of recipients (`NetworkCompletion.CanComplete`).
- The muxer's closed-channel branch keeps both index entries. Lookups by address stay right nevertheless,
  also when a portal reconnects under a new key. They go wrong exactly when a portal is added while another
  live one has its address, or while another address still leads to its key (`Muxer.LookupExactly`).
- `init` reads two statuses per turn of its loop and looks only at the second (`InitWait.ReadySeen`,
  `InitWait.FirstOfTurnUnseen`).
- The portal task panics exactly when it takes a first response whose caller has stopped waiting
  (`ExchangeTable.DiesExactly`); such runs exist (`ExchangeTable.CanDie`).
- The accept loop tests its flag and handles the connection in two steps. A connection that passed the test
  is handled although the flag is cleared in between, and that is the only one
  (`Lifecycle.HandledAfterShutdown`); no connection accepted after the clear ever is
  (`Lifecycle.LateIsNeverHandled`).

## Assumptions

Exchange ids are fresh, whoever draws them: clients when they open an exchange, server code when it sends
its client a tagged request. In the mesh portal keys are not reused. A `usize` has 64 bits. A channel is a
queue; where its capacity decides nothing but success or failure, the send is allowed to fail at any time,
which covers every capacity and every timeout. `PortalMuxer::new` performs a single `select_all`; its body is one step
here and the theorems are about any number of such steps. `Portal::exchange` on the server registers a
reply slot and never emits its request; emission is a separate step. The answers of user-supplied handlers,
of authorization and of `PortalServer::info` are arbitrary. Whether bytes deserialize to a frame depends on
the bytes alone, in a way that is left open.

## Model

| member | source | states |
|---|---|---|
| NetworkTheorems.Correlation | rust/resource-mesh-portal-api-client/src/lib.rs:313-321 | In every reachable state of any number of clients, portal tasks, muxer and router, whatever completed at a client is the reply to an exchange that client opened, judged by the request its caller gave: from the recipient it named, a refusal if it did not name exactly one, a listing the muxer made for it if it was a select, else the router's failure; and it went to the caller that opened it |
| NetworkTheorems.CompletesOnce | rust/resource-mesh-portal-api-client/src/lib.rs:313-321 | No exchange completes twice, at one client or at two |
| NetworkTheorems.PendingOrCompleted | rust/resource-mesh-portal-api-client/src/lib.rs:364-381 | A client's exchanges are exactly its pending and its completed ones, never both, and no response handled while Ready ever misses its entry |
| NetworkTheorems.InFlightIsPending | rust/resource-mesh-portal-api-client/src/lib.rs:373-380 | From the moment its request is registered, before the client sends it, through the mesh, also passed on to another portal up to the handler running on it, and back as the response, an exchange with anything under way is pending at its opener under the opener's slot, whether or not its caller timed out |
| NetworkTheorems.OneCarrier | rust/resource-mesh-portal-api-server/src/lib.rs:143-161 | Nothing of an exchange is ever under way twice: not in two places and not in one, requests not yet sent and passed-on requests included |
| NetworkTheorems.RequestReachesNamed | rust/resource-mesh-portal-api-server/src/lib.rs:459-509 | In every reachable state a tagged request in a portal's call queue, on its downlink or with its handlers carries the operation a caller gave a client for a single recipient that names this portal by key or address, under that client's key, and is pending at that client; or was sent by this portal's own server side |
| NetworkTheorems.NoticeReachesNamed | rust/resource-mesh-portal-api-server/src/lib.rs:132-140 | In every reachable state an untagged request at a portal carries the operation a client was given to notify recipients of which one names this portal, under that client's key; or was sent by this portal's own server side |
| NetworkTheorems.RoutedIsStamped | rust/resource-mesh-portal-api-server/src/lib.rs:143-165 | Whatever the router works on, or hands back to the muxer as a request, has a recipient and the operation that a client was given, and that client's key; the kind alone is replaced |
| NetworkTheorems.SentAsGiven | rust/resource-mesh-portal-api-client/src/lib.rs:354-381 | What a client has registered or put on its uplink as a request has the recipients and the operation it was given |
| NetworkTheorems.ResponseReachesOpener | rust/resource-mesh-portal-api-server/src/lib.rs:459-474 | A response queued for a client answers an exchange that very client opened |
| NetworkTheorems.ReadyCompletes | rust/resource-mesh-portal-api-client/src/lib.rs:313-321 | The first response a Ready client handles removes its entry and goes to its slot; a caller that timed out, before or while the response is handed over, does not hear it, and nothing else changes |
| NetworkTheorems.NotReadyLoses | rust/resource-mesh-portal-api-client/src/lib.rs:172-174 | A response taken by a client that is not Ready leaves the client as it is, and in every continuation of the run its exchange stays pending and never completes, also when the client becomes Ready |
| Network.GoesOn | rust/resource-mesh-portal-api-server/src/lib.rs:94-194 | What goes on from a state a run has reached is a run |
| NetworkTheorems.SelectListsLive | rust/resource-mesh-portal-api-server/src/lib.rs:475-483 | A completed select holds exactly the portals live in the muxer, each once, at a state of the run at which its request was with the router and its exchange pending |
| NetworkTheorems.ListingWasTrue | rust/resource-mesh-portal-api-test/src/lib.rs:227-246 | Every listing on record named exactly the live portals at some earlier state of the run |
| NetworkTheorems.TimeoutLeavesEntry | rust/resource-mesh-portal-api-client/src/lib.rs:379-380 | A timeout leaves the entry in the table and everything under way where it is; the caller is known to have given up |
| NetworkTheorems.ForwardedNeverCompletes | rust/resource-mesh-portal-api-server/src/lib.rs:166-176 | An ext operation for one recipient stays pending in every reachable state |
| NetworkTheorems.MuxerTurns | rust/resource-mesh-portal-api-server/src/lib.rs:412-486 | In the mesh the muxer's maps change with additions, removals and closed channels and with nothing else |
| NetworkTheorems.LeavingCloses | rust/resource-mesh-portal-api-server/src/lib.rs:415-455 | A portal that leaves the muxer, removed or closed, is sent Close, and no other portal notices |
| NetworkTheorems.NthSend | rust/resource-mesh-portal-api-server/src/lib.rs:132-140 | A failed send does not stop a fan-out, and the single sends together are those of a whole turn of the task |
| NetworkCompletion.CanComplete | rust/resource-mesh-portal-api-server/src/lib.rs:143-176 | An exchange can complete if and only if its request is a resource operation or does not name exactly one recipient |
| NetworkCompletion.Completes | rust/resource-mesh-portal-api-test/src/lib.rs:227-286 | For every such request, client, id and slot there is a run that delivers the portal task's refusal or the router's answer to that slot |
| NetworkCompletion.ReachesHandler | rust/resource-mesh-portal-api-test/src/lib.rs:281-287 | Every ext request for one recipient, from any portal, can reach a handler of any other portal the recipient names by key or address, unchanged and stamped with its sender's key |
| NetworkCompletion.NoticeReachesHandler | rust/resource-mesh-portal-api-test/src/lib.rs:281-287 | So can every notification of an ext operation |
| NetworkCompletion.ReachesOwnHandler | rust/resource-mesh-portal-api-test/src/lib.rs:281-287 | And a handler of the sending portal, when the recipient names that one |
| NetworkCompletion.ServerExchangeCompletes | rust/resource-mesh-portal-api-server/src/lib.rs:166-186 | A client's response to an exchange the server opened towards it can reach the caller that opened it |
| NetworkCompletion.ServerRequestReaches | rust/resource-mesh-portal-api-server/src/lib.rs:214-217 | A request server code sends its client can reach a handler there |
| NetworkSteps.RunKeeps | rust/resource-mesh-portal-api-server/src/lib.rs:94-194 | Every reachable state satisfies the invariant that places each exchange's one carrier and traces every request and response under way to what was sent |
| NetworkSteps.StepKeeps | rust/resource-mesh-portal-api-server/src/lib.rs:412-486 | Every step of every client, task, muxer and router keeps the invariant, registration and emission of an exchange and the single sends of a fan-out interleaved with everything else |
| Muxer.RunIndexed | rust/resource-mesh-portal-api-server/src/lib.rs:412-455 | With one address per key and one key per address, after any run of add, remove and closed steps the two indexes are mutual inverses covering every live portal |
| Muxer.LookupExactly | rust/resource-mesh-portal-api-server/src/lib.rs:412-509 | Lookups by address are right at every moment of a run if and only if each portal was free to come when it was added: no other live portal had its address and no other address led to its key |
| Muxer.AddKeepsLookup | rust/resource-mesh-portal-api-server/src/lib.rs:428-435 | An addition to a muxer with right lookups keeps them right if and only if the portal is free to come |
| Muxer.OtherStepsKeepLookup | rust/resource-mesh-portal-api-server/src/lib.rs:415-455 | Removals and closed channels never spoil lookups |
| Muxer.RunLookup | rust/resource-mesh-portal-api-server/src/lib.rs:491-509 | At the end of every such run lookup by address equals a scan of the live portals, stale index entries or not |
| Muxer.ReconnectIsFree | rust/resource-mesh-portal-api-server/src/lib.rs:415-435 | A portal that reconnects at its old address under a new key is free to come once its channel closed, although the closed step left its index entries |
| Muxer.OneAddressIsFree | rust/resource-mesh-portal-api-server/src/lib.rs:428-435 | With one address per key and one key per address every portal is free to come |
| Muxer.AddKeeps | rust/resource-mesh-portal-api-server/src/lib.rs:428-435 | Adding a portal keeps the indexes inverse if and only if neither holds its key or address for somebody else |
| Muxer.ClosedKeeps | rust/resource-mesh-portal-api-server/src/lib.rs:415-424 | Dropping a portal without its index entries keeps the indexes inverse |
| Muxer.ClosedGoesStale | rust/resource-mesh-portal-api-server/src/lib.rs:415-424 | After a closed channel the address still resolves to the key of the portal that is gone, and finds nothing; every other portal is found as before |
| Muxer.LookupIsScan | rust/resource-mesh-portal-api-server/src/lib.rs:491-509 | Inverse indexes that cover the live portals make every lookup by address right |
| Muxer.SharedAddressHides | rust/resource-mesh-portal-api-server/src/lib.rs:428-435 | A second portal at the address of a live one hides it from lookups by address |
| Muxer.StaleAddressMisleads | rust/resource-mesh-portal-api-server/src/lib.rs:428-435 | A key added at another address is still found at the old one |
| Muxer.RemoveEitherWay | rust/resource-mesh-portal-api-server/src/lib.rs:436-455 | Removal by address and by key have the same effect; an unknown name removes nothing |
| Muxer.RemoveTakesOne | rust/resource-mesh-portal-api-server/src/lib.rs:436-455 | A removed portal is found neither by key nor by address, and every other name resolves as before |
| Muxer.AddThenRemove | rust/resource-mesh-portal-api-server/src/lib.rs:428-455 | Adding and removing a portal restores all three maps if and only if neither index knew it |
| Muxer.AddLeavesOthers | rust/resource-mesh-portal-api-server/src/lib.rs:428-435 | An added portal is found by key and by address and every other resolution is unchanged |
| Muxer.PortalMuxer.HandleClosed | rust/resource-mesh-portal-api-server/src/lib.rs:415-424 | Removes only the portal and shuts it down |
| Muxer.PortalMuxer.FindPortal | rust/resource-mesh-portal-api-server/src/lib.rs:491-509 | Two-map lookup equals resolution followed by the live check |
| Muxer.PortalMuxer.HandleSelect | rust/resource-mesh-portal-api-server/src/lib.rs:475-483 | Lists every live portal the selector accepts, each once |
| Muxer.PortalMuxer.Handle | rust/resource-mesh-portal-api-server/src/lib.rs:426-485 | One call of its own channel, other than a select, changes maps, router input, forwarded frames and shutdowns as specified and nothing else |
| ServerPortal.PortalTask.constructor | rust/resource-mesh-portal-api-server/src/lib.rs:105-119 | The task sends Init first and runs on only when that succeeded, else it asks for its removal |
| ServerPortal.PortalTask.Handle | rust/resource-mesh-portal-api-server/src/lib.rs:119-194 | One call of the task: exchange table, mux sends, outlet sends and status broadcast |
| ServerPortal.PortalTask.Notify | rust/resource-mesh-portal-api-server/src/lib.rs:132-140 | The loop attempts one stamped copy per recipient in order, and a failed send does not stop it |
| ServerPortal.TakenExactly | rust/resource-mesh-portal-api-server/src/lib.rs:132-140 | Of the attempted sends exactly those are taken for which there was room, in order |
| FanOut.SendsCount | rust/resource-mesh-portal-api-server/src/lib.rs:121-165 | Over any calls the attempted mux messages number the notification recipients plus the single-recipient requests, each stamped with the portal's key |
| FanOut.NotificationOrder | rust/resource-mesh-portal-api-server/src/lib.rs:132-140 | The i-th message of a notification is its operation for the i-th recipient, under the portal's key |
| FanOut.RequestGoesOrIsRefused | rust/resource-mesh-portal-api-server/src/lib.rs:143-161 | A request for a response goes, with its operation and id and the portal's key, to its one recipient, or is refused in the words of the source |
| FanOut.OutletAccounted | rust/resource-mesh-portal-api-server/src/lib.rs:119-194 | Over any calls the downlink gets the frames handed to the task and its refusals, one for one and in order, and nothing for any other frame of the client |
| FanOut.EveryRequestAccounted | rust/resource-mesh-portal-api-server/src/lib.rs:143-161 | The ids routed or refused are the ids asked for, one for one and in order |
| ExchangeTable.TableIsRegisteredMinusAnswered | rust/resource-mesh-portal-api-server/src/lib.rs:166-186 | In every reachable state the table is the registered ids less those still queued and those answered, with their slots |
| ExchangeTable.FirstResponseAnswers | rust/resource-mesh-portal-api-server/src/lib.rs:166-176 | A first response to a registered exchange never meets the missing-id branch: it reaches its slot, or ends the task if nobody waits there |
| ExchangeTable.ResponseAccounted | rust/resource-mesh-portal-api-server/src/lib.rs:166-176 | Every response the task takes answers its exchange, ends the task, or is reported missing, by what was registered, answered and given up |
| ExchangeTable.DiesExactly | rust/resource-mesh-portal-api-server/src/lib.rs:166-176 | In every run the task has died if and only if it took a response to a registered, unanswered exchange whose caller had stopped waiting |
| ExchangeTable.CanDie | rust/resource-mesh-portal-api-server/src/lib.rs:219-231 | For every response and slot there is such a run |
| ExchangeTable.ResponseFindsEntry | rust/resource-mesh-portal-api-server/src/lib.rs:166-176 | A response finds an entry if and only if its id is registered and not answered |
| ExchangeTable.AnsweredOnce | rust/resource-mesh-portal-api-server/src/lib.rs:219-231 | Each exchange is answered at most once, into its own slot |
| ClientPortal.OneReply | rust/resource-mesh-portal-api-client/src/lib.rs:176-312 | However its handler ends, a request for a response gets exactly one reply with its id to its sender, anything else none, and the failed-conversion branches are never taken |
| ClientPortal.RepliesMatchRequests | rust/resource-mesh-portal-api-client/src/lib.rs:172-312 | Over any interleaving the replies are one for one those the finished requests asked for, and received requests are finished or running |
| ClientPortal.RepliesTellOutcomes | rust/resource-mesh-portal-api-client/src/lib.rs:184-311 | Over any interleaving each reply says what its handler's outcome has it say: an http code, 500 for an http error, a port handler's own signal, or the failure text for an undefined port, no answer or an error |
| ClientPortal.StatusAndResponses | rust/resource-mesh-portal-api-client/src/lib.rs:111-116 | Only setting the status changes it; each response taken while Ready went to a caller or was reported as unmatched |
| ClientPortal.Portal.Exchange | rust/resource-mesh-portal-api-client/src/lib.rs:364-381 | Warns on a preset kind, registers the slot, and emits the caller's recipients and operation under the id when its entry is in the table, not before |
| ClientPortal.Portal.ReceiveFrame | rust/resource-mesh-portal-api-client/src/lib.rs:172-332 | Ignores everything unless Ready; starts a handler for a request; removes and answers the entry of a response |
| ClientPortal.Portal.Finish | rust/resource-mesh-portal-api-client/src/lib.rs:184-311 | A finishing handler emits one reply if its request asks for one, with its id, to its sender and saying what the outcome has it say, else none |
| Router.RouteKeeps | rust/resource-mesh-portal-api-test/src/lib.rs:217-297 | A response goes back to the sender, from the recipient, under the request's id; a passed-on request is unchanged; a request is dropped exactly if it is a resource operation that asks for no response |
| Router.RouteAnswers | rust/resource-mesh-portal-api-test/src/lib.rs:229-279 | A select is answered with the muxer's listing, any other resource operation with the failure text of the source |
| Router.ResponsePasses | rust/resource-mesh-portal-api-test/src/lib.rs:290-294 | A response goes through unchanged |
| Router.InYourFaceRouter.RouteMessage | rust/resource-mesh-portal-api-test/src/lib.rs:217-297 | The branches of `route`, given the muxer's answer to a select, send exactly the specified message |
| Messages.RequestRoundTrip | rust/resource-mesh-portal-serde/src/message.rs:67-86 | Stamping and converting back is the identity if and only if the request names exactly its one recipient |
| Messages.ResponseRoundTrip | rust/resource-mesh-portal-serde/src/message.rs:106-135 | The conversions carry id and signal; only the sender depends on who stamps |
| Messages.ForwardKeeps | rust/resource-mesh-portal-serde/src/message.rs:47-96 | A stamped request converts to an outlet request, with sender, operation and kind, if and only if it is an ext operation |
| Messages.FrameKeeps | rust/resource-mesh-portal-serde/src/message.rs:88-135 | On its way to a portal a message loses its recipient and nothing else |
| InitWait.Await | rust/resource-mesh-portal-api-server/src/lib.rs:251-299 | The loop reports at most once, on the first reception that is an error, a timeout, or a Ready or Panic in second position of a turn |
| InitWait.EndsExactly | rust/resource-mesh-portal-api-server/src/lib.rs:251-299 | The wait ends in success exactly at a Ready in second position of a turn, and in failure exactly at a Panic there or at an error or timeout, with nothing seen in front |
| InitWait.ReadySeen | rust/resource-mesh-portal-api-server/src/lib.rs:276-285 | Without errors and panics the wait succeeds if and only if some even-numbered reception is Ready |
| InitWait.FirstTellingDecides | rust/resource-mesh-portal-api-server/src/lib.rs:251-299 | The loop goes by the first Ready, Panic or failure of the stream, however the stream goes on, if and only if that reception is a failure or a status in second position of a turn |
| InitWait.FirstOfTurnUnseen | rust/resource-mesh-portal-api-server/src/lib.rs:253-276 | On every stream the first status of a turn is never decisive, and putting another status in its place changes nothing |
| InitWait.InitGate.Init | rust/resource-mesh-portal-api-server/src/lib.rs:238-316 | A second init is always refused and changes nothing; a failed wait panics the portal and sends Close |
| Framing.StreamRoundTrip | rust/resource-mesh-portal-tcp-common/src/lib.rs:105-141 | Decoding what was written gives back the written frames and no rest, if and only if each is shorter than 2^32 bytes |
| Framing.WireFormat | rust/resource-mesh-portal-tcp-common/src/lib.rs:137-141 | On the wire are the length modulo 2^32, most significant byte first, and the frame |
| Framing.DecodeEncode | rust/resource-mesh-portal-serde/src/version/v0_0_1/mod.rs:241-245 | One frame is read back if and only if its length survives the cast to u32; otherwise its length modulo 2^32 is read |
| Framing.CutStream | rust/resource-mesh-portal-tcp-common/src/lib.rs:105-114 | Cut anywhere, the stream yields exactly its whole frames and leaves the reader on the boundary before the torn one |
| Framing.TornFrame | rust/resource-mesh-portal-tcp-common/src/lib.rs:105-114 | No frame is read out of an incomplete one |
| Framing.FrameReader.Read | rust/resource-mesh-portal-tcp-common/src/lib.rs:105-114 | Returns the first frame of the stream and leaves the rest, under any chunking |
| Framing.FrameReader.ReadAll | rust/resource-mesh-portal-tcp-server/src/lib.rs:218-226 | The reading loop collects all whole frames in order |
| Framing.FrameWriter.Write | rust/resource-mesh-portal-tcp-common/src/lib.rs:137-141 | Appends length and data, cut off exactly where the socket breaks |
| Pipeline.PrefixExactly | rust/resource-mesh-portal-tcp-client/src/lib.rs:69-79 | In every run the processed frames are an in-order, gap-free, duplicate-free prefix of those accepted, if and only if each frame given to it is shorter than 2^32 bytes or its cut to its length modulo 2^32 does not deserialize |
| Pipeline.PrefixUnbounded | rust/resource-mesh-portal-tcp-server/src/lib.rs:218-226 | Where no proper prefix of a frame deserializes the prefix property holds without a bound on lengths |
| Pipeline.ProcessedIsPrefix | rust/resource-mesh-portal-tcp-server/src/lib.rs:218-226 | The prefix property for such frames, whichever stages failed and when, for the processed frames and for those together with the ones in the call queue |
| Pipeline.NothingLost | rust/resource-mesh-portal-api-server/src/lib.rs:94-102 | While no stage has failed every accepted frame is processed or under way, in order; the stream holds whole frames, and decodes to them when they are shorter than 2^32 bytes |
| Pipeline.CutArrives | rust/resource-mesh-portal-serde/src/version/v0_0_1/mod.rs:241-245 | A longer frame whose cut deserializes reaches the task as that cut |
| Pipeline.StepKeeps | rust/resource-mesh-portal-tcp-client/src/lib.rs:67-80 | Every step of every stage, failures and oversized frames that stop the reader included, keeps what is processed plus what can still arrive a prefix of what was accepted |
| Pipeline.QueuesBounded | rust/resource-mesh-portal-tcp-client/src/lib.rs:64-65 | No queue ever holds more than its channel was made for, 1024, 128 and 1024 |
| Pipeline.TakesFirst | rust/resource-mesh-portal-tcp-client/src/lib.rs:134-144 | Of frames sent before the writer writes any, `TcpInlet` takes the first 1024 |
| Pipeline.StopsExactly | rust/resource-mesh-portal-tcp-server/src/lib.rs:218-226 | Each stage stops on its own failures, a full inlet queue included, and on nothing else |
| Pipeline.StoppedStaysStopped | rust/resource-mesh-portal-tcp-client/src/lib.rs:69-79 | A stopped stage never goes on and passes nothing more |
| Uplink.Stages.Send | rust/resource-mesh-portal-tcp-client/src/lib.rs:134-144 | `try_send` takes the frame exactly when the pump lives and the queue has room |
| Uplink.Stages.PumpWriter | rust/resource-mesh-portal-tcp-client/src/lib.rs:69-79 | The loop puts on the stream the encoding of the queue up to the first frame that does not serialize, cut off where the socket breaks |
| Uplink.Stages.PumpReader | rust/resource-mesh-portal-tcp-server/src/lib.rs:218-226 | The loop moves the frames of the stream in order, up to the first that does not deserialize, as far as there is room |
| Handshake.Agreement | rust/resource-mesh-portal-tcp-client/src/lib.rs:35-61 | In every joint run the client enters frame mode only if flavors are equal and the server accepted the credential it sent, is connected only with the info the server serves, and never takes a frame for a string or the reverse |
| Handshake.CanConnect | rust/resource-mesh-portal-tcp-client/src/lib.rs:89-117 | The client can connect if and only if flavors are equal, it has a credential, the server accepts it and has an info |
| Handshake.EndsExactly | rust/resource-mesh-portal-tcp-client/src/lib.rs:35-117 | What the client can come out with in the end is exactly what flavors, credential, verdict and info make due, with the server's words as reason |
| Handshake.CanFailFlavor | rust/resource-mesh-portal-tcp-server/src/lib.rs:174-181 | It can fail on the flavor if and only if the flavors differ, for the reason this server gives |
| Handshake.CanFailAuth | rust/resource-mesh-portal-tcp-server/src/lib.rs:259-265 | It can fail the authorization if and only if flavors are equal and the credential it sent is rejected, for the reason the server gives |
| Handshake.CanLackInfo | rust/resource-mesh-portal-tcp-server/src/lib.rs:252-257 | It can be left without an info if and only if it is accepted and the server has none |
| Handshake.EndsAsDue | rust/resource-mesh-portal-tcp-server/src/lib.rs:166-268 | No run, whatever its pace and wherever it breaks, ends otherwise on either side |
| Handshake.CredentialAfterOk | rust/resource-mesh-portal-tcp-client/src/lib.rs:39-50 | The client shows its credential only after it has read "Ok" |
| Handshake.OkOnlyIfDue | rust/resource-mesh-portal-tcp-server/src/lib.rs:174-193 | The server says "Ok" first only to its own flavor, and again only to a client it accepts |
| Handshake.ReadsLineUp | rust/resource-mesh-portal-tcp-server/src/lib.rs:166-191 | What the server reads as flavor and credential is what the client wrote as such |
| Handshake.ErrorsAreNotOk | rust/resource-mesh-portal-tcp-server/src/lib.rs:174-264 | No error text of the server can be taken for "Ok" |
| Handshake.ClientHandshake | rust/resource-mesh-portal-tcp-client/src/lib.rs:39-117 | The sequential client writes and decides as the joint machine has it |
| Handshake.ServerHandshake | rust/resource-mesh-portal-tcp-server/src/lib.rs:166-268 | The sequential server writes and decides as the joint machine has it |
| Lifecycle.StatusOrder | rust/resource-mesh-portal-tcp-server/src/lib.rs:98-161 | Status events are Initializing, then at most one Ready, then at most one Done; or Initializing and one Panic |
| Lifecycle.ServesAll | rust/resource-mesh-portal-tcp-server/src/lib.rs:145-156 | Any connections, one after the other, can be handled while nobody shuts the server down |
| Lifecycle.OverExactly | rust/resource-mesh-portal-tcp-server/src/lib.rs:137-163 | The server is over if and only if it could not bind, could not accept, or found the flag cleared |
| Lifecycle.PanicTellsWhy | rust/resource-mesh-portal-tcp-server/src/lib.rs:158-163 | A panic is the failure to bind, in the words of the source |
| Lifecycle.AllAnnounced | rust/resource-mesh-portal-tcp-server/src/lib.rs:116-153 | Each handled connection and the shutdown are broadcast once, the shutdown before the flag is cleared |
| Lifecycle.NegotiationsTold | rust/resource-mesh-portal-tcp-server/src/lib.rs:166-268 | Every report of a handshake is broadcast |
| Lifecycle.LateIsNeverHandled | rust/resource-mesh-portal-tcp-server/src/lib.rs:145-153 | In no run is a connection handled that was accepted after the flag was cleared, and at most one is accepted then |
| Lifecycle.HandledAfterShutdown | rust/resource-mesh-portal-tcp-server/src/lib.rs:145-153 | After the flag is cleared something can still be handled if and only if a connection had passed the test before |
| Lifecycle.AfterShutdown | rust/resource-mesh-portal-tcp-server/src/lib.rs:116-156 | After the flag is cleared nothing is handled but the connection, if any, that had passed the test |
| Lifecycle.RaceIsReal | rust/resource-mesh-portal-tcp-server/src/lib.rs:116-153 | The race happens: a run in which the flag is cleared between test and handling |
| Lifecycle.HandledOnce | rust/resource-mesh-portal-tcp-server/src/lib.rs:145-156 | Each connection is handled at most once |
| Lifecycle.PortalTcpServer.Turn | rust/resource-mesh-portal-tcp-server/src/lib.rs:145-156 | A turn of the accept loop, with the flag cleared before the test, after it or not at all, handles the connection exactly when the flag was set at the test |
| Lifecycle.PortalTcpServer.BindSocket | rust/resource-mesh-portal-tcp-server/src/lib.rs:137-163 | Ready on success, Panic with the reason on failure |
| Lifecycle.PortalTcpServer.FailToAccept | rust/resource-mesh-portal-tcp-server/src/lib.rs:145-156 | A failure to accept ends the loop with Done |
| Scanners.Take1 | rust/resource-mesh-portal-serde/src/version/v0_0_1/parse.rs:20-67 | Longest match: a non-empty word of the class that cannot be extended, or nothing if none starts here |
| Scanners.Take1Exact | rust/resource-mesh-portal-serde/src/version/v0_0_1/parse.rs:20-67 | Longest match finds exactly the word written, whatever follows |
| Scanners.ClassesListed | rust/resource-mesh-portal-serde/src/version/v0_0_1/parse.rs:20-67 | Each character class, spelled out |
| Decimal.ParsePrint | rust/resource-mesh-portal-serde/src/version/v0_0_1/mod.rs:146-163 | Reading a printed number gives the number |
| Decimal.PrintParse | rust/resource-mesh-portal-serde/src/version/v0_0_1/parse.rs:121-130 | Printing a numeral that was read gives it back without leading zeros |
| Decimal.ReadsExactly | rust/resource-mesh-portal-serde/src/version/v0_0_1/parse.rs:121-130 | A numeral is read as the number its digits denote, by the table "0123456789" |
| Decimal.PrintsDenoting | rust/resource-mesh-portal-serde/src/version/v0_0_1/mod.rs:146-163 | A number prints as the numeral that denotes it, without a leading zero |
| Decimal.OneMoreDigit | rust/resource-mesh-portal-serde/src/version/v0_0_1/parse.rs:121-130 | One more digit makes a numeral worth ten times as much and the digit |
| VersionText.AcceptsExactly | rust/resource-mesh-portal-serde/src/version/v0_0_1/mod.rs:165-182 | `from_str` accepts a text with a value if and only if the text has a grammatical split with numbers in `usize` and that value |
| VersionText.ReadsAsSpelled | rust/resource-mesh-portal-serde/src/version/v0_0_1/mod.rs:165-182 | `from_str` gives a version if and only if the text spells it: digits of major, minor and patch between dots, and a hyphen and the release if there is one |
| VersionText.PrintsAsSpelled | rust/resource-mesh-portal-serde/src/version/v0_0_1/mod.rs:146-163 | A version prints as a text that spells it, without leading zeros |
| VersionText.PanicsExactly | rust/resource-mesh-portal-serde/src/version/v0_0_1/parse.rs:121-130 | It panics if and only if the text begins with three dotted numerals of which one is too large |
| VersionText.LargeNumberPanics | rust/resource-mesh-portal-serde/src/version/v0_0_1/parse.rs:121-130 | A number from 2^64 on makes a text that panics; every smaller one is read |
| VersionText.ScanExact | rust/resource-mesh-portal-serde/src/version/v0_0_1/parse.rs:112-146 | Greedy scanning finds every grammatical split |
| VersionText.PartsUnique | rust/resource-mesh-portal-serde/src/version/v0_0_1/parse.rs:112-146 | The split is unique |
| VersionText.RoundTrip | rust/resource-mesh-portal-serde/src/version/v0_0_1/mod.rs:146-182 | Print then parse is the identity if and only if the release is absent or a non-empty word of its class |
| VersionText.NormalForm | rust/resource-mesh-portal-serde/src/version/v0_0_1/mod.rs:146-182 | An accepted text prints as itself without leading zeros, and that parses to the same version |
| VersionText.SameVersion | rust/resource-mesh-portal-serde/src/version/v0_0_1/mod.rs:165-182 | Two accepted texts parse equal if and only if their normal forms are equal |
| SpecificText.AcceptsExactly | rust/resource-mesh-portal-serde/src/version/v0_0_1/mod.rs:109-124 | `from_str` accepts exactly vendor:product:variant:version with fields in their classes and numbers in `usize` |
| SpecificText.ReadsAsSpelled | rust/resource-mesh-portal-serde/src/version/v0_0_1/mod.rs:109-124 | `from_str` gives a specific if and only if the text spells it: vendor, product and variant, a colon behind each, and the version |
| SpecificText.PrintsAsSpelled | rust/resource-mesh-portal-serde/src/version/v0_0_1/mod.rs:97-107 | A specific prints as a text that spells it |
| SpecificText.PanicsExactly | rust/resource-mesh-portal-serde/src/version/v0_0_1/parse.rs:153-174 | It panics if and only if three well-formed names precede three dotted numerals of which one is too large |
| SpecificText.PartsUnique | rust/resource-mesh-portal-serde/src/version/v0_0_1/parse.rs:153-174 | The split is unique |
| SpecificText.RoundTrip | rust/resource-mesh-portal-serde/src/version/v0_0_1/mod.rs:97-124 | Print then parse is the identity if and only if every field is in its class |
| AddressText.AcceptsExactly | rust/resource-mesh-portal-serde/src/version/v0_0_1/mod.rs:60-73 | `from_str` gives a segment list if and only if it is well formed and the text is its colon-joined form |
| AddressText.ReadsAsSpelled | rust/resource-mesh-portal-serde/src/version/v0_0_1/parse.rs:178-189 | A word is read as one segment; a word and a colon in front of an accepted text add one segment |
| AddressText.OnlySpelledReads | rust/resource-mesh-portal-serde/src/version/v0_0_1/parse.rs:178-189 | Every accepted text is built that way |
| AddressText.JoinParses | rust/resource-mesh-portal-serde/src/version/v0_0_1/parse.rs:178-189 | The joined text of any well-formed list parses back to it with nothing left over |
| AddressText.JoinInjective | rust/resource-mesh-portal-serde/src/version/v0_0_1/parse.rs:178-189 | Joining is injective |
| AddressText.ToString | rust/resource-mesh-portal-serde/src/version/v0_0_1/mod.rs:75-86 | The printing loop as written puts a colon behind every segment |
| AddressText.PrintedNeverParses | rust/resource-mesh-portal-serde/src/version/v0_0_1/mod.rs:60-86 | What the printer gives for any address is rejected by the parser |
| AddressText.PrintedWithoutLastColon | rust/resource-mesh-portal-serde/src/version/v0_0_1/mod.rs:60-86 | Without its last colon the printed text parses back if and only if the address is well formed |
| AddressText.Parent | rust/resource-mesh-portal-serde/src/version/v0_0_1/mod.rs:47-58 | None for the empty address, a panic for every other |
| AddressText.ParentAsIntended | rust/resource-mesh-portal-serde/src/version/v0_0_1/mod.rs:47-58 | The code gives the address without its last segment if and only if there is no segment; the index one lower would give it always |
| AddressText.AncestorExactly | rust/resource-mesh-portal-serde/src/version/v0_0_1/mod.rs:47-58 | In the intended sense the n-th ancestor drops the last n segments, so the empty address is reached in as many steps as there are segments |

## Left out

- Pipeline.StepKeeps: one step may not send a frame of 2^32 bytes or more whose cut deserializes; `Pipeline.PrefixExactly` states over whole runs that this is needed.
- Handshake.Agreement: user-supplied authorization is one credential string sent by the client, accepted or rejected by the server; other dialogues are not modelled.
- NetworkTheorems.Correlation: server code may send a client any frame but a response, and tags each request of its own with a fresh id; a server that forges responses is excluded.
- NetworkTheorems.RequestReachesNamed: the answer a handler gives is any response at any time; the exchange it belongs to is followed only up to the end of the handler, since no answer is forwarded.
- NetworkSteps.StepKeeps: queue capacities are replaced by sends that may fail at any time.
- Router.InYourFaceRouter.RouteMessage: the select call to the muxer is a parameter; in `Network` it is a step of its own, and a router task whose answer never comes may die at any time.
- Muxer.PortalMuxer.Handle: the select call is `HandleSelect`, because its selector is a function and its answer goes to the caller.
- Serialization of frames: payloads are opaque bytes in the transport modules and values in the protocol modules; which bytes deserialize is a parameter of `Pipeline` and `Uplink`.
- In the TCP client the queue its reader pump fills is not handed to the portal in the repository; receiving a frame from the downlink is a step of the model all the same.
- The downlink pumps: the same pump shape as the uplink, in the other direction.
- Unicode: texts are sequences of characters and the scanners' classes are the ASCII ones.
- Bodies and headers of http responses, and the fields of configuration, archetype and stub records; the text of the conversion failure, which is never sent.
- Commands, binary parcels and Close frames, whose handlers are empty; logging, event display, the hello example and the test harness around the router.
- Sockets, threads and clocks: timeouts are choices, and no claim is made about real time or liveness.
