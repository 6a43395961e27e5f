# http-pierce, verified

http-pierce is a reverse tunnel. A server accepts public HTTP and TCP connections and sends what it
reads from them through one framed connection per client; the client opens connections to backends
and sends back what they answer. This project models the parts of it whose correctness lies in the
interplay of several handlers, and proves what they guarantee in every run. `dafny verify
dfyconfig.toml` checks all of it.

| files | what they model |
|---|---|
| Basics, Messages | options, bytes, tables of queues; system messages |
| Forwarding | the forwarding protocol as a state machine: the server's and the clients' `REQUEST_MAPPING`, channel attributes, `CLIENT_FORWARD`, pending connects, backend channels, a queue of writes and a queue in each direction per tunnel, closes at any point |
| ForwardingSafety, -Conservation, -Order, -Race | invariants, one lemma per kind of step |
| ForwardingTheorems | what follows for every run, stated against the events of the run |
| ForwardingRaces, ForwardingLeftovers | a run with a race; what is left of a closed public channel, and runs that leave it |
| ForwardingBackends | which backend an id is mapped to, how many it has and what each is given, read off the events of a run |
| ForwardingTunnel | what a tunnel carries, what a channel remembers, what a closed TCP channel leaves |
| ForwardingRoundTrip | a run in which an HTTP request is answered |
| ForwardingHandlers | the handlers over mutable tables: each takes a valid state by the protocol's step to a valid state |
| Registry, RegistrySafety | `ROUTE_MAPPING`, `DYNAMIC_BOOT` and the per-channel lists, one table operation per step, any interleaving |
| RegistryAtomic, RegistryExact | whole handlers, what uninterrupted operations amount to, where in runs of whole handlers the lists are exact and where they are not |
| RegistryInterleaved | the same question for single table operations in any interleaving: what the lists hold, who takes a route, when the lists are exact |
| RegistryReplies | what the server answers to which message, in any interleaving and literally for each handler |
| RegisterHandlers | the registration handler over mutable tables, proved to be those functions |
| Wire, Codec, CodecProofs | the binary format over a buffer with a cursor, and its round trip |
| Framing, TunnelStream | the frame decoder under any chunking, and both decoders in a row |
| Session, SessionProofs, ClientSessions | one connection's registrations: client tables, server tables, both queues |
| Waiting | the blocking request/reply wait |
| Routing | route extraction on the server and prefix removal on the client |
| Upgrade | the pipeline of an upgraded backend connection |

A state machine here is a function `Step` from a state and an event to a state; an event that cannot
happen changes nothing, and a run is any sequence of events. Where the program assigns fields and
tables in place there is a class whose methods do the same, each proved to take the abstract view of
the object to what the specification function says. The `Record` of the forwarding model (owners of
ids, chunks, inputs, deliveries) and the fields `no` and `from` of its messages record history: the
numbers in messages are taken from it and a new id is one that is not on it, and no step depends on
it otherwise. A write listener uses the id and channel it captured, the handler of an upgraded
channel the id and tunnel it captured, and that those are the right ones is proved. The record is
tied to the events of the run by `OwnersAreGenerated`, `ChunksAreSent`, `HeardIsRead`, `SentIsRead`,
`GivenIsRouted`, `InsertedMeans`, `RacedMeans` and `LostMeans`.

## Assumptions

- Generated ids are globally unique, as `IdUtil` intends.
- A tunnel delivers in order and unchanged until it closes; `StreamRoundTrip` shows that codec and
  framing add nothing to that for encodable messages.
- The write of an HTTP request and the insertion of its mapping in the write listener are one step,
  before the peer can answer.
- The platform's charset and serialiser read back what they write, the serialiser never writes
  nothing, and a byte read by the charset stands for at most three when written again, as in UTF-8
  with its replacement character (`Lawful`). They, the blank test and the maximal frame length are
  parameters.
- All clients are this program's own client.

## What the code does that its design does not say

- Order on one TCP connection holds only if no chunk arrives while a connect of its id is pending:
  `handleDataMsg` opens a second connection in that case. `RequestsInOrder` and `RaceIsFatal` give
  the exact condition, `RaceHappens` and `OrderBreaks` the input.
- A closing public channel removes the mapping of its last request only: those of its earlier
  requests stay, and so does one that a write listener inserts after the close: `Leftovers` gives the
  exact condition, `EarlierStays` and `LateStays` the inputs.
- A cancel removes a name from the global table but not from the channel's list, so a later
  disconnect can remove the route of another client, and a second cancel on an own port stops the
  wrong boot: `ListsAreHistory`, `DisconnectHarms`, `WhoTookIt`, `HarmNeedsCancel`,
  `HarmWithoutCancelSince`, `CancelledNameIsLost`, `SecondCancelLeavesListener` of RegistryExact.
- No cancel is needed for that when handlers interleave: looking a name up and putting it are two
  operations, so two clients that register one name at the same time can both be told that they have
  it, the first one's route is lost to the second one's put, and the first one's disconnect then
  takes the second one's. `TwoPutsOneRoute` gives the input, `ExactUnlessOverwritten`, `IdleIsExact`,
  `WhoTookIt` and `LossNeedsCause` of RegistryInterleaved the exact conditions.
- A cancel does not look at whose name it is: a name that anybody has routed loses its route, and
  then the canceller's own listener of that name is not reached: `CancelStopsListener`,
  `CancelTakesRoute`, `CancelHitsOther`.
- On an own port the holder is evicted when it is inactive or *writable* (`|| isWritable()`), on the
  default port when it is inactive or *not* writable; the model does the same.
- A registration that is sent while a cancel of the same name is on its way ends with a route to a
  client that has forgotten the service: `HastyIsFatal`, `HastyHappens`.
- Method and version are written with a one-byte length that is read signed, so 127 bytes is the
  exact limit; and the response code of a data message is not written at all, so it is always read
  as 0: `RoundTrip`.
- Removing the service name from the path removes it everywhere it follows a slash, also inside
  longer segments: `RouteAndRemove`, `RemovesTooMuch`.
- An interrupted wait leaves its promise behind, for good if no reply comes: `WhatRemains`,
  `InterruptedRemains`, `InterruptedForGood`.

## Model

| member | source | states |
|---|---|---|
| `ForwardingTheorems.NoCrossTalk` | src/main/java/com/github/fishlikewater/httppierce/handler/MessageTransferHandler.java:22-32 | In every run, whatever was written to a public channel was read from a backend connection opened for the id it carries, and that id was generated by an event that read a request from that same public channel. The mapping is inserted from what the write listener captured, and that this is the right channel is proved. |
| `ForwardingTheorems.NoRequestCrossTalk` | src/main/java/com/github/fishlikewater/httppierce/handler/ClientMessageHandler.java:62-95 | In every run, whatever was written to a backend was sent, under the id the backend was opened for, by the public channel that id was generated for. |
| `ForwardingTheorems.ResponsesConserved` | src/main/java/com/github/fishlikewater/httppierce/handler/HttpServerHandler.java:84-113 | For every id, what the public channel received is a prefix of what the backends of the id sent into the tunnel; while channel and tunnel are open, received plus in flight is exactly that, in order. No response is lost for want of a mapping. |
| `ForwardingTheorems.RequestsInOrder` | src/main/java/com/github/fishlikewater/httppierce/handler/DynamicTcpServerHandler.java:33-47 | If no connect of an id starts while another is pending, the inputs of its backends, in opening order, are chunks of the public channel in increasing order, so none is given twice or to two backends. |
| `ForwardingTheorems.RequestsComplete` | src/main/java/com/github/fishlikewater/httppierce/handler/ClientMessageHandler.java:62-95 | Without such a race and without a loss the backends were given an exact prefix of the chunks, and given, waiting and travelling chunks together are all of them while the tunnel is open. |
| `ForwardingBackends.MappedMeans` | src/main/java/com/github/fishlikewater/httppierce/handler/ClientMessageHandler.java:84-93 | In every run, a client has an id mapped to a backend exactly if the connect that opened the backend is the last of that id on that client to have completed, and no backend of the id was closed since: mapped from that moment on, until then, and to nothing else. |
| `ForwardingBackends.OneBackend` | src/main/java/com/github/fishlikewater/httppierce/handler/ClientMessageHandler.java:62-75 | In every run in which no connect of an id starts while another is pending and no backend of the id closes, at most one backend is ever opened for the id. |
| `ForwardingBackends.GivenIsRouted` | src/main/java/com/github/fishlikewater/httppierce/handler/ClientMessageHandler.java:62-65 | What a backend was given is, in order, the request that opened it and then the requests that were read while their id was mapped to it and it was open. |
| `ForwardingBackends.RequestMeans` | src/main/java/com/github/fishlikewater/httppierce/handler/ClientMessageHandler.java:66-75 | An unmapped request that names a service its client has starts exactly one connect, to that service's address, if it is an HTTP request or the service is a TCP service; it is lost exactly if the service is missing or unknown or a plain chunk names an HTTP service; a mapped request starts none. |
| `ForwardingBackends.ServicesMean` | src/main/java/com/github/fishlikewater/httppierce/handler/ClientMessageHandler.java:108-112 | In every run, the client of a tunnel has a service under a name exactly if the tunnel opened with it or it was added, and the name was not added again or removed since. |
| `ForwardingBackends.OpenMeans` | src/main/java/com/github/fishlikewater/httppierce/handler/ClientMessageHandler.java:84-93 | In every run, a backend is open exactly if a connect that opened it has completed and it has not closed. |
| `ForwardingBackends.ClientsMean` | src/main/java/com/github/fishlikewater/httppierce/handler/ClientMessageHandler.java:177-192 | In every run, a tunnel leads to the client that opened it, for good. |
| `ForwardingRoundTrip.IsAnswered` | src/main/java/com/github/fishlikewater/httppierce/handler/HttpServerHandler.java:41-94 | Whatever the service, of either protocol, and whatever the bodies: there is a run in which an HTTP request read on the shared port is given to a backend at the service's address and the backend's answer is written to the channel that asked. |
| `ForwardingRoundTrip.ChunkFollows` | src/main/java/com/github/fishlikewater/httppierce/handler/WebSocketHandler.java:26-32 | If that request asked for an upgrade, there is a continuation in which a further chunk of the channel is given to the same backend, behind the request and without a service. |
| `ForwardingTunnel.TunnelCarries` | src/main/java/com/github/fishlikewater/httppierce/handler/DynamicTcpServerHandler.java:41-47 | In every run, while a tunnel is open and none of its writes has failed, what the client has read from it, what travels and what waits for its write are together exactly the requests and chunks that the public channels handed to it, in order, each with its id, its service or none, and its kind. |
| `ForwardingTunnel.UpgradedMeans` | src/main/java/com/github/fishlikewater/httppierce/handler/DynamicHttpServerHandler.java:46-50 | In every run, a channel sends its chunks under an id and to a tunnel exactly if one of its requests with that id and tunnel asked for an upgrade. |
| `ForwardingTunnel.RemembersLast` | src/main/java/com/github/fishlikewater/httppierce/handler/DynamicTcpServerHandler.java:35-39 | In every run, the id that a channel remembers is that of its last HTTP request or of its first TCP chunk. |
| `ForwardingTunnel.TcpLeavesNothing` | src/main/java/com/github/fishlikewater/httppierce/handler/DynamicTcpServerHandler.java:50-56 | In every run, no mapping leads to a TCP channel that has closed, and one that leads to an open TCP channel is that of the id the channel remembers. |
| `ForwardingTheorems.RaceBreaksOrder` | src/main/java/com/github/fishlikewater/httppierce/handler/ClientMessageHandler.java:84-95 | Whenever two connects of one id are pending there is a continuation of the run in which a backend opened later gets the earlier chunk. |
| `ForwardingTheorems.RaceIsFatal` | src/main/java/com/github/fishlikewater/httppierce/handler/ClientMessageHandler.java:62-87 | Every race has such a continuation, so the hypothesis of RequestsInOrder is exact. |
| `ForwardingRaces.RaceHappens` | src/main/java/com/github/fishlikewater/httppierce/handler/ClientMessageHandler.java:63-74 | For every TCP service and any two chunks there is a run of eight events whose last one is a race. |
| `ForwardingRaces.OrderBreaks` | src/main/java/com/github/fishlikewater/httppierce/handler/ClientMessageHandler.java:84-95 | For every TCP service and any two chunks some continuation of that run gives the chunks to backends in the wrong order. |
| `ForwardingLeftovers.Leftovers` | src/main/java/com/github/fishlikewater/httppierce/handler/HttpServerHandler.java:84-113 | In every run, an id whose public channel has closed is still in REQUEST_MAPPING if and only if its mapping was inserted, and it is not the id the channel closed with or was inserted when the channel was no longer open. |
| `ForwardingLeftovers.EarlierStays` | src/main/java/com/github/fishlikewater/httppierce/handler/DynamicHttpServerHandler.java:43-79 | Whatever the service and the bodies: when a channel has sent two requests and both were written, its close leaves the mapping of the first one, and only that. |
| `ForwardingLeftovers.LateStays` | src/main/java/com/github/fishlikewater/httppierce/handler/HttpServerHandler.java:84-113 | Whatever the service and the body: when a channel closes before the write of its only request has completed, the listener inserts the mapping after that and it stays. |
| `ForwardingLeftovers.InsertedMeans` | src/main/java/com/github/fishlikewater/httppierce/handler/HttpServerHandler.java:84-93 | An id counts as inserted exactly if some event of the run inserted its mapping, a TCP chunk or the listener of a successful write. |
| `ForwardingTheorems.RacedMeans` | src/main/java/com/github/fishlikewater/httppierce/handler/ClientMessageHandler.java:63-74 | An id counts as raced exactly if some event of the run started a connect for it while one was pending. |
| `ForwardingTheorems.LostMeans` | src/main/java/com/github/fishlikewater/httppierce/handler/ClientMessageHandler.java:63-93 | An id counts as lossy exactly if some event lost one of its requests: closed tunnel, failed write or connect, missing service, closed backend. |
| `ForwardingTheorems.OneServicePerId` | src/main/java/com/github/fishlikewater/httppierce/handler/WebSocketHandler.java:26-32 | All requests of one id, wherever they are (waiting for a write, travelling, in a connect, given to a backend) and however far apart in a run, belong to one tunnel and name one service, or none: those of the event that generated the id. |
| `ForwardingTheorems.ServiceFidelity` | src/main/java/com/github/fishlikewater/httppierce/handler/ClientMessageHandler.java:67-87 | Every backend connection of an id was opened to the address that the client held for the service its opening request named, when that request was handled; service and tunnel are those of the event that generated the id. |
| `ForwardingTheorems.ConnectFidelity` | src/main/java/com/github/fishlikewater/httppierce/handler/ClientMessageHandler.java:67-73 | Every pending connect goes to where the client had the service that its request named, in the tunnel of its id, when that request was handled. |
| `ForwardingTheorems.OwnersAreGenerated` | src/main/java/com/github/fishlikewater/httppierce/handler/DynamicTcpServerHandler.java:35-46 | Every id on record was generated by an event of the recorded channel, sent to the recorded tunnel and named the recorded service. |
| `ForwardingTheorems.OwnerForGood` | src/main/java/com/github/fishlikewater/httppierce/kit/IdUtil.java:13 | What an id was generated for never changes. |
| `ForwardingTheorems.HeardIsRead` | src/main/java/com/github/fishlikewater/httppierce/handler/ClientResponseHandler2.java:28-34 | Every byte array recorded for a backend was read from it by an event of the run. |
| `ForwardingTheorems.SentIsRead` | src/main/java/com/github/fishlikewater/httppierce/handler/ClientResponseHandler2.java:28-34 | What is recorded as sent for an id is, message by message and in order, what the events of the run read from backends of that id while their tunnel was open. |
| `ForwardingTheorems.ChunksAreSent` | src/main/java/com/github/fishlikewater/httppierce/handler/DynamicTcpServerHandler.java:41-46 | Every chunk recorded for an id was sent by its owner in an event of the run. |
| `ForwardingTheorems.EveryRun` | src/main/java/com/github/fishlikewater/httppierce/kit/ChannelUtil.java:31-35 | All invariants of the protocol hold after every run. |
| `ForwardingHandlers.Handlers.HttpServerRead` | src/main/java/com/github/fishlikewater/httppierce/handler/HttpServerHandler.java:41-94 | From any valid state: a request on the shared port is forwarded exactly if its path or header names a routed service, to the tunnel of that service, as the protocol's step; otherwise it is refused or throws and nothing changes. The state is valid again. |
| `ForwardingHandlers.UpgradesWhen` | src/main/java/com/github/fishlikewater/httppierce/handler/HttpServerHandler.java:61-66 | A request asks for an upgrade exactly if its Connection header is not blank and has the word somewhere in it. |
| `ForwardingHandlers.Handlers.HttpRead` | src/main/java/com/github/fishlikewater/httppierce/handler/DynamicHttpServerHandler.java:43-79 | A request for a known service is the protocol's step: new id, channel attribute, capture for an upgrade, message and write listener handed to the tunnel; every invariant is kept. |
| `ForwardingHandlers.Handlers.Identify` | src/main/java/com/github/fishlikewater/httppierce/handler/DynamicTcpServerHandler.java:35-39 | A TCP channel keeps the id of its first chunk. |
| `ForwardingHandlers.Handlers.TcpRead` | src/main/java/com/github/fishlikewater/httppierce/handler/DynamicTcpServerHandler.java:33-47 | A TCP chunk is the protocol's step: one id per channel, mapping inserted before the write; every invariant is kept. |
| `ForwardingHandlers.Handlers.WebSocketRead` | src/main/java/com/github/fishlikewater/httppierce/handler/WebSocketHandler.java:26-32 | A chunk after the upgrade goes out under an id generated for this very channel, to the tunnel of that id, and names no service. |
| `ForwardingHandlers.Handlers.PublicInactive` | src/main/java/com/github/fishlikewater/httppierce/handler/HttpServerHandler.java:107-113 | A closing public channel removes only mappings that lead to itself. |
| `ForwardingHandlers.Handlers.WriteSucceeds` | src/main/java/com/github/fishlikewater/httppierce/handler/HttpServerHandler.java:84-93 | When the write of an HTTP request completes, its id is mapped to the channel it was generated for, although the listener knows only what it captured; other writes map nothing. |
| `ForwardingHandlers.Handlers.WriteFails` | src/main/java/com/github/fishlikewater/httppierce/handler/HttpServerHandler.java:90-92 | A failed write inserts nothing and loses its request. |
| `ForwardingHandlers.Handlers.ResponseRead` | src/main/java/com/github/fishlikewater/httppierce/handler/MessageTransferHandler.java:22-32 | A response is written to the channel its id was generated for, if that is still open, and to no other. |
| `ForwardingHandlers.Handlers.RequestRead` | src/main/java/com/github/fishlikewater/httppierce/handler/ClientMessageHandler.java:62-75 | A request is written to a backend exactly if its id is mapped, and then to the mapped one, which was opened for that id on this tunnel; it throws exactly if it is unmapped and its service is missing or unknown, or it is a plain chunk and the service is an HTTP service. |
| `ForwardingHandlers.Handlers.ConnectSucceeds` | src/main/java/com/github/fishlikewater/httppierce/handler/ClientMessageHandler.java:86-93 | The id is mapped to the new backend, the backend is linked to the id, the tunnel and the address, and the request that opened it is the first and only one it has been given. |
| `ForwardingHandlers.Handlers.ConnectFails` | src/main/java/com/github/fishlikewater/httppierce/handler/ClientMessageHandler.java:86-93 | A failed connect changes no mapping and loses its request. |
| `ForwardingHandlers.Handlers.BackendRead` | src/main/java/com/github/fishlikewater/httppierce/handler/ClientResponseHandler.java:32-37 | Bytes of a backend are tagged with its id and handed to the tunnel of that id. |
| `ForwardingHandlers.Handlers.BackendInactive` | src/main/java/com/github/fishlikewater/httppierce/handler/ClientResponseHandler2.java:42-45 | A closing backend removes the client's mapping of its own id and no other, whichever backend of that id it leads to. |
| `RegistrySafety.RoutesAreListed` | src/main/java/com/github/fishlikewater/httppierce/handler/RegisterHandler.java:76-96 | Under any interleaving of single table operations, every routed name is in its channel's list, or the channel's own handler is between put and list add. |
| `RegistrySafety.NoRouteOutlives` | src/main/java/com/github/fishlikewater/httppierce/handler/RegisterHandler.java:139-141 | Once a channel's disconnect has been processed, no route points to it, at any later time. |
| `RegistrySafety.IndexIsSound` | src/main/java/com/github/fishlikewater/httppierce/handler/RegisterHandler.java:98-129 | Every entry of the listener index is a started, not yet stopped boot filed under its own port, of a channel whose disconnect has not finished, cancels and conflicts included. |
| `RegistrySafety.NoListenerOutlives` | src/main/java/com/github/fishlikewater/httppierce/handler/RegisterHandler.java:139-148 | Every listening boot is in its owner's list unless its owner is still registering it, even if the index lost it, and none is left once the owner's disconnect has been processed. |
| `RegistrySafety.OneListenerPerPort` | src/main/java/com/github/fishlikewater/httppierce/handler/RegisterHandler.java:106-119 | Two listening boots never share a port, in any interleaving, given that a bind to a port on which a boot listens fails. |
| `RegistrySafety.OnlyAuthenticated` | src/main/java/com/github/fishlikewater/httppierce/handler/AuthHandler.java:25-37 | Every channel that holds a route or owns a boot received an AUTH message with the configured token earlier in the run. |
| `RegistrySafety.AuthedMeans` | src/main/java/com/github/fishlikewater/httppierce/handler/AuthHandler.java:26-34 | A channel has passed the gate if and only if the configured token was read from it. |
| `RegistrySafety.EveryRun` | src/main/java/com/github/fishlikewater/httppierce/handler/RegisterHandler.java:48-148 | The registry's invariants hold after every interleaving of single table operations. |
| `RegistryAtomic.AloneDefaultPort` | src/main/java/com/github/fishlikewater/httppierce/handler/RegisterHandler.java:76-96 | Run without interruption, the operations of a default-port registration do what the whole-handler function says. |
| `RegistryAtomic.AloneNewPort` | src/main/java/com/github/fishlikewater/httppierce/handler/RegisterHandler.java:98-129 | The same for a registration on an own port: new boot, failed start, conflict with and without eviction. |
| `RegistryAtomic.AloneCancel` | src/main/java/com/github/fishlikewater/httppierce/handler/RegisterHandler.java:48-64 | The same for a cancel: route, first boot of the name, or neither. |
| `RegistryAtomic.AloneDisconnect` | src/main/java/com/github/fishlikewater/httppierce/handler/RegisterHandler.java:139-148 | The same for a disconnect: all names and all boots of the lists, at once. |
| `RegistryReplies.RepliesAnswer` | src/main/java/com/github/fishlikewater/httppierce/handler/RegisterHandler.java:48-128 | In every interleaving, the replies to a channel answer messages that were read from it, in their order and each at most once: with the id and the command of the message, its register data, the HTTP port in them if the default port was given, and a state that fits. |
| `RegistryReplies.GateMeans` | src/main/java/com/github/fishlikewater/httppierce/handler/AuthHandler.java:25-37 | Before the token, a message that is not AUTH is answered with state 0, the right token with state 1 and a wrong one not at all, and none of them runs a handler; after it, everything passes unanswered by the gate. |
| `RegistryReplies.MessageAlone` | src/main/java/com/github/fishlikewater/httppierce/handler/RegisterHandler.java:38-74 | A message with data that passed the gate runs the registration on its port or the cancel, to its end. |
| `RegistryReplies.DefaultPortMeans` | src/main/java/com/github/fishlikewater/httppierce/handler/RegisterHandler.java:76-96 | On the default port, table by table: a free name is routed, listed and answered with 1 and the HTTP port; a taken one is answered with 0 and its holder closed exactly if it is inactive or not writable. |
| `RegistryReplies.TakenPortMeans` | src/main/java/com/github/fishlikewater/httppierce/handler/RegisterHandler.java:120-128 | A registration on a port that is in the index is answered with 2; the holder's boot leaves the index and stops and its owner is closed exactly if the owner is inactive or writable. |
| `RegistryReplies.FreePortMeans` | src/main/java/com/github/fishlikewater/httppierce/handler/RegisterHandler.java:106-119 | A registration on any other port starts, indexes and lists a boot and is answered with 1 exactly if the port can be bound; otherwise nothing changes and there is no answer. |
| `RegistryReplies.CancelAnswers` | src/main/java/com/github/fishlikewater/httppierce/handler/RegisterHandler.java:48-64 | Every cancel is answered with its own id and data, whatever it found. |
| `RegistryExact.ExactInverse` | src/main/java/com/github/fishlikewater/httppierce/handler/RegisterHandler.java:76-96 | In every cancel-free run of whole handlers, a connected channel's list holds exactly the names routed to it, each once, and routes lead only to connected channels. |
| `RegistryExact.DisconnectIsExact` | src/main/java/com/github/fishlikewater/httppierce/handler/RegisterHandler.java:139-141 | In every cancel-free run of whole handlers, a disconnect removes exactly its channel's routes. |
| `RegistryExact.ListsAreHistory` | src/main/java/com/github/fishlikewater/httppierce/handler/RegisterHandler.java:89-92 | In every run of whole handlers, cancels included, a channel's list holds exactly the names that were routed to it at some time. |
| `RegistryExact.DisconnectHarms` | src/main/java/com/github/fishlikewater/httppierce/handler/RegisterHandler.java:139-141 | In every run of whole handlers, a disconnect takes a route of another channel if and only if that very name was routed to the disconnecting channel earlier in the run. |
| `RegistryExact.WhoTookIt` | src/main/java/com/github/fishlikewater/httppierce/handler/RegisterHandler.java:48-53 | In every run of whole handlers, a live channel that no longer has a name it was once given lost it, after that, to a cancel of the name or to the disconnect of another channel that the name was once routed to. |
| `RegistryExact.HarmNeedsCancel` | src/main/java/com/github/fishlikewater/httppierce/handler/RegisterHandler.java:48-53 | In runs of whole handlers the first cause is always a cancel: in such a run without a cancel of a name, no live channel ever loses its route for it. |
| `RegistryExact.HarmWithoutCancelSince` | src/main/java/com/github/fishlikewater/httppierce/handler/RegisterHandler.java:139-141 | One harm makes the next: a run in which a disconnect takes another channel's route although the name was not cancelled after the disconnecting channel registered it. |
| `RegistryExact.CancelledNameIsLost` | src/main/java/com/github/fishlikewater/httppierce/handler/RegisterHandler.java:48-53 | With a cancel it happens: a live client loses its route when another client, whose stale list still names it, disconnects. |
| `RegistryExact.FirstNamedIs` | src/main/java/com/github/fishlikewater/httppierce/handler/RegisterHandler.java:55-56 | The boot a cancel finds is one of the list with that name, and it finds none exactly if there is none. |
| `RegistryExact.CancelStopsListener` | src/main/java/com/github/fishlikewater/httppierce/handler/RegisterHandler.java:48-62 | In every state, a cancel leaves nothing of the name in the channel's list listening if and only if, when nobody has the name routed, no boot but the first of that name listens, and, when somebody has, none of that name listens at all. |
| `RegistryExact.CancelTakesRoute` | src/main/java/com/github/fishlikewater/httppierce/handler/RegisterHandler.java:50-53 | A cancel takes routes from other channels exactly if it names one of theirs, that one only, and then stops nothing. |
| `RegistryExact.CancelHitsOther` | src/main/java/com/github/fishlikewater/httppierce/handler/RegisterHandler.java:48-62 | It happens: one client uses a name on an own port, another on the default port; the first cancels, the second loses its route and the first goes on listening. |
| `RegistryExact.SecondCancelLeavesListener` | src/main/java/com/github/fishlikewater/httppierce/handler/RegisterHandler.java:54-61 | Register, cancel, register, cancel on an own port leaves the port listening and missing from the index. |
| `RegistryInterleaved.ListsAreHistory` | src/main/java/com/github/fishlikewater/httppierce/handler/RegisterHandler.java:82-92 | In every interleaving of single table operations, a channel's list holds exactly the names the channel has put into ROUTE_MAPPING at some time, but for the one it is just about to add. |
| `RegistryInterleaved.WhoTookIt` | src/main/java/com/github/fishlikewater/httppierce/handler/RegisterHandler.java:48-96 | In every interleaving, a channel that once put a name, is not disconnecting and no longer has it lost it, after that put, to a cancel of the name, to a put of it by another channel, or to the disconnect of another channel that had put it. |
| `RegistryInterleaved.LossNeedsCause` | src/main/java/com/github/fishlikewater/httppierce/handler/RegisterHandler.java:48-96 | In every interleaving, such a loss is preceded by a cancel of the name or by a put that found the name routed. |
| `RegistryInterleaved.ExactUnlessOverwritten` | src/main/java/com/github/fishlikewater/httppierce/handler/RegisterHandler.java:82-96 | In every interleaving in which a name is not cancelled: at every moment every channel has exactly what is routed to it of that name, once, in its list or still to be added or dropped, if and only if no put finds the name routed. |
| `RegistryInterleaved.IdleIsExact` | src/main/java/com/github/fishlikewater/httppierce/handler/RegisterHandler.java:76-96 | In every interleaving, cancels included: the list of a channel whose handler is idle is exactly the inverse of the routes to it, each name once, if and only if no event of the run took a name from it. |
| `RegistryInterleaved.TakesMeans` | src/main/java/com/github/fishlikewater/httppierce/handler/RegisterHandler.java:48-96 | Every event that takes a name from a channel is a cancel of it, a put of it by another channel, or the drop of it in the disconnect of another channel that had put it. |
| `RegistryInterleaved.IdleIsInverse` | src/main/java/com/github/fishlikewater/httppierce/handler/RegisterHandler.java:76-96 | In every interleaving without a cancel and without a put of a routed name, the list of every idle channel is exactly the inverse of the routes to it. |
| `RegistryInterleaved.DropTakesOwn` | src/main/java/com/github/fishlikewater/httppierce/handler/RegisterHandler.java:139-141 | In every interleaving in which a name is not cancelled and no put finds it routed, a disconnect drops it only while it is routed to the disconnecting channel. |
| `RegistryInterleaved.TwoPutsOneRoute` | src/main/java/com/github/fishlikewater/httppierce/handler/RegisterHandler.java:82-92 | Two clients register one name and both look it up before either puts it: without any cancel both are idle again, both were told that they have the name, both lists hold it and it is routed to the second only; the disconnect of the first then takes the route of the second. |
| `RegisterHandlers.RegisterHandler.Authenticate` | src/main/java/com/github/fishlikewater/httppierce/handler/AuthHandler.java:25-37 | A message passes the gate exactly if the channel had authenticated; the right token opens it and is answered with state 1, a wrong one is ignored, anything else is answered with state 0. |
| `RegisterHandlers.RegisterHandler.RegisterOnDefaultPort` | src/main/java/com/github/fishlikewater/httppierce/handler/RegisterHandler.java:76-96 | The handler body over the shared tables is the whole-handler function: the holder of the name is closed if it is inactive or not writable, a free name is routed and listed. The answer has the id of the request, state 0 or 1, and the HTTP port in it when it is 1. |
| `RegisterHandlers.RegisterHandler.RegisterOnNewPort` | src/main/java/com/github/fishlikewater/httppierce/handler/RegisterHandler.java:98-129 | The same; the holder of the port is evicted if it is inactive or writable, and a start that fails leaves every table as it was. The answer has the id and the data of the request: 2 exactly if the port was taken, 1 exactly if a boot was started, and otherwise there is none. |
| `RegisterHandlers.RegisterHandler.StartBoot` | src/main/java/com/github/fishlikewater/httppierce/server/DynamicTcpBoot.java:35-46 | A boot starts exactly if its port can be bound. |
| `RegisterHandlers.RegisterHandler.HandleCancelRegister` | src/main/java/com/github/fishlikewater/httppierce/handler/RegisterHandler.java:48-64 | The search loop stops the first boot of the name, and the message is always echoed with its id and data. |
| `RegisterHandlers.RegisterHandler.ChannelActive` | src/main/java/com/github/fishlikewater/httppierce/handler/RegisterHandler.java:132-136 | A channel to which no route leads starts with a list that is exactly the inverse of its routes, and the lists of all other channels stay as they are. |
| `RegisterHandlers.RegisterHandler.ChannelInactive` | src/main/java/com/github/fishlikewater/httppierce/handler/RegisterHandler.java:139-148 | The two loops together do what the disconnect does at once. |
| `CodecProofs.RoundTrip` | src/main/java/com/github/fishlikewater/httppierce/codec/MessageCodec.java:34-130 | Decoding an encoded data message, with any bytes behind it, gives the normalised message and stops exactly at its end if and only if its method and its version take at most 127 bytes; otherwise no result is that message. |
| `CodecProofs.LongTextIsLost` | src/main/java/com/github/fishlikewater/httppierce/codec/MessageCodec.java:82-90 | For every text longer than 127 bytes the one-byte length read back signed never gives the text: negative, zero or too short. |
| `CodecProofs.SysRoundTrip` | src/main/java/com/github/fishlikewater/httppierce/codec/MessageCodec.java:37-41 | A system message is read back whole. |
| `CodecProofs.FrameDecodes` | src/main/java/com/github/fishlikewater/httppierce/codec/MessageCodec.java:103-130 | A frame alone is decoded to its normalised message with nothing left over. |
| `CodecProofs.FrameLength` | src/main/java/com/github/fishlikewater/httppierce/codec/MessageCodec.java:35-58 | The back-patched length is the length of what follows it. |
| `CodecProofs.FrameLayout` | src/main/java/com/github/fishlikewater/httppierce/codec/MessageCodec.java:34-59 | The bytes of a data message's frame: four of length, kind 1, eight of id, the command's code, and six fields in this order, each behind four bytes of length or, the method and the version, behind one; all numbers with the highest byte first. |
| `CodecProofs.SysLayout` | src/main/java/com/github/fishlikewater/httppierce/codec/MessageCodec.java:37-41 | The bytes of a system message's frame: four of length, kind 0, the serialised message. |
| `CodecProofs.MissingIsEmpty` | src/main/java/com/github/fishlikewater/httppierce/codec/MessageCodec.java:61-100 | A missing or blank text, missing heads and a missing body are written as no bytes behind a zero length; everything else as the platform writes it. |
| `CodecProofs.EncodesWhen` | src/main/java/com/github/fishlikewater/httppierce/codec/MessageCodec.java:34-59 | Encoding ends in a null pointer exception exactly if a data message has no id or no command, is out of bounds exactly beyond the largest int, and gives the frame otherwise. |
| `CodecProofs.FieldErrors` | src/main/java/com/github/fishlikewater/httppierce/codec/MessageCodec.java:156-202 | A text field with a negative length is an illegal argument, one that is longer than what is left is out of bounds, one of length zero is null, and any other is what the charset makes of its bytes. |
| `CodecProofs.UnknownKinds` | src/main/java/com/github/fishlikewater/httppierce/codec/MessageCodec.java:103-112 | A frame of an unknown kind is read up to its kind and gives no message; one cut off before its kind is out of bounds. |
| `CodecProofs.TextsRoundTrip` | src/main/java/com/github/fishlikewater/httppierce/codec/MessageCodec.java:156-202 | The four texts come back normalised exactly if the two short ones fit their byte. |
| `Codec.MessageCodec.EncodeMessage` | src/main/java/com/github/fishlikewater/httppierce/codec/MessageCodec.java:34-59 | Writing with a reserved and back-patched length produces the frame of the format; a missing id or command, or a frame beyond the largest int, throws. |
| `Codec.MessageCodec.WriteInt` | src/main/java/com/github/fishlikewater/httppierce/codec/MessageCodec.java:92-100 | A text behind a four-byte length; blank or null text is a zero length. |
| `Codec.MessageCodec.WriteByte` | src/main/java/com/github/fishlikewater/httppierce/codec/MessageCodec.java:82-90 | A text behind the low byte of its length; blank or null text is a zero length. |
| `Codec.MessageCodec.WriteHeads` | src/main/java/com/github/fishlikewater/httppierce/codec/MessageCodec.java:71-80 | The heads behind their length; null heads are a zero length. |
| `Codec.MessageCodec.WriteData` | src/main/java/com/github/fishlikewater/httppierce/codec/MessageCodec.java:61-69 | The body behind its length; a null body is a zero length. |
| `Codec.MessageCodec.DecodeMessage` | src/main/java/com/github/fishlikewater/httppierce/codec/MessageCodec.java:103-130 | Reading with a cursor gives the message of the format or the error, and leaves the cursor where the format says. |
| `Codec.MessageCodec.ReadDataMessage` | src/main/java/com/github/fishlikewater/httppierce/codec/MessageCodec.java:114-127 | Filling a new message field by field, including every early end by exception. |
| `Codec.MessageCodec.ReadTextField` | src/main/java/com/github/fishlikewater/httppierce/codec/MessageCodec.java:156-202 | A zero length leaves the text null, a negative one is an illegal argument, one beyond the buffer is out of bounds. |
| `Codec.MessageCodec.ReadHeadsField` | src/main/java/com/github/fishlikewater/httppierce/codec/MessageCodec.java:144-154 | A zero length leaves the heads the empty map. |
| `Codec.MessageCodec.ReadBodyField` | src/main/java/com/github/fishlikewater/httppierce/codec/MessageCodec.java:132-141 | A zero length leaves the body the empty array. |
| `Codec.GetInstance` | src/main/java/com/github/fishlikewater/httppierce/codec/Command.java:39-46 | The search finds the one command with the code, and none if there is none. |
| `Wire.SignedByteWord` | src/main/java/com/github/fishlikewater/httppierce/codec/MessageCodec.java:87-88 | What a signed byte reader makes of a length written as one byte, for all lengths. |
| `Wire.SignedWord` | src/main/java/com/github/fishlikewater/httppierce/codec/MessageCodec.java:97 | A number in the range of a signed big-endian word reads back as itself. |
| `Framing.AnyChunking` | src/main/java/com/github/fishlikewater/httppierce/server/ServerHandlerInitializer.java:50 | However a stream is cut into reads, overlong frames included, the frames handed on and those still to come are the frames of the whole stream, each once and in order. |
| `Framing.QuietChunking` | src/main/java/com/github/fishlikewater/httppierce/client/ClientHandlerInitializer.java:39 | Without overlong frames, any cutting gives the same frames and the same remainder as one read. |
| `Framing.CutsFirst` | src/main/java/com/github/fishlikewater/httppierce/server/ServerHandlerInitializer.java:50 | A block whose length field counts the rest of it is cut off whole: handed on up to the maximal length, reported and skipped beyond it, and what follows is not affected. |
| `Framing.FailsFast` | src/main/java/com/github/fishlikewater/httppierce/server/ServerHandlerInitializer.java:50 | An overlong frame is reported as soon as its length has been read, and the missing rest of it is skipped when it comes. |
| `TunnelStream.StreamRoundTrip` | src/main/java/com/github/fishlikewater/httppierce/server/ServerHandlerInitializer.java:50-51 | Any list of encodable messages whose frames fit the maximum, cut into reads anywhere, arrives as exactly the normalised messages in order, with no byte left in either decoder. |
| `TunnelStream.StreamFrames` | src/main/java/com/github/fishlikewater/httppierce/client/ClientHandlerInitializer.java:39-40 | The concatenated encodings fall apart into exactly their frames. |
| `SessionProofs.DrainedViewsAgree` | src/main/java/com/github/fishlikewater/httppierce/handler/ClientMessageHandler.java:108-137 | While a connection is open, whatever retries are left from earlier ones, for every name it alone uses: the server routes it here exactly if it was registered since its last cancel, the drained stateMap has it exactly then, and holds state 1 exactly if it was registered once. |
| `SessionProofs.BelievedIsRouted` | src/main/java/com/github/fishlikewater/httppierce/handler/ClientMessageHandler.java:114-123 | Open or closed, a drained state 1 means that the server routes the name to this connection. |
| `SessionProofs.DisconnectUnroutes` | src/main/java/com/github/fishlikewater/httppierce/handler/RegisterHandler.java:139-141 | Once the server has processed the disconnect of a closed connection, none of the names it alone uses is routed to it, at any later time. |
| `SessionProofs.RoutedIsKnown` | src/main/java/com/github/fishlikewater/httppierce/kit/ClientKit.java:60-95 | If no registration of a name is sent while one of its cancels is on its way, every name the server routes here is in CLIENT_FORWARD. |
| `SessionProofs.HastyIsFatal` | src/main/java/com/github/fishlikewater/httppierce/kit/ClientKit.java:60-70 | After any such registration, once everything is handled and read, the server routes the name to a client that no longer has it in CLIENT_FORWARD. |
| `SessionProofs.HastyHappens` | src/main/java/com/github/fishlikewater/httppierce/kit/ClientKit.java:72-95 | Such runs exist from every fresh start and for every own name, without any retry: add, cancel twice, and add again after the first cancel was answered. |
| `SessionProofs.HandleCases` | src/main/java/com/github/fishlikewater/httppierce/handler/RegisterHandler.java:48-96 | What each handler does to the routes, seen from the connection that sent the message. |
| `SessionProofs.HandleReplies` | src/main/java/com/github/fishlikewater/httppierce/handler/RegisterHandler.java:48-128 | Each handler answers at most once, about the name and with the command it was given. |
| `SessionProofs.HandleAnswers` | src/main/java/com/github/fishlikewater/httppierce/handler/RegisterHandler.java:48-128 | Each handler's answer, literally: the id, the command and the data of the message, with the HTTP port in it when a default-port registration succeeds; state 2 exactly if the own port was taken and 1 exactly if a boot was started. So the caller that waits under the id is the one that is completed. |
| `ClientSessions.ClientSession.ChannelRead` | src/main/java/com/github/fishlikewater/httppierce/handler/ClientMessageHandler.java:51-60 | A message takes effect on both tables, an accepted AUTH registers every mapping once, a failed registration is scheduled again; then its promise leaves PROMISE_MAP and a caller that waits for its id is completed. |
| `ClientSessions.ClientSession.HandleAuth` | src/main/java/com/github/fishlikewater/httppierce/handler/ClientMessageHandler.java:139-147 | State 1 registers every mapping of the table exactly once; anything else registers nothing. |
| `ClientSessions.ClientSession.HandleRegister` | src/main/java/com/github/fishlikewater/httppierce/handler/ClientMessageHandler.java:114-137 | Only state 1 counts as registered; everything else is state 0 and schedules a retry. |
| `ClientSessions.ClientSession.HandleCancelRegister` | src/main/java/com/github/fishlikewater/httppierce/handler/ClientMessageHandler.java:108-112 | The name leaves stateMap and CLIENT_FORWARD. |
| `ClientSessions.ClientSession.HandleWaitingRequest` | src/main/java/com/github/fishlikewater/httppierce/handler/ClientMessageHandler.java:77-82 | The promise of the id, if any, is removed and completed. |
| `ClientSessions.ClientSession.RegisterService` | src/main/java/com/github/fishlikewater/httppierce/kit/ClientKit.java:44-58 | One registration is written, with a promise only if the caller waits. |
| `ClientSessions.ClientSession.ReRegister` | src/main/java/com/github/fishlikewater/httppierce/kit/ClientKit.java:60-70 | The search loop registers exactly the mapping of the name, if there is one. |
| `ClientSessions.ClientSession.AddMapping` | src/main/java/com/github/fishlikewater/httppierce/kit/ClientKit.java:72-79 | A new name is stored and registered; a known one changes nothing. |
| `ClientSessions.ClientSession.CancelRegister` | src/main/java/com/github/fishlikewater/httppierce/kit/ClientKit.java:81-95 | The search loop sends one cancel exactly if the name has a mapping. |
| `Waiting.CompletedByOwnReply` | src/main/java/com/github/fishlikewater/httppierce/handler/ClientMessageHandler.java:51-82 | In every interleaving, a promise is completed only by a message with its own id and only after that message's effect was applied. |
| `Waiting.NoLostWakeUp` | src/main/java/com/github/fishlikewater/httppierce/kit/ClientKit.java:102-107 | A caller that still waits can wake exactly if the loop is done with a message of its id, and until the loop takes its promise out the promise is there to find. |
| `Waiting.AppliedMeans` | src/main/java/com/github/fishlikewater/httppierce/handler/ClientMessageHandler.java:51-60 | The effect of a message counts as applied exactly if some event of the run applied it. |
| `Waiting.AnswerIsHeard` | src/main/java/com/github/fishlikewater/httppierce/handler/ClientMessageHandler.java:51-82 | In every interleaving: if the server answered the message of a caller that still waits, the answer is in flight, or the loop holds it, or the caller can wake. |
| `Waiting.NothingIsLost` | src/main/java/com/github/fishlikewater/httppierce/kit/ClientKit.java:102-107 | In every interleaving: the written message of a caller that still waits is on its way to the server, or was left unanswered by it, or its answer is in flight or with the loop, or the caller can wake. |
| `Waiting.AnswerWakes` | src/main/java/com/github/fishlikewater/httppierce/handler/ClientMessageHandler.java:51-82 | From any state of any run, the event loop alone brings every waiting caller whose message was answered to where it can wake. |
| `Waiting.PutBeforeWritten` | src/main/java/com/github/fishlikewater/httppierce/kit/ClientKit.java:103-105 | While the message of a waiting caller, or its reply, is on its way, its promise is in PROMISE_MAP. |
| `Waiting.CompletedMeans` | src/main/java/com/github/fishlikewater/httppierce/kit/ClientKit.java:106-108 | A caller that returned as completed was completed. |
| `Waiting.WhatRemains` | src/main/java/com/github/fishlikewater/httppierce/kit/ClientKit.java:106-110 | After a return that was not interrupted nothing of the wait is left in PROMISE_MAP, ever; an interrupted one stays until a reply removes it, and only then goes. |
| `Waiting.InterruptedRemains` | src/main/java/com/github/fishlikewater/httppierce/kit/ClientKit.java:102-110 | For every id, a caller that is interrupted while it waits has returned and its promise is still in PROMISE_MAP, whether its message was written or not. |
| `Waiting.InterruptedForGood` | src/main/java/com/github/fishlikewater/httppierce/kit/ClientKit.java:102-110 | If its write had failed, the promise stays whatever happens later. |
| `Waiting.EveryRun` | src/main/java/com/github/fishlikewater/httppierce/kit/ClientKit.java:102-111 | The invariant of the wait holds for every id after every run. |
| `Routing.RoutesToName` | src/main/java/com/github/fishlikewater/httppierce/handler/HttpServerHandler.java:44-54 | A path that starts with a slash and an alphanumeric name goes to that name if and only if the path ends there or a slash follows. |
| `Routing.RoutesToSegment` | src/main/java/com/github/fishlikewater/httppierce/handler/HttpServerHandler.java:52-53 | A path that starts with a slash goes to its first segment, if that is not empty. |
| `Routing.RouteMeans` | src/main/java/com/github/fishlikewater/httppierce/handler/HttpServerHandler.java:45-54 | For every path with a slash and every header: blank or a single slash is refused; otherwise a header that is not blank wins, whatever the path; otherwise what stands between the first slash and the next is the service, and nothing but slashes there is an exception. |
| `Routing.RouteWithoutSlash` | src/main/java/com/github/fishlikewater/httppierce/handler/HttpServerHandler.java:45-54 | A path without a slash is refused if blank, goes to a header that is not blank, and otherwise ends in an exception. |
| `Routing.ThrowsWhen` | src/main/java/com/github/fishlikewater/httppierce/handler/HttpServerHandler.java:45-54 | The extraction ends in an exception exactly if the path is neither blank nor a slash, no header names a service, and nothing but slashes follows its first slash. |
| `Routing.NoOverlap` | src/main/java/com/github/fishlikewater/httppierce/handler/ClientMessageHandler.java:151-154 | Occurrences of a slash and a name never overlap. |
| `Routing.RemovesCovered` | src/main/java/com/github/fishlikewater/httppierce/handler/ClientMessageHandler.java:151-154 | The client's replacement drops exactly the characters that belong to some occurrence. |
| `Routing.RemovesLength` | src/main/java/com/github/fishlikewater/httppierce/handler/ClientMessageHandler.java:151-154 | Each occurrence costs its own length and nothing else is lost. |
| `Routing.RouteAndRemove` | src/main/java/com/github/fishlikewater/httppierce/handler/HttpServerHandler.java:52-56 | For every path routed to a name, the backend is asked for the rest without its occurrences of the name, and for the rest itself if and only if it has none. |
| `Routing.RemovesInside` | src/main/java/com/github/fishlikewater/httppierce/handler/ClientMessageHandler.java:151-154 | An occurrence anywhere in a path is removed by itself: what stands before it and what stands after it are treated as if they stood alone. |
| `Routing.RemovesTooMuch` | src/main/java/com/github/fishlikewater/httppierce/handler/ClientMessageHandler.java:152-154 | For every service: wherever in the backend's own path a later segment begins with the name, the slash and the name are gone. |
| `Upgrade.OneShot` | src/main/java/com/github/fishlikewater/httppierce/handler/ClientResponseHandler.java:37-46 | Over any number of responses nothing throws, the flag is set exactly while the HTTP encoder and aggregator of an upgrade connection are in place, they go with the first response, and other connections keep their pipeline. |
| `Upgrade.BackendChannel.OnConnected` | src/main/java/com/github/fishlikewater/httppierce/handler/ClientMessageHandler.java:161-171 | The pipeline a completed connect sets up. |
| `Upgrade.BackendChannel.OnResponseWritten` | src/main/java/com/github/fishlikewater/httppierce/handler/ClientResponseHandler.java:37-46 | What one write completion does to flag and pipeline, and when it throws. |

## Left out

- Netty, sockets, TLS, HTTP parsing, event loops and timers: channels are queues with an open or closed flag, delays are events that may happen at any time.
- Kryo, UTF-8, Snowflake ids, the blank test of the utility library: parameters or assumptions, as above.
- Persistence, the REST interface, Spring wiring, SSL, logging, heartbeats, signal handling: no part of the four protocols.
- ForwardingHandlers.Handlers.HttpRead: the copying of headers, method, version and url into the message is not modelled, because the forwarding properties only concern id, service and body; the codec covers those fields.
- ForwardingHandlers.Handlers.HttpServerRead: the same, and the routes are a parameter, because the forwarding model and the registry model have tables of their own.
- ForwardingHandlers.Handlers.ConnectSucceeds: the pipeline set up for the new backend is modelled in Upgrade, apart from the tables.
- RegisterHandlers.RegisterHandler.RegisterOnNewPort: boots are entries of a map from identities to port, name, owner, protocol and listening flag, not heap objects, so aliasing of boot objects is expressed by equal identities.
- RegisterHandlers.RegisterHandler.StartBoot: a thread that is interrupted while it waits for the bind is not modelled; the program would log that and index a boot whose bind may still fail.
- Codec.MessageCodec.EncodeMessage: the buffer is the empty one that the framework allocates, so `isWritable` always holds; a write beyond the largest int is reported at the end and not at the write that exceeds it, which discards the same buffer.
- ClientSessions.ClientSession.SyncWrite: waiting itself is modelled in Waiting, as steps of several callers; the class holds what one thread does between waits.
- SessionProofs.DrainedViewsAgree: the server's handlers are whole steps here; another connection's operations may come between them but not change this connection's names, which is what "used by no other connection" means.
- Framing and the loop that calls `decode` until nothing is left are Netty's and stand as specification functions, not as loops.
- RegisterHandlers.RegisterHandler.Authenticate: the gate gives its answers generated ids, for which nobody waits; the model writes 0.
- Clients that do not run this program, and a peer that sends more than one reply to a message.
- Own-port services in the drained views: their state depends on other clients' evictions, so only default-port names are compared.
