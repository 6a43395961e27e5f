/** The forwarding protocol between public channels, the tunnel and backend
    channels, as a state machine.  A step is one run of one handler body; a run is
    any sequence of events, and an event that cannot happen in a state changes
    nothing.  The state has three parts: the tables the handlers use, the queues
    between the two processes, and a record of what happened (`owner`, `chunks`,
    `sent`, `delivered`, `openings`, `inserted`, `raced`, `lost`).  No step looks at
    the record, except to give a message the next number of its id or its backend; and
    a new id is one that is not on record, since every id is generated once. */
module Forwarding {
  import opened Basics

  type Id = nat
  type Public = nat
  type Conn = nat
  type Client = nat
  type Backend = nat

  /** What the client knows about a service: where it listens and whether it
      speaks plain TCP. */
  datatype Service = Service(address: string, port: nat, tcp: bool)

  /** A public channel was accepted on the shared HTTP port, on a port opened for
      one HTTP service or on a port opened for one TCP service. */
  datatype Kind =
    | RoutePort
    | HttpPort(conn: Conn, service: string)
    | TcpPort(conn: Conn, service: string)

  /** The data messages of the tunnel.  `no` numbers the requests of one id and the
      reads of one backend, and `from` names the backend a response was read from;
      the program has neither, and no handler looks at them. */
  datatype Message =
    | Request(id: Id, body: Bytes, service: Option<string>, http: bool, no: nat)
    | Response(id: Id, body: Bytes, from: Backend, no: nat)

  /** A connect the client has started and that has not completed. */
  datatype Connect = Connect(request: Message, conn: Conn, target: Service)

  datatype Link = Link(id: Id, conn: Conn, target: Service)

  /** Who an id was generated for, and where its requests go. */
  datatype Owner = Owner(pub: Public, conn: Conn, service: string)

  /** What the listener of an HTTP request's write has captured: the id that was
      generated and the channel the request was read from. */
  datatype Listener = Listener(id: Id, pub: Public)

  /** What the handler of an upgraded channel has captured: the id of the request that
      asked for the upgrade and the tunnel it was sent to. */
  datatype WebSocket = WebSocket(id: Id, conn: Conn)

  /** The server process: its `REQUEST_MAPPING` and the attributes of its public
      channels. */
  datatype Server = Server(
    kind: map<Public, Kind>,
    openPublics: set<Public>,
    tcpFlag: map<Public, Id>,
    upgraded: map<Public, WebSocket>,
    requestMapping: map<Id, Public>)

  /** The tunnels: requests waiting for their write to complete, the listener of each
      of those writes in the same order, and the requests and responses on their way. */
  datatype Net = Net(
    clientOf: map<Conn, Client>,
    openConns: set<Conn>,
    outbound: map<Conn, seq<Message>>,
    listeners: map<Conn, seq<Option<Listener>>>,
    down: map<Conn, seq<Message>>,
    up: map<Conn, seq<Message>>)

  /** The client processes: `CLIENT_FORWARD` of each tunnel, the `REQUEST_MAPPING` of
      each process and the backend channels. */
  datatype Clients = Clients(
    forward: map<Conn, map<string, Service>>,
    clientMapping: map<(Client, Id), Backend>,
    connects: seq<Connect>,
    links: map<Backend, Link>,
    openBackends: set<Backend>)

  /** What happened so far. */
  datatype Record = Record(
    inputs: map<Backend, seq<Message>>,
    heard: map<Backend, seq<Bytes>>,
    owner: map<Id, Owner>,
    chunks: map<Id, seq<Bytes>>,
    sent: map<Id, seq<Message>>,
    delivered: map<Public, seq<Message>>,
    openings: map<Id, seq<Backend>>,
    inserted: set<Id>,
    raced: set<Id>,
    lost: set<Id>)

  datatype State = State(server: Server, net: Net, client: Clients, record: Record)

  datatype Event =
    | TunnelOpens(c: Conn, client: Client, services: map<string, Service>)
    | TunnelCloses(c: Conn)
    | ServiceAdded(c: Conn, name: string, target: Service)
    | ServiceRemoved(c: Conn, name: string)
    | PublicOpens(p: Public, kind: Kind)
    | PublicCloses(p: Public)
    | HttpRequest(p: Public, c: Conn, service: string, newId: Id, body: Bytes, upgrade: bool)
    | TcpChunk(p: Public, newId: Id, body: Bytes)
    | WebSocketChunk(p: Public, body: Bytes)
    | WriteCompletes(c: Conn, ok: bool)
    | RequestArrives(c: Conn, ok: bool)
    | ConnectCompletes(k: nat, ok: bool, b: Backend, written: bool)
    | BackendReads(b: Backend, body: Bytes)
    | BackendCloses(b: Backend)
    | BackendUnmapped(b: Backend)
    | ResponseArrives(c: Conn)

  const INIT := State(Server(map[], {}, map[], map[], map[]), Net(map[], {}, map[], map[], map[], map[]),
                      Clients(map[], map[], [], map[], {}),
                      Record(map[], map[], map[], map[], map[], map[], map[], {}, {}, {}))

  // ---------------------------------------------------------------- channels

  function OnTunnelOpens(s: State, c: Conn, client: Client, services: map<string, Service>): State {
    s.(net := s.net.(clientOf := s.net.clientOf[c := client], openConns := s.net.openConns + {c}),
       client := s.client.(forward := s.client.forward[c := services]))
  }

  /** What a closed tunnel still held is gone. */
  function OnTunnelCloses(s: State, c: Conn): State {
    s.(net := s.net.(openConns := s.net.openConns - {c}, outbound := Clear(s.net.outbound, c),
                     listeners := Clear(s.net.listeners, c), down := Clear(s.net.down, c), up := Clear(s.net.up, c)))
  }

  function OnPublicOpens(s: State, p: Public, kind: Kind): State {
    s.(server := s.server.(kind := s.server.kind[p := kind], openPublics := s.server.openPublics + {p}))
  }

  // ---------------------------------------------------------------- server

  /** Hand a request to the tunnel.  A write to a closed channel fails. */
  function Write(s: State, c: Conn, m: Message, l: Option<Listener>): State {
    var sends := c in s.net.openConns;
    s.(net := s.net.(outbound := if sends then Push(s.net.outbound, c, m) else s.net.outbound,
                     listeners := if sends then Push(s.net.listeners, c, l) else s.net.listeners),
       record := s.record.(lost := if sends then s.record.lost else s.record.lost + {m.id}))
  }

  function Log(s: State, id: Id, body: Bytes): State {
    s.(record := s.record.(chunks := Push(s.record.chunks, id, body)))
  }

  function OnHttpRequest(s: State, p: Public, c: Conn, service: string, id: Id, body: Bytes, upgrade: bool): State
    requires id !in s.record.owner
  {
    var a := s.(record := s.record.(owner := s.record.owner[id := Owner(p, c, service)]),
                server := s.server.(tcpFlag := s.server.tcpFlag[p := id],
                                    upgraded := if upgrade then s.server.upgraded[p := WebSocket(id, c)]
                                                else s.server.upgraded));
    Write(Log(a, id, body), c, Request(id, body, Some(service), true, |At(s.record.chunks, id)|), Some(Listener(id, p)))
  }

  /** The id of a TCP channel is generated on its first chunk and kept. */
  function TcpId(s: State, p: Public, newId: Id): Id {
    if p in s.server.tcpFlag then s.server.tcpFlag[p] else newId
  }

  function OnTcpChunk(s: State, p: Public, newId: Id, body: Bytes): State
    requires p in s.server.kind && s.server.kind[p].TcpPort?
    requires p in s.server.tcpFlag || newId !in s.record.owner
  {
    var id, k := TcpId(s, p, newId), s.server.kind[p];
    var a := s.(server := s.server.(tcpFlag := s.server.tcpFlag[p := id],
                                    requestMapping := s.server.requestMapping[id := p]),
                record := s.record.(owner := if p in s.server.tcpFlag then s.record.owner
                                             else s.record.owner[id := Owner(p, k.conn, k.service)],
                                    inserted := s.record.inserted + {id}));
    Write(Log(a, id, body), k.conn, Request(id, body, Some(k.service), false, |At(s.record.chunks, id)|), None)
  }

  function OnWebSocketChunk(s: State, w: WebSocket, body: Bytes): State {
    Write(Log(s, w.id, body), w.conn, Request(w.id, body, None, false, |At(s.record.chunks, w.id)|), None)
  }

  /** The id whose mapping a closing channel removes: the handler of an upgraded channel
      has captured it, the others look at the channel's attribute. */
  function ClosingId(s: Server, p: Public): Option<Id> {
    if p in s.upgraded then Some(s.upgraded[p].id) else if p in s.tcpFlag then Some(s.tcpFlag[p]) else None
  }

  function OnPublicCloses(s: State, p: Public): State {
    var mapping, closing := s.server.requestMapping, ClosingId(s.server, p);
    s.(server := s.server.(openPublics := s.server.openPublics - {p},
                           requestMapping :=
                             if closing.Some? then mapping - {closing.value} else mapping))
  }

  /** A write completes: the request is on its way and the listener, if there is one,
      inserts what it has captured, before the peer can answer. */
  function OnWriteSucceeds(s: State, c: Conn): State
    requires At(s.net.outbound, c) != [] && At(s.net.listeners, c) != []
  {
    var m, l := At(s.net.outbound, c)[0], At(s.net.listeners, c)[0];
    s.(net := s.net.(outbound := Pop(s.net.outbound, c), listeners := Pop(s.net.listeners, c),
                     down := Push(s.net.down, c, m)),
       server := s.server.(requestMapping := if l.Some? then s.server.requestMapping[l.value.id := l.value.pub]
                                             else s.server.requestMapping),
       record := s.record.(inserted := if l.Some? then s.record.inserted + {l.value.id} else s.record.inserted))
  }

  /** A failed write loses its request. */
  function OnWriteFails(s: State, c: Conn): State
    requires At(s.net.outbound, c) != [] && At(s.net.listeners, c) != []
  {
    s.(net := s.net.(outbound := Pop(s.net.outbound, c), listeners := Pop(s.net.listeners, c)),
       record := s.record.(lost := s.record.lost + {At(s.net.outbound, c)[0].id}))
  }

  /** A response is written to the mapped public channel, if there is one. */
  function OnResponseArrives(s: State, c: Conn): State
    requires At(s.net.up, c) != []
  {
    var m := At(s.net.up, c)[0];
    s.(net := s.net.(up := Pop(s.net.up, c)),
       record := s.record.(delivered :=
         if m.id in s.server.requestMapping && s.server.requestMapping[m.id] in s.server.openPublics
         then Push(s.record.delivered, s.server.requestMapping[m.id], m) else s.record.delivered))
  }

  // ---------------------------------------------------------------- client

  predicate IsConnecting(connects: seq<Connect>, id: Id) {
    exists k :: 0 <= k < |connects| && connects[k].request.id == id
  }

  /** A request for an id with a backend is written to it. */
  function OnRequestForBackend(s: State, c: Conn, b: Backend, ok: bool): State
    requires At(s.net.down, c) != []
  {
    var m, written := At(s.net.down, c)[0], ok && b in s.client.openBackends;
    s.(net := s.net.(down := Pop(s.net.down, c)),
       record := s.record.(inputs := if written then Push(s.record.inputs, b, m) else s.record.inputs,
                           lost := if written then s.record.lost else s.record.lost + {m.id}))
  }

  /** The connect that the next request of a tunnel starts. */
  function ConnectFor(s: State, c: Conn): Connect
    requires At(s.net.down, c) != [] && Opens(s, c, At(s.net.down, c)[0])
  {
    var m := At(s.net.down, c)[0];
    Connect(m, c, s.client.forward[c][m.service.value])
  }

  /** Any other request must name a known service, and opens a connection to it. */
  function OnRequestForService(s: State, c: Conn): State
    requires At(s.net.down, c) != [] && Opens(s, c, At(s.net.down, c)[0])
  {
    var m := At(s.net.down, c)[0];
    s.(net := s.net.(down := Pop(s.net.down, c)),
       client := s.client.(connects := s.client.connects + [ConnectFor(s, c)]),
       record := s.record.(raced := if IsConnecting(s.client.connects, m.id) then s.record.raced + {m.id}
                                    else s.record.raced))
  }

  /** An unknown or missing service, or a plain chunk for an HTTP service, ends in an
      exception. */
  function OnRequestDropped(s: State, c: Conn): State
    requires At(s.net.down, c) != []
  {
    s.(net := s.net.(down := Pop(s.net.down, c)),
       record := s.record.(lost := s.record.lost + {At(s.net.down, c)[0].id}))
  }

  predicate IsMapped(s: State, c: Conn)
    requires At(s.net.down, c) != []
  {
    c in s.net.clientOf && (s.net.clientOf[c], At(s.net.down, c)[0].id) in s.client.clientMapping
  }

  /** The next request of a tunnel starts a connect while another one of its id is
      pending. */
  predicate Races(s: State, c: Conn)
    requires At(s.net.down, c) != []
  {
    var m := At(s.net.down, c)[0];
    !IsMapped(s, c) && Opens(s, c, m) && IsConnecting(s.client.connects, m.id)
  }

  /** The next request of a tunnel reaches no backend. */
  predicate Drops(s: State, c: Conn, ok: bool)
    requires At(s.net.down, c) != []
  {
    var m := At(s.net.down, c)[0];
    if IsMapped(s, c) then !ok || s.client.clientMapping[(s.net.clientOf[c], m.id)] !in s.client.openBackends
    else !Opens(s, c, m)
  }

  function OnRequestArrives(s: State, c: Conn, ok: bool): (t: State)
    requires c in s.net.clientOf && At(s.net.down, c) != []
    ensures t.server == s.server && t.net == s.net.(down := Pop(s.net.down, c))
    ensures t.record.owner == s.record.owner && t.record.heard == s.record.heard && t.record.chunks == s.record.chunks
    ensures t.record.raced == s.record.raced + (if Races(s, c) then {At(s.net.down, c)[0].id} else {})
    ensures t.record.lost == s.record.lost + (if Drops(s, c, ok) then {At(s.net.down, c)[0].id} else {})
    ensures t.client == if IsMapped(s, c) || !Opens(s, c, At(s.net.down, c)[0]) then s.client
      else s.client.(connects := s.client.connects + [ConnectFor(s, c)])
  {
    var key := (s.net.clientOf[c], At(s.net.down, c)[0].id);
    if key in s.client.clientMapping then OnRequestForBackend(s, c, s.client.clientMapping[key], ok)
    else if Opens(s, c, At(s.net.down, c)[0]) then OnRequestForService(s, c)
    else OnRequestDropped(s, c)
  }

  predicate Opens(s: State, c: Conn, m: Message) {
    && m.Request? && m.service.Some? && c in s.client.forward && m.service.value in s.client.forward[c]
    && (s.client.forward[c][m.service.value].tcp || m.http)
  }

  /** A connect succeeds: the backend is mapped under the id, and the request that
      started the connect is written to it. */
  function OnConnectSucceeds(s: State, k: nat, b: Backend, written: bool): State
    requires k < |s.client.connects| && s.client.connects[k].conn in s.net.clientOf && b !in s.client.links
  {
    var n := s.client.connects[k];
    var id := n.request.id;
    s.(client := s.client.(connects := s.client.connects[..k] + s.client.connects[k + 1..],
                           links := s.client.links[b := Link(id, n.conn, n.target)],
                           openBackends := s.client.openBackends + {b},
                           clientMapping := s.client.clientMapping[(s.net.clientOf[n.conn], id) := b]),
       record := s.record.(openings := Push(s.record.openings, id, b),
                           inputs := if written then Push(s.record.inputs, b, n.request) else s.record.inputs,
                           lost := if written then s.record.lost else s.record.lost + {id}))
  }

  function OnConnectFails(s: State, k: nat): State
    requires k < |s.client.connects|
  {
    s.(client := s.client.(connects := s.client.connects[..k] + s.client.connects[k + 1..]),
       record := s.record.(lost := s.record.lost + {s.client.connects[k].request.id}))
  }

  /** What a backend sends is tagged with its id and handed to the tunnel. */
  function OnBackendReads(s: State, b: Backend, body: Bytes): State
    requires b in s.client.links
  {
    var l := s.client.links[b];
    var m, sends := Response(l.id, body, b, |At(s.record.heard, b)|), l.conn in s.net.openConns;
    s.(record := s.record.(heard := Push(s.record.heard, b, body),
                           sent := if sends then Push(s.record.sent, l.id, m) else s.record.sent),
       net := s.net.(up := if sends then Push(s.net.up, l.conn, m) else s.net.up))
  }

  function OnBackendUnmapped(s: State, b: Backend): State
    requires b in s.client.links && s.client.links[b].conn in s.net.clientOf
  {
    var key := (s.net.clientOf[s.client.links[b].conn], s.client.links[b].id);
    s.(client := s.client.(clientMapping := s.client.clientMapping - {key}))
  }

  // ---------------------------------------------------------------- runs

  predicate Enabled(s: State, e: Event) {
    match e
    case TunnelOpens(c, _, _) => c !in s.net.clientOf
    case TunnelCloses(c) => c in s.net.openConns
    case ServiceAdded(c, _, _) => c in s.net.openConns && c in s.client.forward
    case ServiceRemoved(c, _) => c in s.net.openConns && c in s.client.forward
    case PublicOpens(p, kind) => p !in s.server.kind && (kind.RoutePort? || kind.conn in s.net.clientOf)
    case PublicCloses(p) => p in s.server.openPublics
    case HttpRequest(p, c, service, id, _, _) =>
      && p in s.server.openPublics && p in s.server.kind && p !in s.server.upgraded
      && c in s.net.clientOf && id !in s.record.owner
      && (s.server.kind[p].RoutePort? || s.server.kind[p] == HttpPort(c, service))
    case TcpChunk(p, newId, _) =>
      && p in s.server.openPublics && p in s.server.kind && s.server.kind[p].TcpPort?
      && (p in s.server.tcpFlag || newId !in s.record.owner)
    case WebSocketChunk(p, _) => p in s.server.openPublics && p in s.server.upgraded
    case WriteCompletes(c, _) => c in s.net.openConns && At(s.net.outbound, c) != [] && At(s.net.listeners, c) != []
    case RequestArrives(c, _) => c in s.net.openConns && c in s.net.clientOf && At(s.net.down, c) != []
    case ConnectCompletes(k, _, b, _) =>
      k < |s.client.connects| && s.client.connects[k].conn in s.net.clientOf && b !in s.client.links
    case BackendReads(b, _) => b in s.client.openBackends && b in s.client.links
    case BackendCloses(b) => b in s.client.openBackends
    case BackendUnmapped(b) => b in s.client.links && s.client.links[b].conn in s.net.clientOf
    case ResponseArrives(c) => c in s.net.openConns && At(s.net.up, c) != []
  }

  /** Only the first request of an id adds an owner. */
  function OwnersAfter(s: State, e: Event): map<Id, Owner>
    requires Enabled(s, e)
  {
    if e.HttpRequest? then s.record.owner[e.newId := Owner(e.p, e.c, e.service)]
    else if e.TcpChunk? && e.p !in s.server.tcpFlag then
      s.record.owner[e.newId := Owner(e.p, s.server.kind[e.p].conn, s.server.kind[e.p].service)]
    else s.record.owner
  }

  /** Only what a public channel sends is recorded as a chunk. */
  function ChunksAfter(s: State, e: Event): map<Id, seq<Bytes>>
    requires Enabled(s, e)
  {
    match e
    case HttpRequest(_, _, _, newId, body, _) => Push(s.record.chunks, newId, body)
    case TcpChunk(p, newId, body) => Push(s.record.chunks, TcpId(s, p, newId), body)
    case WebSocketChunk(p, body) => Push(s.record.chunks, s.server.upgraded[p].id, body)
    case _ => s.record.chunks
  }

  function Do(s: State, e: Event): (t: State)
    requires Enabled(s, e)
    ensures t.record.owner == OwnersAfter(s, e)
    ensures t.record.chunks == ChunksAfter(s, e)
    ensures t.record.heard == if e.BackendReads? then Push(s.record.heard, e.b, e.body) else s.record.heard
  {
    match e
    case TunnelOpens(c, client, services) => OnTunnelOpens(s, c, client, services)
    case TunnelCloses(c) => OnTunnelCloses(s, c)
    case ServiceAdded(c, name, target) =>
      s.(client := s.client.(forward := s.client.forward[c := s.client.forward[c][name := target]]))
    case ServiceRemoved(c, name) =>
      s.(client := s.client.(forward := s.client.forward[c := s.client.forward[c] - {name}]))
    case PublicOpens(p, kind) => OnPublicOpens(s, p, kind)
    case PublicCloses(p) => OnPublicCloses(s, p)
    case HttpRequest(p, c, service, id, body, upgrade) => OnHttpRequest(s, p, c, service, id, body, upgrade)
    case TcpChunk(p, newId, body) => OnTcpChunk(s, p, newId, body)
    case WebSocketChunk(p, body) => OnWebSocketChunk(s, s.server.upgraded[p], body)
    case WriteCompletes(c, ok) => if ok then OnWriteSucceeds(s, c) else OnWriteFails(s, c)
    case RequestArrives(c, ok) => OnRequestArrives(s, c, ok)
    case ConnectCompletes(k, ok, b, written) =>
      if ok then OnConnectSucceeds(s, k, b, written) else OnConnectFails(s, k)
    case BackendReads(b, body) => OnBackendReads(s, b, body)
    case BackendCloses(b) => s.(client := s.client.(openBackends := s.client.openBackends - {b}))
    case BackendUnmapped(b) => OnBackendUnmapped(s, b)
    case ResponseArrives(c) => OnResponseArrives(s, c)
  }

  function Step(s: State, e: Event): State {
    if Enabled(s, e) then Do(s, e) else s
  }

  /** The state after a run. */
  function After(run: seq<Event>): State {
    if run == [] then INIT else Step(After(run[..|run| - 1]), run[|run| - 1])
  }
}
