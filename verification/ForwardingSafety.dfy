/** No cross-talk: whose bytes are where, in every state of every run. */
module ForwardingSafety {
  import opened Basics
  import opened Forwarding

  type Owners = map<Id, Owner>
  type Chunks = map<Id, seq<Bytes>>
  type Links = map<Backend, Link>
  type Heard = map<Backend, seq<Bytes>>
  type Queues = map<nat, seq<Message>>
  type Listeners = map<nat, seq<Option<Listener>>>

  /** A request that belongs to tunnel `c`: its bytes are the chunk of its id with
      its number, and it names the service of its id or none. */
  ghost predicate RequestOk(owner: Owners, chunks: Chunks, c: Conn, m: Message) {
    && m.Request? && m.id in owner && owner[m.id].conn == c
    && m.no < |At(chunks, m.id)| && At(chunks, m.id)[m.no] == m.body
    && (m.service.None? || m.service.value == owner[m.id].service)
  }

  ghost predicate RequestsOk(owner: Owners, chunks: Chunks, c: Conn, q: seq<Message>) {
    forall k {:trigger RequestOk(owner, chunks, c, q[k])} :: 0 <= k < |q| ==> RequestOk(owner, chunks, c, q[k])
  }

  ghost predicate QueuesOk(owner: Owners, chunks: Chunks, queues: Queues) {
    forall c: nat {:trigger RequestsOk(owner, chunks, c, At(queues, c))} :: RequestsOk(owner, chunks, c, At(queues, c))
  }

  /** A pending connect was started by a request that named its service. */
  ghost predicate ConnectOk(owner: Owners, chunks: Chunks, n: Connect) {
    RequestOk(owner, chunks, n.conn, n.request) && n.request.service.Some?
  }

  ghost predicate ConnectsOk(owner: Owners, chunks: Chunks, connects: seq<Connect>) {
    forall k {:trigger ConnectOk(owner, chunks, connects[k])} :: 0 <= k < |connects| ==>
      ConnectOk(owner, chunks, connects[k])
  }

  /** What was written to a backend belongs to the id the backend was opened for. */
  ghost predicate InputOk(owner: Owners, chunks: Chunks, link: Link, q: seq<Message>) {
    RequestsOk(owner, chunks, link.conn, q) && forall k :: 0 <= k < |q| ==> q[k].id == link.id
  }

  ghost predicate InputsOk(owner: Owners, chunks: Chunks, links: Links, inputs: Queues) {
    forall b {:trigger InputOk(owner, chunks, links[b], At(inputs, b))} :: b in links ==>
      InputOk(owner, chunks, links[b], At(inputs, b))
  }

  ghost predicate LinksOk(owner: Owners, links: Links) {
    forall b :: b in links ==> links[b].id in owner && owner[links[b].id].conn == links[b].conn
  }

  /** A response: its bytes were read from a backend opened for its id. */
  ghost predicate ResponseOk(owner: Owners, links: Links, heard: Heard, m: Message) {
    && m.Response? && m.id in owner
    && m.from in links && links[m.from].id == m.id
    && m.no < |At(heard, m.from)| && At(heard, m.from)[m.no] == m.body
  }

  ghost predicate UpResponse(owner: Owners, links: Links, heard: Heard, c: Conn, m: Message) {
    ResponseOk(owner, links, heard, m) && owner[m.id].conn == c
  }

  ghost predicate DeliveredResponse(owner: Owners, links: Links, heard: Heard, p: Public, m: Message) {
    ResponseOk(owner, links, heard, m) && owner[m.id].pub == p
  }

  ghost predicate SentResponse(owner: Owners, links: Links, heard: Heard, i: Id, m: Message) {
    ResponseOk(owner, links, heard, m) && m.id == i
  }

  ghost predicate UpOk(owner: Owners, links: Links, heard: Heard, up: Queues) {
    forall c: nat, k {:trigger UpResponse(owner, links, heard, c, At(up, c)[k])} ::
      0 <= k < |At(up, c)| ==> UpResponse(owner, links, heard, c, At(up, c)[k])
  }

  ghost predicate DeliveredOk(owner: Owners, links: Links, heard: Heard, delivered: Queues) {
    forall p: nat, k {:trigger DeliveredResponse(owner, links, heard, p, At(delivered, p)[k])} ::
      0 <= k < |At(delivered, p)| ==> DeliveredResponse(owner, links, heard, p, At(delivered, p)[k])
  }

  ghost predicate SentOk(owner: Owners, links: Links, heard: Heard, sent: Queues) {
    forall i: nat, k {:trigger SentResponse(owner, links, heard, i, At(sent, i)[k])} ::
      0 <= k < |At(sent, i)| ==> SentResponse(owner, links, heard, i, At(sent, i)[k])
  }

  ghost predicate MappingOk(owner: Owners, mapping: map<Id, Public>) {
    forall i :: i in mapping ==> i in owner && mapping[i] == owner[i].pub
  }

  ghost predicate FlagsOk(owner: Owners, tcpFlag: map<Public, Id>, kind: map<Public, Kind>) {
    forall p :: p in tcpFlag ==>
      && tcpFlag[p] in owner && owner[tcpFlag[p]].pub == p && p in kind
      && (kind[p].TcpPort? ==> owner[tcpFlag[p]] == Owner(p, kind[p].conn, kind[p].service))
  }

  ghost predicate KindsOk(kind: map<Public, Kind>, clientOf: map<Conn, Client>) {
    forall p :: p in kind && !kind[p].RoutePort? ==> kind[p].conn in clientOf
  }

  ghost predicate OwnersOk(owner: Owners, clientOf: map<Conn, Client>, kind: map<Public, Kind>, chunks: Chunks) {
    && (forall i :: i in owner ==> owner[i].conn in clientOf && owner[i].pub in kind)
    && (forall i :: i in chunks ==> i in owner)
  }

  /** A client maps an id to a backend that was opened for that id on a tunnel of the
      same client. */
  ghost predicate MappedOk(clientOf: map<Conn, Client>, mapping: map<(Client, Id), Backend>, links: Links) {
    forall k :: k in mapping ==>
      && mapping[k] in links && links[mapping[k]].id == k.1
      && links[mapping[k]].conn in clientOf && clientOf[links[mapping[k]].conn] == k.0
  }

  /** The listener of a waiting write has captured the id of the request and the channel
      the id was generated for; only HTTP requests have one. */
  ghost predicate ListenerOk(owner: Owners, m: Message, l: Option<Listener>) {
    && (l.Some? <==> m.Request? && m.http)
    && (l.Some? ==> l.value.id == m.id && m.id in owner && owner[m.id].pub == l.value.pub)
  }

  ghost predicate ListensOk(owner: Owners, q: seq<Message>, l: seq<Option<Listener>>) {
    && |q| == |l|
    && forall k {:trigger ListenerOk(owner, q[k], l[k])} :: 0 <= k < |q| ==> ListenerOk(owner, q[k], l[k])
  }

  ghost predicate ListenersOk(owner: Owners, outbound: Queues, listeners: Listeners) {
    forall c: nat {:trigger ListensOk(owner, At(outbound, c), At(listeners, c))} ::
      ListensOk(owner, At(outbound, c), At(listeners, c))
  }

  /** The handler of an upgraded channel has captured an id of that channel and the
      tunnel of that id. */
  ghost predicate SocketsOk(owner: Owners, upgraded: map<Public, WebSocket>) {
    forall p :: p in upgraded ==>
      && upgraded[p].id in owner && owner[upgraded[p].id].pub == p && owner[upgraded[p].id].conn == upgraded[p].conn
  }

  ghost predicate Captured(s: State) {
    ListenersOk(s.record.owner, s.net.outbound, s.net.listeners) && SocketsOk(s.record.owner, s.server.upgraded)
  }

  ghost predicate Channels(s: State) {
    && MappingOk(s.record.owner, s.server.requestMapping)
    && FlagsOk(s.record.owner, s.server.tcpFlag, s.server.kind)
    && KindsOk(s.server.kind, s.net.clientOf)
    && OwnersOk(s.record.owner, s.net.clientOf, s.server.kind, s.record.chunks)
    && LinksOk(s.record.owner, s.client.links)
    && MappedOk(s.net.clientOf, s.client.clientMapping, s.client.links)
    && s.record.inputs.Keys <= s.client.links.Keys
  }

  ghost predicate Requests(s: State) {
    && QueuesOk(s.record.owner, s.record.chunks, s.net.outbound)
    && QueuesOk(s.record.owner, s.record.chunks, s.net.down)
    && ConnectsOk(s.record.owner, s.record.chunks, s.client.connects)
    && InputsOk(s.record.owner, s.record.chunks, s.client.links, s.record.inputs)
  }

  ghost predicate Responses(s: State) {
    && UpOk(s.record.owner, s.client.links, s.record.heard, s.net.up)
    && DeliveredOk(s.record.owner, s.client.links, s.record.heard, s.record.delivered)
    && SentOk(s.record.owner, s.client.links, s.record.heard, s.record.sent)
  }

  ghost predicate Safe(s: State) {
    Channels(s) && Requests(s) && Responses(s) && Captured(s)
  }

  // ------------------------------------------------ what growing records keep

  ghost predicate OwnersGrow(owner: Owners, owner': Owners) {
    forall i :: i in owner ==> i in owner' && owner'[i] == owner[i]
  }

  ghost predicate ChunksGrow(chunks: Chunks, chunks': Chunks) {
    forall i: nat :: At(chunks, i) <= At(chunks', i)
  }

  lemma RequestsGrow(owner: Owners, chunks: Chunks, owner': Owners, chunks': Chunks, c: Conn, q: seq<Message>)
    requires RequestsOk(owner, chunks, c, q)
    requires OwnersGrow(owner, owner') && ChunksGrow(chunks, chunks')
    ensures RequestsOk(owner', chunks', c, q)
  {
    forall k | 0 <= k < |q| ensures RequestOk(owner', chunks', c, q[k]) {
      assert RequestOk(owner, chunks, c, q[k]);
    }
  }

  lemma QueuesGrow(owner: Owners, chunks: Chunks, owner': Owners, chunks': Chunks, q: Queues)
    requires QueuesOk(owner, chunks, q)
    requires OwnersGrow(owner, owner') && ChunksGrow(chunks, chunks')
    ensures QueuesOk(owner', chunks', q)
  {
    forall c: nat ensures RequestsOk(owner', chunks', c, At(q, c)) {
      assert RequestsOk(owner, chunks, c, At(q, c));
      RequestsGrow(owner, chunks, owner', chunks', c, At(q, c));
    }
  }

  lemma ConnectsGrow(owner: Owners, chunks: Chunks, owner': Owners, chunks': Chunks, q: seq<Connect>)
    requires ConnectsOk(owner, chunks, q)
    requires OwnersGrow(owner, owner') && ChunksGrow(chunks, chunks')
    ensures ConnectsOk(owner', chunks', q)
  {
    forall k | 0 <= k < |q| ensures ConnectOk(owner', chunks', q[k]) {
      assert ConnectOk(owner, chunks, q[k]);
    }
  }

  lemma InputsGrow(owner: Owners, chunks: Chunks, owner': Owners, chunks': Chunks, links: Links, q: Queues)
    requires InputsOk(owner, chunks, links, q)
    requires OwnersGrow(owner, owner') && ChunksGrow(chunks, chunks')
    ensures InputsOk(owner', chunks', links, q)
  {
    forall b | b in links ensures InputOk(owner', chunks', links[b], At(q, b)) {
      assert InputOk(owner, chunks, links[b], At(q, b));
      RequestsGrow(owner, chunks, owner', chunks', links[b].conn, At(q, b));
    }
  }

  /** Growing records keep everything that is said about requests. */
  lemma AllRequestsGrow(s: State, owner': Owners, chunks': Chunks)
    requires Requests(s) && OwnersGrow(s.record.owner, owner') && ChunksGrow(s.record.chunks, chunks')
    ensures Requests(s.(record := s.record.(owner := owner', chunks := chunks')))
  {
    QueuesGrow(s.record.owner, s.record.chunks, owner', chunks', s.net.outbound);
    QueuesGrow(s.record.owner, s.record.chunks, owner', chunks', s.net.down);
    ConnectsGrow(s.record.owner, s.record.chunks, owner', chunks', s.client.connects);
    InputsGrow(s.record.owner, s.record.chunks, owner', chunks', s.client.links, s.record.inputs);
  }

  ghost predicate LinksGrow(links: Links, links': Links) {
    forall b :: b in links ==> b in links' && links'[b] == links[b]
  }

  /** Growing records keep everything that is said about responses. */
  lemma ResponsesGrow(s: State, owner': Owners, links': Links, heard': Heard)
    requires Responses(s) && OwnersGrow(s.record.owner, owner') && LinksGrow(s.client.links, links')
      && ChunksGrow(s.record.heard, heard')
    ensures Responses(s.(record := s.record.(owner := owner', heard := heard'),
                         client := s.client.(links := links')))
  {
    forall c: nat, k | 0 <= k < |At(s.net.up, c)| ensures UpResponse(owner', links', heard', c, At(s.net.up, c)[k]) {
      assert UpResponse(s.record.owner, s.client.links, s.record.heard, c, At(s.net.up, c)[k]);
    }
    forall p: nat, k | 0 <= k < |At(s.record.delivered, p)|
      ensures DeliveredResponse(owner', links', heard', p, At(s.record.delivered, p)[k]) {
      assert DeliveredResponse(s.record.owner, s.client.links, s.record.heard, p, At(s.record.delivered, p)[k]);
    }
    forall i: nat, k | 0 <= k < |At(s.record.sent, i)|
      ensures SentResponse(owner', links', heard', i, At(s.record.sent, i)[k]) {
      assert SentResponse(s.record.owner, s.client.links, s.record.heard, i, At(s.record.sent, i)[k]);
    }
  }

  lemma QueuesPop(owner: Owners, chunks: Chunks, q: Queues, c: nat)
    requires QueuesOk(owner, chunks, q) && At(q, c) != []
    ensures QueuesOk(owner, chunks, Pop(q, c)) && RequestOk(owner, chunks, c, At(q, c)[0])
  {
    forall d: nat ensures RequestsOk(owner, chunks, d, At(Pop(q, c), d)) {
      assert RequestsOk(owner, chunks, d, At(q, d));
      forall k | 0 <= k < |At(Pop(q, c), d)| ensures RequestOk(owner, chunks, d, At(Pop(q, c), d)[k]) {
        assert RequestOk(owner, chunks, d, At(q, d)[if d == c then k + 1 else k]);
      }
    }
    assert RequestsOk(owner, chunks, c, At(q, c));
  }

  lemma QueuesPush(owner: Owners, chunks: Chunks, q: Queues, c: nat, m: Message)
    requires QueuesOk(owner, chunks, q) && RequestOk(owner, chunks, c, m)
    ensures QueuesOk(owner, chunks, Push(q, c, m))
  {
    forall d: nat ensures RequestsOk(owner, chunks, d, At(Push(q, c, m), d)) {
      assert RequestsOk(owner, chunks, d, At(q, d));
      forall k | 0 <= k < |At(Push(q, c, m), d)| ensures RequestOk(owner, chunks, d, At(Push(q, c, m), d)[k]) {
        assert k < |At(q, d)| ==> RequestOk(owner, chunks, d, At(q, d)[k]);
      }
    }
  }

  lemma QueuesClear(owner: Owners, chunks: Chunks, q: Queues, c: nat)
    requires QueuesOk(owner, chunks, q)
    ensures QueuesOk(owner, chunks, Clear(q, c))
  {
    forall d: nat ensures RequestsOk(owner, chunks, d, At(Clear(q, c), d)) {
      assert RequestsOk(owner, chunks, d, At(q, d));
    }
  }

  lemma UpPop(owner: Owners, links: Links, heard: Heard, up: Queues, c: nat)
    requires UpOk(owner, links, heard, up) && At(up, c) != []
    ensures UpOk(owner, links, heard, Pop(up, c)) && UpResponse(owner, links, heard, c, At(up, c)[0])
  {
    assert UpResponse(owner, links, heard, c, At(up, c)[0]);
    forall d: nat, k | 0 <= k < |At(Pop(up, c), d)| ensures UpResponse(owner, links, heard, d, At(Pop(up, c), d)[k]) {
      assert UpResponse(owner, links, heard, d, At(up, d)[if d == c then k + 1 else k]);
    }
  }

  lemma UpPush(owner: Owners, links: Links, heard: Heard, up: Queues, c: nat, m: Message)
    requires UpOk(owner, links, heard, up) && UpResponse(owner, links, heard, c, m)
    ensures UpOk(owner, links, heard, Push(up, c, m))
  {
    forall d: nat, k | 0 <= k < |At(Push(up, c, m), d)|
      ensures UpResponse(owner, links, heard, d, At(Push(up, c, m), d)[k]) {
      assert k < |At(up, d)| ==> UpResponse(owner, links, heard, d, At(up, d)[k]);
    }
  }

  lemma UpClear(owner: Owners, links: Links, heard: Heard, up: Queues, c: nat)
    requires UpOk(owner, links, heard, up)
    ensures UpOk(owner, links, heard, Clear(up, c))
  {
    forall d: nat, k | 0 <= k < |At(Clear(up, c), d)|
      ensures UpResponse(owner, links, heard, d, At(Clear(up, c), d)[k]) {
      assert UpResponse(owner, links, heard, d, At(up, d)[k]);
    }
  }

  lemma SentPush(owner: Owners, links: Links, heard: Heard, sent: Queues, i: nat, m: Message)
    requires SentOk(owner, links, heard, sent) && SentResponse(owner, links, heard, i, m)
    ensures SentOk(owner, links, heard, Push(sent, i, m))
  {
    forall d: nat, k | 0 <= k < |At(Push(sent, i, m), d)|
      ensures SentResponse(owner, links, heard, d, At(Push(sent, i, m), d)[k]) {
      assert k < |At(sent, d)| ==> SentResponse(owner, links, heard, d, At(sent, d)[k]);
    }
  }

  lemma DeliveredPush(owner: Owners, links: Links, heard: Heard, delivered: Queues, p: nat, m: Message)
    requires DeliveredOk(owner, links, heard, delivered) && DeliveredResponse(owner, links, heard, p, m)
    ensures DeliveredOk(owner, links, heard, Push(delivered, p, m))
  {
    forall d: nat, k | 0 <= k < |At(Push(delivered, p, m), d)|
      ensures DeliveredResponse(owner, links, heard, d, At(Push(delivered, p, m), d)[k])
    {
      assert k < |At(delivered, d)| ==> DeliveredResponse(owner, links, heard, d, At(delivered, d)[k]);
    }
  }

  // ------------------------------------------------ what was captured

  lemma ListenersGrow(owner: Owners, owner': Owners, outbound: Queues, listeners: Listeners)
    requires ListenersOk(owner, outbound, listeners) && OwnersGrow(owner, owner')
    ensures ListenersOk(owner', outbound, listeners)
  {
    forall c: nat ensures ListensOk(owner', At(outbound, c), At(listeners, c)) {
      assert ListensOk(owner, At(outbound, c), At(listeners, c));
      forall k | 0 <= k < |At(outbound, c)| ensures ListenerOk(owner', At(outbound, c)[k], At(listeners, c)[k]) {
        assert ListenerOk(owner, At(outbound, c)[k], At(listeners, c)[k]);
      }
    }
  }

  lemma ListensPush(owner: Owners, q: seq<Message>, l: seq<Option<Listener>>, m: Message, n: Option<Listener>)
    requires ListensOk(owner, q, l) && ListenerOk(owner, m, n)
    ensures ListensOk(owner, q + [m], l + [n])
  {
    forall k | 0 <= k < |q + [m]| ensures ListenerOk(owner, (q + [m])[k], (l + [n])[k]) {
      assert k < |q| ==> ListenerOk(owner, q[k], l[k]);
    }
  }

  lemma ListenersPush(owner: Owners, outbound: Queues, listeners: Listeners, c: nat, m: Message, n: Option<Listener>)
    requires ListenersOk(owner, outbound, listeners) && ListenerOk(owner, m, n)
    ensures ListenersOk(owner, Push(outbound, c, m), Push(listeners, c, n))
  {
    forall d: nat ensures ListensOk(owner, At(Push(outbound, c, m), d), At(Push(listeners, c, n), d)) {
      assert ListensOk(owner, At(outbound, d), At(listeners, d));
      if d == c {
        ListensPush(owner, At(outbound, c), At(listeners, c), m, n);
      }
    }
  }

  lemma ListensPop(owner: Owners, q: seq<Message>, l: seq<Option<Listener>>)
    requires ListensOk(owner, q, l) && q != []
    ensures ListensOk(owner, q[1..], l[1..]) && ListenerOk(owner, q[0], l[0])
  {
    assert ListenerOk(owner, q[0], l[0]);
    forall k | 0 <= k < |q[1..]| ensures ListenerOk(owner, q[1..][k], l[1..][k]) {
      assert ListenerOk(owner, q[k + 1], l[k + 1]);
    }
  }

  lemma ListenersPop(owner: Owners, outbound: Queues, listeners: Listeners, c: nat)
    requires ListenersOk(owner, outbound, listeners) && At(outbound, c) != [] && At(listeners, c) != []
    ensures ListenersOk(owner, Pop(outbound, c), Pop(listeners, c))
    ensures ListenerOk(owner, At(outbound, c)[0], At(listeners, c)[0])
  {
    assert ListensOk(owner, At(outbound, c), At(listeners, c));
    ListensPop(owner, At(outbound, c), At(listeners, c));
    forall d: nat ensures ListensOk(owner, At(Pop(outbound, c), d), At(Pop(listeners, c), d)) {
      assert ListensOk(owner, At(outbound, d), At(listeners, d));
    }
  }

  lemma ListenersClear(owner: Owners, outbound: Queues, listeners: Listeners, c: nat)
    requires ListenersOk(owner, outbound, listeners)
    ensures ListenersOk(owner, Clear(outbound, c), Clear(listeners, c))
  {
    forall d: nat ensures ListensOk(owner, At(Clear(outbound, c), d), At(Clear(listeners, c), d)) {
      assert ListensOk(owner, At(outbound, d), At(listeners, d));
    }
  }

  // ------------------------------------------------ requests, step by step

  /** Handing over the next chunk of an id. */
  lemma RequestsWrite(s: State, i: Id, c: Conn, x: Bytes, service: Option<string>, http: bool,
    l: Option<Listener>)
    requires Requests(s) && i in s.record.owner && s.record.owner[i].conn == c
    requires service.None? || service.value == s.record.owner[i].service
    ensures Requests(Write(Log(s, i, x), c, Request(i, x, service, http, |At(s.record.chunks, i)|), l))
  {
    var a, m := Log(s, i, x), Request(i, x, service, http, |At(s.record.chunks, i)|);
    AllRequestsGrow(s, s.record.owner, a.record.chunks);
    QueuesPush(a.record.owner, a.record.chunks, a.net.outbound, c, m);
  }

  lemma RequestsHttpRequest(s: State, p: Public, c: Conn, service: string, i: Id, x: Bytes, upgrade: bool)
    requires Requests(s) && i !in s.record.owner
    ensures Requests(OnHttpRequest(s, p, c, service, i, x, upgrade))
  {
    var a := s.(record := s.record.(owner := s.record.owner[i := Owner(p, c, service)]),
                server := s.server.(tcpFlag := s.server.tcpFlag[p := i],
                                    upgraded := if upgrade then s.server.upgraded[p := WebSocket(i, c)]
                                                else s.server.upgraded));
    AllRequestsGrow(s, a.record.owner, s.record.chunks);
    RequestsWrite(a, i, c, x, Some(service), true, Some(Listener(i, p)));
  }

  lemma RequestsTcpChunk(s: State, p: Public, newId: Id, x: Bytes)
    requires Requests(s) && FlagsOk(s.record.owner, s.server.tcpFlag, s.server.kind)
    requires p in s.server.kind && s.server.kind[p].TcpPort? && (p in s.server.tcpFlag || newId !in s.record.owner)
    ensures Requests(OnTcpChunk(s, p, newId, x))
  {
    var i, k := TcpId(s, p, newId), s.server.kind[p];
    var a := s.(server := s.server.(tcpFlag := s.server.tcpFlag[p := i],
                                    requestMapping := s.server.requestMapping[i := p]),
                record := s.record.(owner := if p in s.server.tcpFlag then s.record.owner
                                             else s.record.owner[i := Owner(p, k.conn, k.service)],
                                    inserted := s.record.inserted + {i}));
    AllRequestsGrow(s, a.record.owner, s.record.chunks);
    RequestsWrite(a, i, k.conn, x, Some(k.service), false, None);
  }

  lemma RequestsWriteCompletes(s: State, c: Conn)
    requires Requests(s) && At(s.net.outbound, c) != [] && At(s.net.listeners, c) != []
    ensures Requests(OnWriteSucceeds(s, c)) && Requests(OnWriteFails(s, c))
  {
    QueuesPop(s.record.owner, s.record.chunks, s.net.outbound, c);
    QueuesPush(s.record.owner, s.record.chunks, s.net.down, c, At(s.net.outbound, c)[0]);
  }

  lemma InputAppends(owner: Owners, chunks: Chunks, link: Link, q: seq<Message>, m: Message)
    requires InputOk(owner, chunks, link, q) && link.id == m.id && RequestOk(owner, chunks, link.conn, m)
    ensures InputOk(owner, chunks, link, q + [m])
  {
    forall k | 0 <= k < |q + [m]| ensures RequestOk(owner, chunks, link.conn, (q + [m])[k]) {
      assert k < |q| ==> RequestOk(owner, chunks, link.conn, q[k]);
    }
  }

  lemma InputsPush(owner: Owners, chunks: Chunks, links: Links, inputs: Queues, b: nat, m: Message)
    requires InputsOk(owner, chunks, links, inputs)
    requires b in links && links[b].id == m.id && RequestOk(owner, chunks, links[b].conn, m)
    ensures InputsOk(owner, chunks, links, Push(inputs, b, m))
  {
    forall d | d in links ensures InputOk(owner, chunks, links[d], At(Push(inputs, b, m), d)) {
      assert InputOk(owner, chunks, links[d], At(inputs, d));
      if d == b {
        InputAppends(owner, chunks, links[b], At(inputs, b), m);
      }
    }
  }

  lemma ConnectsPush(owner: Owners, chunks: Chunks, q: seq<Connect>, n: Connect)
    requires ConnectsOk(owner, chunks, q) && ConnectOk(owner, chunks, n)
    ensures ConnectsOk(owner, chunks, q + [n])
  {
    forall k | 0 <= k < |q + [n]| ensures ConnectOk(owner, chunks, (q + [n])[k]) {
      assert k < |q| ==> ConnectOk(owner, chunks, q[k]);
    }
  }

  lemma RequestsRequestForBackend(s: State, c: Conn, b: Backend, ok: bool)
    requires Requests(s) && LinksOk(s.record.owner, s.client.links) && At(s.net.down, c) != []
    requires b in s.client.links && s.client.links[b].id == At(s.net.down, c)[0].id
    ensures Requests(OnRequestForBackend(s, c, b, ok))
  {
    QueuesPop(s.record.owner, s.record.chunks, s.net.down, c);
    InputsPush(s.record.owner, s.record.chunks, s.client.links, s.record.inputs, b, At(s.net.down, c)[0]);
  }

  lemma RequestsRequestForService(s: State, c: Conn)
    requires Requests(s) && At(s.net.down, c) != [] && Opens(s, c, At(s.net.down, c)[0])
    ensures Requests(OnRequestForService(s, c))
  {
    var m := At(s.net.down, c)[0];
    QueuesPop(s.record.owner, s.record.chunks, s.net.down, c);
    ConnectsPush(s.record.owner, s.record.chunks, s.client.connects,
      Connect(m, c, s.client.forward[c][m.service.value]));
  }

  lemma RequestsRequestDropped(s: State, c: Conn)
    requires Requests(s) && At(s.net.down, c) != []
    ensures Requests(OnRequestDropped(s, c))
  {
    QueuesPop(s.record.owner, s.record.chunks, s.net.down, c);
  }

  lemma ConnectsRemove(owner: Owners, chunks: Chunks, q: seq<Connect>, k: nat)
    requires ConnectsOk(owner, chunks, q) && k < |q|
    ensures ConnectsOk(owner, chunks, q[..k] + q[k + 1..]) && ConnectOk(owner, chunks, q[k])
  {
    var r := q[..k] + q[k + 1..];
    forall j | 0 <= j < |r| ensures ConnectOk(owner, chunks, r[j]) {
      assert ConnectOk(owner, chunks, q[if j < k then j else j + 1]);
    }
    assert ConnectOk(owner, chunks, q[k]);
  }

  lemma InputsOpen(owner: Owners, chunks: Chunks, links: Links, inputs: Queues, b: Backend, link: Link)
    requires InputsOk(owner, chunks, links, inputs) && b !in links && b !in inputs
    ensures InputsOk(owner, chunks, links[b := link], inputs)
  {
    forall d | d in links[b := link] ensures InputOk(owner, chunks, links[b := link][d], At(inputs, d)) {
      assert d in links ==> InputOk(owner, chunks, links[d], At(inputs, d));
    }
  }

  lemma RequestsConnectSucceeds(s: State, k: nat, b: Backend, written: bool)
    requires Requests(s) && s.record.inputs.Keys <= s.client.links.Keys
    requires k < |s.client.connects| && s.client.connects[k].conn in s.net.clientOf && b !in s.client.links
    ensures Requests(OnConnectSucceeds(s, k, b, written))
  {
    var n := s.client.connects[k];
    var link := Link(n.request.id, n.conn, n.target);
    ConnectsRemove(s.record.owner, s.record.chunks, s.client.connects, k);
    InputsOpen(s.record.owner, s.record.chunks, s.client.links, s.record.inputs, b, link);
    InputsPush(s.record.owner, s.record.chunks, s.client.links[b := link], s.record.inputs, b, n.request);
  }

  lemma RequestsConnectFails(s: State, k: nat)
    requires Requests(s) && k < |s.client.connects|
    ensures Requests(OnConnectFails(s, k))
  {
    ConnectsRemove(s.record.owner, s.record.chunks, s.client.connects, k);
  }

  // ------------------------------------------------ responses, step by step

  lemma ResponsesBackendReads(s: State, b: Backend, x: Bytes)
    requires Responses(s) && LinksOk(s.record.owner, s.client.links) && b in s.client.links
    ensures Responses(OnBackendReads(s, b, x))
  {
    var l, heard', m := s.client.links[b], Push(s.record.heard, b, x),
      Response(s.client.links[b].id, x, b, |At(s.record.heard, b)|);
    ResponsesGrow(s, s.record.owner, s.client.links, heard');
    assert ResponseOk(s.record.owner, s.client.links, heard', m);
    UpPush(s.record.owner, s.client.links, heard', s.net.up, l.conn, m);
    SentPush(s.record.owner, s.client.links, heard', s.record.sent, l.id, m);
  }

  lemma ResponsesResponseArrives(s: State, c: Conn)
    requires Responses(s) && MappingOk(s.record.owner, s.server.requestMapping) && At(s.net.up, c) != []
    ensures Responses(OnResponseArrives(s, c))
  {
    UpPop(s.record.owner, s.client.links, s.record.heard, s.net.up, c);
    var m := At(s.net.up, c)[0];
    assert m.id in s.server.requestMapping ==>
      DeliveredResponse(s.record.owner, s.client.links, s.record.heard, s.server.requestMapping[m.id], m);
    if m.id in s.server.requestMapping && s.server.requestMapping[m.id] in s.server.openPublics {
      DeliveredPush(s.record.owner, s.client.links, s.record.heard, s.record.delivered, s.server.requestMapping[m.id],
        m);
    } else {
      assert OnResponseArrives(s, c) == s.(net := s.net.(up := Pop(s.net.up, c)));
    }
  }

  lemma TunnelClosesSafe(s: State, c: Conn)
    requires Safe(s)
    ensures Safe(OnTunnelCloses(s, c))
  {
    UpClear(s.record.owner, s.client.links, s.record.heard, s.net.up, c);
    QueuesClear(s.record.owner, s.record.chunks, s.net.outbound, c);
    QueuesClear(s.record.owner, s.record.chunks, s.net.down, c);
    ListenersClear(s.record.owner, s.net.outbound, s.net.listeners, c);
  }

  lemma TunnelOpensSafe(s: State, c: Conn, client: Client, services: map<string, Service>)
    requires Safe(s) && c !in s.net.clientOf
    ensures Safe(OnTunnelOpens(s, c, client, services))
  {
  }

  lemma PublicOpensSafe(s: State, p: Public, kind: Kind)
    requires Safe(s) && p !in s.server.kind && (kind.RoutePort? || kind.conn in s.net.clientOf)
    ensures Safe(OnPublicOpens(s, p, kind))
  {
  }

  lemma PublicClosesSafe(s: State, p: Public)
    requires Safe(s)
    ensures Safe(OnPublicCloses(s, p))
  {
  }

  lemma ChannelsGrow(s: State, i: Id, p: Public, c: Conn, service: string)
    requires Channels(s) && i !in s.record.owner && p in s.server.kind && c in s.net.clientOf
    requires s.server.kind[p].TcpPort? ==> s.server.kind[p].conn == c && s.server.kind[p].service == service
    ensures Channels(s.(record := s.record.(owner := s.record.owner[i := Owner(p, c, service)]),
                        server := s.server.(tcpFlag := s.server.tcpFlag[p := i])))
  {
  }

  lemma ChannelsTcpChunk(s: State, p: Public, newId: Id, x: Bytes)
    requires Channels(s) && p in s.server.kind && s.server.kind[p].TcpPort?
      && (p in s.server.tcpFlag || newId !in s.record.owner)
    ensures Channels(OnTcpChunk(s, p, newId, x))
  {
    var k, i := s.server.kind[p], TcpId(s, p, newId);
    if p !in s.server.tcpFlag {
      ChannelsGrow(s, newId, p, k.conn, k.service);
    }
    var t := OnTcpChunk(s, p, newId, x);
    assert i in t.record.owner && t.record.owner[i].pub == p && t.server.tcpFlag == s.server.tcpFlag[p := i];
  }

  lemma CapturedHttpRequest(s: State, p: Public, c: Conn, service: string, i: Id, x: Bytes, upgrade: bool)
    requires Captured(s) && i !in s.record.owner
    ensures Captured(OnHttpRequest(s, p, c, service, i, x, upgrade))
  {
    var owner := s.record.owner[i := Owner(p, c, service)];
    ListenersGrow(s.record.owner, owner, s.net.outbound, s.net.listeners);
    ListenersPush(owner, s.net.outbound, s.net.listeners, c,
      Request(i, x, Some(service), true, |At(s.record.chunks, i)|), Some(Listener(i, p)));
  }

  lemma HttpRequestSafe(s: State, p: Public, c: Conn, service: string, i: Id, x: Bytes, upgrade: bool)
    requires Safe(s) && i !in s.record.owner && p in s.server.kind && !s.server.kind[p].TcpPort? && c in s.net.clientOf
    ensures Safe(OnHttpRequest(s, p, c, service, i, x, upgrade))
  {
    RequestsHttpRequest(s, p, c, service, i, x, upgrade);
    CapturedHttpRequest(s, p, c, service, i, x, upgrade);
    ResponsesGrow(s, s.record.owner[i := Owner(p, c, service)], s.client.links, s.record.heard);
    ChannelsGrow(s, i, p, c, service);
  }

  lemma NewIdSafe(s: State, i: Id, p: Public, c: Conn, service: string)
    requires Safe(s) && i !in s.record.owner && p in s.server.kind && c in s.net.clientOf
    requires s.server.kind[p].TcpPort? ==> s.server.kind[p].conn == c && s.server.kind[p].service == service
    ensures Safe(s.(record := s.record.(owner := s.record.owner[i := Owner(p, c, service)]),
                    server := s.server.(tcpFlag := s.server.tcpFlag[p := i])))
  {
    AllRequestsGrow(s, s.record.owner[i := Owner(p, c, service)], s.record.chunks);
    ListenersGrow(s.record.owner, s.record.owner[i := Owner(p, c, service)], s.net.outbound, s.net.listeners);
    ResponsesGrow(s, s.record.owner[i := Owner(p, c, service)], s.client.links, s.record.heard);
    ChannelsGrow(s, i, p, c, service);
  }

  lemma TcpChunkSafe(s: State, p: Public, newId: Id, x: Bytes)
    requires Safe(s) && p in s.server.kind && s.server.kind[p].TcpPort?
      && (p in s.server.tcpFlag || newId !in s.record.owner)
    ensures Safe(OnTcpChunk(s, p, newId, x))
  {
    ChannelsTcpChunk(s, p, newId, x);
    RequestsTcpChunk(s, p, newId, x);
    CapturedTcpChunk(s, p, newId, x);
    ResponsesGrow(s, OnTcpChunk(s, p, newId, x).record.owner, s.client.links, s.record.heard);
  }

  lemma CapturedTcpChunk(s: State, p: Public, newId: Id, x: Bytes)
    requires Captured(s) && p in s.server.kind && s.server.kind[p].TcpPort?
      && (p in s.server.tcpFlag || newId !in s.record.owner)
    ensures Captured(OnTcpChunk(s, p, newId, x))
  {
    var i, k, owner := TcpId(s, p, newId), s.server.kind[p], OnTcpChunk(s, p, newId, x).record.owner;
    ListenersGrow(s.record.owner, owner, s.net.outbound, s.net.listeners);
    ListenersPush(owner, s.net.outbound, s.net.listeners, k.conn,
      Request(i, x, Some(k.service), false, |At(s.record.chunks, i)|), None);
  }

  lemma WebSocketChunkSafe(s: State, p: Public, x: Bytes)
    requires Safe(s) && p in s.server.upgraded
    ensures Safe(OnWebSocketChunk(s, s.server.upgraded[p], x))
  {
    var w := s.server.upgraded[p];
    RequestsWrite(s, w.id, w.conn, x, None, false, None);
    ListenersPush(s.record.owner, s.net.outbound, s.net.listeners, w.conn,
      Request(w.id, x, None, false, |At(s.record.chunks, w.id)|), None);
  }

  lemma WriteCompletesSafe(s: State, c: Conn)
    requires Safe(s) && At(s.net.outbound, c) != [] && At(s.net.listeners, c) != []
    ensures Safe(OnWriteSucceeds(s, c)) && Safe(OnWriteFails(s, c))
  {
    RequestsWriteCompletes(s, c);
    ListenersPop(s.record.owner, s.net.outbound, s.net.listeners, c);
  }

  lemma RequestForBackendSafe(s: State, c: Conn, b: Backend, ok: bool)
    requires Safe(s) && At(s.net.down, c) != [] && b in s.client.links
      && s.client.links[b].id == At(s.net.down, c)[0].id
    ensures Safe(OnRequestForBackend(s, c, b, ok))
  {
    RequestsRequestForBackend(s, c, b, ok);
  }

  lemma RequestForServiceSafe(s: State, c: Conn)
    requires Safe(s) && At(s.net.down, c) != [] && Opens(s, c, At(s.net.down, c)[0])
    ensures Safe(OnRequestForService(s, c))
  {
    RequestsRequestForService(s, c);
  }

  lemma RequestDroppedSafe(s: State, c: Conn)
    requires Safe(s) && At(s.net.down, c) != []
    ensures Safe(OnRequestDropped(s, c))
  {
    RequestsRequestDropped(s, c);
  }

  lemma RequestArrivesSafe(s: State, c: Conn, ok: bool)
    requires Safe(s) && c in s.net.clientOf && At(s.net.down, c) != []
    ensures Safe(OnRequestArrives(s, c, ok))
  {
    var key := (s.net.clientOf[c], At(s.net.down, c)[0].id);
    if key in s.client.clientMapping {
      RequestForBackendSafe(s, c, s.client.clientMapping[key], ok);
    } else if Opens(s, c, At(s.net.down, c)[0]) {
      RequestForServiceSafe(s, c);
    } else {
      RequestDroppedSafe(s, c);
    }
  }

  lemma ChannelsConnectSucceeds(s: State, k: nat, b: Backend, written: bool)
    requires Channels(s) && k < |s.client.connects| && ConnectOk(s.record.owner, s.record.chunks, s.client.connects[k])
    requires s.client.connects[k].conn in s.net.clientOf && b !in s.client.links
    ensures Channels(OnConnectSucceeds(s, k, b, written))
  {
  }

  lemma ConnectSucceedsSafe(s: State, k: nat, b: Backend, written: bool)
    requires Safe(s) && k < |s.client.connects| && s.client.connects[k].conn in s.net.clientOf && b !in s.client.links
    ensures Safe(OnConnectSucceeds(s, k, b, written))
  {
    var n := s.client.connects[k];
    assert ConnectOk(s.record.owner, s.record.chunks, n);
    ChannelsConnectSucceeds(s, k, b, written);
    RequestsConnectSucceeds(s, k, b, written);
    ResponsesGrow(s, s.record.owner, s.client.links[b := Link(n.request.id, n.conn, n.target)], s.record.heard);
  }

  lemma BackendUnmappedSafe(s: State, b: Backend)
    requires Safe(s) && b in s.client.links && s.client.links[b].conn in s.net.clientOf
    ensures Safe(OnBackendUnmapped(s, b))
  {
  }

  lemma SafeStep(s: State, e: Event)
    requires Safe(s)
    ensures Safe(Step(s, e))
  {
    if Enabled(s, e) {
      match e
      case TunnelOpens(c, client, services) => TunnelOpensSafe(s, c, client, services);
      case TunnelCloses(c) => TunnelClosesSafe(s, c);
      case PublicOpens(p, kind) => PublicOpensSafe(s, p, kind);
      case PublicCloses(p) => PublicClosesSafe(s, p);
      case HttpRequest(p, c, service, i, x, upgrade) => HttpRequestSafe(s, p, c, service, i, x, upgrade);
      case TcpChunk(p, newId, x) => TcpChunkSafe(s, p, newId, x);
      case WebSocketChunk(p, x) => WebSocketChunkSafe(s, p, x);
      case WriteCompletes(c, _) => WriteCompletesSafe(s, c);
      case RequestArrives(c, ok) => RequestArrivesSafe(s, c, ok);
      case ConnectCompletes(k, ok, b, written) =>
        if ok { ConnectSucceedsSafe(s, k, b, written); } else { RequestsConnectFails(s, k); }
      case BackendReads(b, x) => ResponsesBackendReads(s, b, x);
      case BackendUnmapped(b) => BackendUnmappedSafe(s, b);
      case ResponseArrives(c) => ResponsesResponseArrives(s, c);
      case _ =>
    }
  }
}
