/** Response conservation: nothing a backend sends into an open tunnel for an open
    public channel is lost, reordered or duplicated. */
module ForwardingConservation {
  import opened Basics
  import opened Forwarding
  import opened ForwardingSafety

  // ------------------------------------------------ the messages of one id

  /** The messages of one id, in order. */
  function Only(q: seq<Message>, i: Id): seq<Message> {
    if q == [] then [] else
      var rest := Only(q[..|q| - 1], i);
      if q[|q| - 1].id == i then rest + [q[|q| - 1]] else rest
  }

  lemma {:induction false} OnlyConcat(a: seq<Message>, b: seq<Message>, i: Id)
    ensures Only(a + b, i) == Only(a, i) + Only(b, i)
  {
    if b == [] {
      assert a + b == a;
    } else {
      OnlyConcat(a, b[..|b| - 1], i);
      assert (a + b)[..|a + b| - 1] == a + b[..|b| - 1];
    }
  }

  lemma OnlyOne(m: Message, i: Id)
    ensures Only([m], i) == if m.id == i then [m] else []
  {
    assert [m][..0] == [];
  }

  lemma OnlyPush(queues: Queues, c: nat, m: Message, i: Id)
    ensures Only(At(Push(queues, c, m), c), i) == Only(At(queues, c), i) + (if m.id == i then [m] else [])
  {
    OnlyConcat(At(queues, c), [m], i);
    OnlyOne(m, i);
  }

  lemma OnlyPop(queues: Queues, c: nat, i: Id)
    requires At(queues, c) != []
    ensures var m := At(queues, c)[0];
      Only(At(queues, c), i) == (if m.id == i then [m] else []) + Only(At(Pop(queues, c), c), i)
  {
    var m := At(queues, c)[0];
    OnlyConcat([m], At(Pop(queues, c), c), i);
    OnlyOne(m, i);
  }

  lemma {:induction false} OnlyNone(q: seq<Message>, i: Id)
    requires forall k :: 0 <= k < |q| ==> q[k].id != i
    ensures Only(q, i) == []
  {
    if q != [] {
      OnlyNone(q[..|q| - 1], i);
    }
  }

  // ------------------------------------------------ the mapping is there in time

  ghost predicate MappingPresent(owner: Owners, inserted: set<Id>, openPublics: set<Public>, mapping: map<Id, Public>) {
    forall i :: i in inserted ==> i in owner && (owner[i].pub in openPublics ==> i in mapping)
  }

  /** A request still on the server that is not waiting for an HTTP listener has its
      mapping. */
  ghost predicate OutboundReady(inserted: set<Id>, m: Message) {
    m.Request? && m.service.Some? && !m.http ==> m.id in inserted
  }

  /** A request that can open a backend connection has its mapping. */
  ghost predicate DownReady(inserted: set<Id>, m: Message) {
    m.Request? && m.service.Some? ==> m.id in inserted
  }

  ghost predicate OutboundInserted(inserted: set<Id>, q: Queues) {
    forall c: nat, k {:trigger OutboundReady(inserted, At(q, c)[k])} ::
      0 <= k < |At(q, c)| ==> OutboundReady(inserted, At(q, c)[k])
  }

  ghost predicate DownInserted(inserted: set<Id>, q: Queues) {
    forall c: nat, k {:trigger DownReady(inserted, At(q, c)[k])} ::
      0 <= k < |At(q, c)| ==> DownReady(inserted, At(q, c)[k])
  }

  ghost predicate ConnectsInserted(inserted: set<Id>, q: seq<Connect>) {
    forall k :: 0 <= k < |q| ==> q[k].request.id in inserted
  }

  ghost predicate LinksInserted(inserted: set<Id>, links: Links) {
    forall b :: b in links ==> links[b].id in inserted
  }

  ghost predicate Present(s: State) {
    && MappingPresent(s.record.owner, s.record.inserted, s.server.openPublics, s.server.requestMapping)
    && OutboundInserted(s.record.inserted, s.net.outbound)
    && DownInserted(s.record.inserted, s.net.down)
    && ConnectsInserted(s.record.inserted, s.client.connects)
    && LinksInserted(s.record.inserted, s.client.links)
  }

  lemma OutboundGrow(inserted: set<Id>, inserted': set<Id>, q: Queues)
    requires OutboundInserted(inserted, q) && inserted <= inserted'
    ensures OutboundInserted(inserted', q)
  {
    forall c: nat, k | 0 <= k < |At(q, c)| ensures OutboundReady(inserted', At(q, c)[k]) {
      assert OutboundReady(inserted, At(q, c)[k]);
    }
  }

  lemma OutboundPush(inserted: set<Id>, q: Queues, c: nat, m: Message)
    requires OutboundInserted(inserted, q) && OutboundReady(inserted, m)
    ensures OutboundInserted(inserted, Push(q, c, m))
  {
    forall d: nat, k | 0 <= k < |At(Push(q, c, m), d)| ensures OutboundReady(inserted, At(Push(q, c, m), d)[k]) {
      assert k < |At(q, d)| ==> OutboundReady(inserted, At(q, d)[k]);
    }
  }

  lemma OutboundPop(inserted: set<Id>, q: Queues, c: nat)
    requires OutboundInserted(inserted, q) && At(q, c) != []
    ensures OutboundInserted(inserted, Pop(q, c)) && OutboundReady(inserted, At(q, c)[0])
  {
    assert OutboundReady(inserted, At(q, c)[0]);
    forall d: nat, k | 0 <= k < |At(Pop(q, c), d)| ensures OutboundReady(inserted, At(Pop(q, c), d)[k]) {
      assert OutboundReady(inserted, At(q, d)[if d == c then k + 1 else k]);
    }
  }

  lemma DownGrow(inserted: set<Id>, inserted': set<Id>, q: Queues)
    requires DownInserted(inserted, q) && inserted <= inserted'
    ensures DownInserted(inserted', q)
  {
    forall c: nat, k | 0 <= k < |At(q, c)| ensures DownReady(inserted', At(q, c)[k]) {
      assert DownReady(inserted, At(q, c)[k]);
    }
  }

  lemma DownPush(inserted: set<Id>, q: Queues, c: nat, m: Message)
    requires DownInserted(inserted, q) && DownReady(inserted, m)
    ensures DownInserted(inserted, Push(q, c, m))
  {
    forall d: nat, k | 0 <= k < |At(Push(q, c, m), d)| ensures DownReady(inserted, At(Push(q, c, m), d)[k]) {
      assert k < |At(q, d)| ==> DownReady(inserted, At(q, d)[k]);
    }
  }

  lemma DownPop(inserted: set<Id>, q: Queues, c: nat)
    requires DownInserted(inserted, q) && At(q, c) != []
    ensures DownInserted(inserted, Pop(q, c)) && DownReady(inserted, At(q, c)[0])
  {
    assert DownReady(inserted, At(q, c)[0]);
    forall d: nat, k | 0 <= k < |At(Pop(q, c), d)| ensures DownReady(inserted, At(Pop(q, c), d)[k]) {
      assert DownReady(inserted, At(q, d)[if d == c then k + 1 else k]);
    }
  }

  lemma QueuesCleared(inserted: set<Id>, outbound: Queues, down: Queues, c: nat)
    requires OutboundInserted(inserted, outbound) && DownInserted(inserted, down)
    ensures OutboundInserted(inserted, Clear(outbound, c)) && DownInserted(inserted, Clear(down, c))
  {
    forall d: nat, k | 0 <= k < |At(Clear(outbound, c), d)|
      ensures OutboundReady(inserted, At(Clear(outbound, c), d)[k]) {
      assert OutboundReady(inserted, At(outbound, d)[k]);
    }
    forall d: nat, k | 0 <= k < |At(Clear(down, c), d)| ensures DownReady(inserted, At(Clear(down, c), d)[k]) {
      assert DownReady(inserted, At(down, d)[k]);
    }
  }

  lemma PresentPublics(s: State, p: Public, kind: Kind)
    requires Safe(s) && Present(s)
    ensures p !in s.server.kind ==> Present(OnPublicOpens(s, p, kind))
    ensures Present(OnPublicCloses(s, p))
  {
  }

  lemma PresentTunnelCloses(s: State, c: Conn)
    requires Present(s)
    ensures Present(OnTunnelCloses(s, c))
  {
    QueuesCleared(s.record.inserted, s.net.outbound, s.net.down, c);
  }

  lemma PresentHttpRequest(s: State, p: Public, c: Conn, service: string, i: Id, x: Bytes, upgrade: bool)
    requires Present(s) && i !in s.record.owner
    ensures Present(OnHttpRequest(s, p, c, service, i, x, upgrade))
  {
    OutboundPush(s.record.inserted, s.net.outbound, c, Request(i, x, Some(service), true, |At(s.record.chunks, i)|));
  }

  lemma PresentTcpChunk(s: State, p: Public, newId: Id, x: Bytes)
    requires Safe(s) && Present(s) && p in s.server.kind && s.server.kind[p].TcpPort?
      && (p in s.server.tcpFlag || newId !in s.record.owner)
    ensures Present(OnTcpChunk(s, p, newId, x))
  {
    var i, k := TcpId(s, p, newId), s.server.kind[p];
    OutboundGrow(s.record.inserted, s.record.inserted + {i}, s.net.outbound);
    DownGrow(s.record.inserted, s.record.inserted + {i}, s.net.down);
    OutboundPush(s.record.inserted + {i}, s.net.outbound, k.conn,
      Request(i, x, Some(k.service), false, |At(s.record.chunks, i)|));
  }

  lemma PresentWebSocketChunk(s: State, w: WebSocket, x: Bytes)
    requires Present(s)
    ensures Present(OnWebSocketChunk(s, w, x))
  {
    OutboundPush(s.record.inserted, s.net.outbound, w.conn,
      Request(w.id, x, None, false, |At(s.record.chunks, w.id)|));
  }

  lemma PresentWriteSucceeds(s: State, c: Conn)
    requires Safe(s) && Present(s) && At(s.net.outbound, c) != [] && At(s.net.listeners, c) != []
    ensures Present(OnWriteSucceeds(s, c))
  {
    var m, t := At(s.net.outbound, c)[0], OnWriteSucceeds(s, c);
    ListenersPop(s.record.owner, s.net.outbound, s.net.listeners, c);
    OutboundPop(s.record.inserted, s.net.outbound, c);
    OutboundGrow(s.record.inserted, t.record.inserted, t.net.outbound);
    DownGrow(s.record.inserted, t.record.inserted, s.net.down);
    DownPush(t.record.inserted, s.net.down, c, m);
  }

  lemma PresentWriteFails(s: State, c: Conn)
    requires Present(s) && At(s.net.outbound, c) != [] && At(s.net.listeners, c) != []
    ensures Present(OnWriteFails(s, c))
  {
    OutboundPop(s.record.inserted, s.net.outbound, c);
  }

  lemma PresentRequestForBackend(s: State, c: Conn, b: Backend, ok: bool)
    requires Present(s) && At(s.net.down, c) != []
    ensures Present(OnRequestForBackend(s, c, b, ok))
  {
    DownPop(s.record.inserted, s.net.down, c);
  }

  lemma PresentRequestForService(s: State, c: Conn)
    requires Present(s) && At(s.net.down, c) != [] && Opens(s, c, At(s.net.down, c)[0])
    ensures Present(OnRequestForService(s, c))
  {
    DownPop(s.record.inserted, s.net.down, c);
  }

  lemma PresentRequestDropped(s: State, c: Conn)
    requires Present(s) && At(s.net.down, c) != []
    ensures Present(OnRequestDropped(s, c))
  {
    DownPop(s.record.inserted, s.net.down, c);
  }

  lemma PresentRequestArrives(s: State, c: Conn, ok: bool)
    requires Present(s) && c in s.net.clientOf && At(s.net.down, c) != []
    ensures Present(OnRequestArrives(s, c, ok))
  {
    var key := (s.net.clientOf[c], At(s.net.down, c)[0].id);
    if key in s.client.clientMapping {
      PresentRequestForBackend(s, c, s.client.clientMapping[key], ok);
    } else if Opens(s, c, At(s.net.down, c)[0]) {
      PresentRequestForService(s, c);
    } else {
      PresentRequestDropped(s, c);
    }
  }

  lemma PresentConnect(s: State, k: nat, b: Backend, written: bool)
    requires Present(s) && k < |s.client.connects| && s.client.connects[k].conn in s.net.clientOf
      && b !in s.client.links
    ensures Present(OnConnectSucceeds(s, k, b, written)) && Present(OnConnectFails(s, k))
  {
  }

  lemma PresentStep(s: State, e: Event)
    requires Safe(s) && Present(s)
    ensures Present(Step(s, e))
  {
    if Enabled(s, e) {
      match e
      case TunnelCloses(c) => PresentTunnelCloses(s, c);
      case PublicOpens(p, kind) => PresentPublics(s, p, kind);
      case PublicCloses(p) => PresentPublics(s, p, RoutePort);
      case HttpRequest(p, c, service, i, x, upgrade) => PresentHttpRequest(s, p, c, service, i, x, upgrade);
      case TcpChunk(p, newId, x) => PresentTcpChunk(s, p, newId, x);
      case WebSocketChunk(p, x) => PresentWebSocketChunk(s, s.server.upgraded[p], x);
      case WriteCompletes(c, ok) => if ok { PresentWriteSucceeds(s, c); } else { PresentWriteFails(s, c); }
      case RequestArrives(c, ok) => PresentRequestArrives(s, c, ok);
      case ConnectCompletes(k, _, b, written) => PresentConnect(s, k, b, written);
      case _ =>
    }
  }

  // ------------------------------------------------ conservation

  /** For one id: what reached the public channel is a prefix of what the backends
      sent and, while both ends are open, the rest is on its way. */
  ghost predicate ConservedFor(o: Owner, i: Id, openPublics: set<Public>, openConns: set<Conn>,
                               delivered: seq<Message>, up: seq<Message>, sent: seq<Message>) {
    && Only(delivered, i) <= sent
    && (o.pub in openPublics && o.conn in openConns ==> Only(delivered, i) + Only(up, i) == sent)
  }

  ghost predicate Conserved(owner: Owners, openPublics: set<Public>, openConns: set<Conn>,
                            delivered: Queues, up: Queues, sent: Queues) {
    forall i {:trigger ConservedFor(owner[i], i, openPublics, openConns, At(delivered, owner[i].pub),
      At(up, owner[i].conn), At(sent, i))} ::
      i in owner ==>
        ConservedFor(owner[i], i, openPublics, openConns, At(delivered, owner[i].pub), At(up, owner[i].conn),
          At(sent, i))
  }

  ghost predicate AllConserved(s: State) {
    Conserved(s.record.owner, s.server.openPublics, s.net.openConns, s.record.delivered, s.net.up, s.record.sent)
  }

  lemma SentOwned(s: State, i: Id)
    requires Responses(s) && At(s.record.sent, i) != []
    ensures i in s.record.owner
  {
    assert SentResponse(s.record.owner, s.client.links, s.record.heard, i, At(s.record.sent, i)[0]);
  }

  lemma NothingForNewId(s: State, i: Id, p: Public, c: Conn)
    requires Responses(s) && i !in s.record.owner
    ensures Only(At(s.record.delivered, p), i) == [] && Only(At(s.net.up, c), i) == [] && At(s.record.sent, i) == []
  {
    forall k | 0 <= k < |At(s.record.delivered, p)| ensures At(s.record.delivered, p)[k].id != i {
      assert DeliveredResponse(s.record.owner, s.client.links, s.record.heard, p, At(s.record.delivered, p)[k]);
    }
    OnlyNone(At(s.record.delivered, p), i);
    forall k | 0 <= k < |At(s.net.up, c)| ensures At(s.net.up, c)[k].id != i {
      assert UpResponse(s.record.owner, s.client.links, s.record.heard, c, At(s.net.up, c)[k]);
    }
    OnlyNone(At(s.net.up, c), i);
    if At(s.record.sent, i) != [] {
      SentOwned(s, i);
    }
  }

  lemma ConservedNewId(s: State, i: Id, o: Owner)
    requires Responses(s) && AllConserved(s) && i !in s.record.owner
    ensures AllConserved(s.(record := s.record.(owner := s.record.owner[i := o])))
  {
    NothingForNewId(s, i, o.pub, o.conn);
    forall j | j in s.record.owner[i := o]
      ensures ConservedFor(s.record.owner[i := o][j], j, s.server.openPublics, s.net.openConns,
        At(s.record.delivered, s.record.owner[i := o][j].pub),
        At(s.net.up, s.record.owner[i := o][j].conn), At(s.record.sent, j))
    {
      assert j in s.record.owner ==>
        ConservedFor(s.record.owner[j], j, s.server.openPublics, s.net.openConns,
        At(s.record.delivered, s.record.owner[j].pub),
        At(s.net.up, s.record.owner[j].conn), At(s.record.sent, j));
    }
  }

  /** Closing, or opening something no id uses, keeps conservation. */
  lemma ConservedOpen(s: State, t: State)
    requires AllConserved(s) && t.record.owner == s.record.owner && t.record.delivered == s.record.delivered
      && t.record.sent == s.record.sent
    requires forall i :: i in s.record.owner && s.record.owner[i].pub in t.server.openPublics ==>
      s.record.owner[i].pub in s.server.openPublics
    requires forall i :: i in s.record.owner && s.record.owner[i].conn in t.net.openConns ==>
      s.record.owner[i].conn in s.net.openConns
    requires forall c: nat :: c in t.net.openConns ==> At(t.net.up, c) == At(s.net.up, c)
    ensures AllConserved(t)
  {
    forall i | i in t.record.owner
      ensures ConservedFor(t.record.owner[i], i, t.server.openPublics, t.net.openConns,
        At(t.record.delivered, t.record.owner[i].pub),
        At(t.net.up, t.record.owner[i].conn), At(t.record.sent, i))
    {
      assert ConservedFor(s.record.owner[i], i, s.server.openPublics, s.net.openConns,
        At(s.record.delivered, s.record.owner[i].pub),
        At(s.net.up, s.record.owner[i].conn), At(s.record.sent, i));
    }
  }

  lemma ReadKeeps(o: Owner, i: Id, publics: set<Public>, conns: set<Conn>, delivered: seq<Message>,
                  up: Queues, sent: Queues, c: Conn, m: Message)
    requires ConservedFor(o, i, publics, conns, delivered, At(up, o.conn), At(sent, i))
    requires m.id == i ==> o.conn == c
    ensures ConservedFor(o, i, publics, conns, delivered, At(Push(up, c, m), o.conn), At(Push(sent, m.id, m), i))
  {
    var u, all := At(Push(up, c, m), o.conn), At(Push(sent, m.id, m), i);
    OnlyPush(up, c, m, i);
    if m.id == i {
      assert Only(u, i) == Only(At(up, c), i) + [m] && all == At(sent, i) + [m];
      Extends(Only(delivered, i), Only(At(up, c), i), m, At(sent, i));
    } else {
      assert Only(u, i) == Only(At(up, o.conn), i) && all == At(sent, i);
    }
  }

  lemma Extends(d: seq<Message>, u: seq<Message>, m: Message, all: seq<Message>)
    requires d <= all
    ensures d <= all + [m] && (d + u == all ==> d + (u + [m]) == all + [m])
  {
  }

  lemma ConservedBackendReads(s: State, b: Backend, x: Bytes)
    requires LinksOk(s.record.owner, s.client.links) && AllConserved(s) && b in s.client.links
      && s.client.links[b].conn in s.net.openConns
    ensures AllConserved(OnBackendReads(s, b, x))
  {
    var l, t := s.client.links[b], OnBackendReads(s, b, x);
    var m := Response(l.id, x, b, |At(s.record.heard, b)|);
    forall i | i in t.record.owner
      ensures ConservedFor(t.record.owner[i], i, t.server.openPublics, t.net.openConns,
        At(t.record.delivered, t.record.owner[i].pub),
        At(t.net.up, t.record.owner[i].conn), At(t.record.sent, i))
    {
      assert ConservedFor(s.record.owner[i], i, s.server.openPublics, s.net.openConns,
        At(s.record.delivered, s.record.owner[i].pub),
        At(s.net.up, s.record.owner[i].conn), At(s.record.sent, i));
      ReadKeeps(s.record.owner[i], i, s.server.openPublics, s.net.openConns,
        At(s.record.delivered, s.record.owner[i].pub), s.net.up, s.record.sent, l.conn, m);
    }
  }

  lemma PrefixMoves(d: seq<Message>, m: Message, u: seq<Message>, all: seq<Message>)
    requires d + ([m] + u) == all
    ensures d + [m] <= all && (d + [m]) + u == all
  {
  }

  /** A response leaves the tunnel: one of another id changes nothing, one of this id is
      the next to reach the public channel. */
  lemma ArrivalKeeps(o: Owner, i: Id, publics: set<Public>, conns: set<Conn>, delivered: Queues, up: Queues,
                     sent: seq<Message>, c: Conn, p: Public)
    requires ConservedFor(o, i, publics, conns, At(delivered, o.pub), At(up, o.conn), sent)
    requires c in conns && At(up, c) != [] && (At(up, c)[0].id == i ==> o.conn == c && o.pub == p)
    ensures p in publics ==>
      ConservedFor(o, i, publics, conns, At(Push(delivered, p, At(up, c)[0]), o.pub), At(Pop(up, c), o.conn), sent)
    ensures p !in publics ==> ConservedFor(o, i, publics, conns, At(delivered, o.pub), At(Pop(up, c), o.conn), sent)
  {
    var m := At(up, c)[0];
    if m.id == i {
      OwnArrival(o, i, publics, conns, delivered, up, sent);
    } else {
      OtherArrival(delivered, up, c, p, i, o);
    }
  }

  lemma OwnArrival(o: Owner, i: Id, publics: set<Public>, conns: set<Conn>, delivered: Queues, up: Queues,
                   sent: seq<Message>)
    requires ConservedFor(o, i, publics, conns, At(delivered, o.pub), At(up, o.conn), sent)
    requires o.conn in conns && At(up, o.conn) != [] && At(up, o.conn)[0].id == i
    ensures o.pub in publics ==> ConservedFor(
      o, i, publics, conns, At(Push(delivered, o.pub, At(up, o.conn)[0]), o.pub), At(Pop(up, o.conn), o.conn), sent)
    ensures o.pub !in publics ==>
      ConservedFor(o, i, publics, conns, At(delivered, o.pub), At(Pop(up, o.conn), o.conn), sent)
  {
    var m := At(up, o.conn)[0];
    OnlyPop(up, o.conn, i);
    OnlyPush(delivered, o.pub, m, i);
    if o.pub in publics {
      PrefixMoves(Only(At(delivered, o.pub), i), m, Only(At(Pop(up, o.conn), o.conn), i), sent);
    }
  }

  lemma OtherArrival(delivered: Queues, up: Queues, c: Conn, p: Public, i: Id, o: Owner)
    requires At(up, c) != [] && At(up, c)[0].id != i
    ensures Only(At(Pop(up, c), o.conn), i) == Only(At(up, o.conn), i)
    ensures Only(At(Push(delivered, p, At(up, c)[0]), o.pub), i) == Only(At(delivered, o.pub), i)
  {
    OnlyPop(up, c, i);
    OnlyPush(delivered, p, At(up, c)[0], i);
  }

  lemma ConservedResponseArrives(s: State, c: Conn)
    requires UpOk(s.record.owner, s.client.links, s.record.heard, s.net.up)
      && MappingOk(s.record.owner, s.server.requestMapping)
    requires Present(s) && AllConserved(s) && c in s.net.openConns && At(s.net.up, c) != []
    ensures AllConserved(OnResponseArrives(s, c))
  {
    var m, t := At(s.net.up, c)[0], OnResponseArrives(s, c);
    assert UpResponse(s.record.owner, s.client.links, s.record.heard, c, m);
    var p := s.record.owner[m.id].pub;
    assert m.id in s.record.inserted;
    assert t.record.delivered == if p in s.server.openPublics then Push(s.record.delivered, p, m)
      else s.record.delivered;
    forall i | i in t.record.owner
      ensures ConservedFor(t.record.owner[i], i, t.server.openPublics, t.net.openConns,
        At(t.record.delivered, t.record.owner[i].pub),
        At(t.net.up, t.record.owner[i].conn), At(t.record.sent, i))
    {
      assert ConservedFor(s.record.owner[i], i, s.server.openPublics, s.net.openConns,
        At(s.record.delivered, s.record.owner[i].pub),
        At(s.net.up, s.record.owner[i].conn), At(s.record.sent, i));
      ArrivalKeeps(s.record.owner[i], i, s.server.openPublics, s.net.openConns, s.record.delivered, s.net.up,
        At(s.record.sent, i), c, p);
    }
  }

  lemma ConservedChannels(s: State, e: Event)
    requires Safe(s) && AllConserved(s) && Enabled(s, e)
    requires e.TunnelOpens? || e.TunnelCloses? || e.PublicOpens? || e.PublicCloses?
    ensures AllConserved(Do(s, e))
  {
    ConservedOpen(s, Do(s, e));
  }

  lemma ConservedTcpChunk(s: State, p: Public, newId: Id, x: Bytes)
    requires Responses(s) && AllConserved(s)
    requires p in s.server.kind && s.server.kind[p].TcpPort? && (p in s.server.tcpFlag || newId !in s.record.owner)
    ensures AllConserved(OnTcpChunk(s, p, newId, x))
  {
    if p !in s.server.tcpFlag {
      ConservedNewId(s, newId, Owner(p, s.server.kind[p].conn, s.server.kind[p].service));
    }
  }

  /** A step that leaves what conservation speaks about alone keeps it. */
  lemma ConservedKept(s: State, t: State)
    requires AllConserved(s)
    requires t.record.owner == s.record.owner && t.server.openPublics == s.server.openPublics
      && t.net.openConns == s.net.openConns
    requires t.record.delivered == s.record.delivered && t.net.up == s.net.up && t.record.sent == s.record.sent
    ensures AllConserved(t)
  {
  }

  lemma ConservedRequestArrives(s: State, c: Conn, ok: bool)
    requires AllConserved(s) && c in s.net.clientOf && At(s.net.down, c) != []
    ensures AllConserved(OnRequestArrives(s, c, ok))
  {
    var key := (s.net.clientOf[c], At(s.net.down, c)[0].id);
    if key in s.client.clientMapping {
      ConservedKept(s, OnRequestForBackend(s, c, s.client.clientMapping[key], ok));
    } else if Opens(s, c, At(s.net.down, c)[0]) {
      ConservedKept(s, OnRequestForService(s, c));
    } else {
      ConservedKept(s, OnRequestDropped(s, c));
    }
  }

  lemma ConservedStep(s: State, e: Event)
    requires Safe(s) && Present(s) && AllConserved(s)
    ensures AllConserved(Step(s, e))
  {
    if Enabled(s, e) {
      match e
      case HttpRequest(p, c, service, i, _, _) => ConservedNewId(s, i, Owner(p, c, service));
      case TcpChunk(p, newId, x) => ConservedTcpChunk(s, p, newId, x);
      case BackendReads(b, x) => if s.client.links[b].conn in s.net.openConns { ConservedBackendReads(s, b, x); }
      case ResponseArrives(c) => ConservedResponseArrives(s, c);
      case TunnelOpens(_, _, _) => ConservedChannels(s, e);
      case TunnelCloses(_) => ConservedChannels(s, e);
      case PublicOpens(_, _) => ConservedChannels(s, e);
      case PublicCloses(_) => ConservedChannels(s, e);
      case ServiceAdded(_, _, _) =>
      case ServiceRemoved(_, _) =>
      case WebSocketChunk(p, x) =>
      case WriteCompletes(c, ok) => ConservedKept(s, if ok then OnWriteSucceeds(s, c) else OnWriteFails(s, c));
      case RequestArrives(c, ok) => ConservedRequestArrives(s, c, ok);
      case ConnectCompletes(k, ok, b, written) =>
        ConservedKept(s, if ok then OnConnectSucceeds(s, k, b, written) else OnConnectFails(s, k));
      case BackendCloses(_) =>
      case BackendUnmapped(_) =>
    }
  }
}
