/** Request order: what backends are given for one id, against the chunks its public
    channel sent.  Two histories decide it.  `raced` holds the ids for which a second
    connect was started while one was pending; `lost` holds the ids one of whose
    requests was dropped or whose write or connect failed. */
module ForwardingOrder {
  import opened Basics
  import opened Forwarding
  import opened ForwardingSafety
  import opened ForwardingConservation

  // ------------------------------------------------ what one id has where

  /** What the backends of an id were given, backend after backend in the order in
      which they were opened. */
  function Given(backends: seq<Backend>, inputs: Queues): seq<Message> {
    if backends == [] then [] else Given(backends[..|backends| - 1], inputs) + At(inputs, backends[|backends| - 1])
  }

  /** The requests of an id that wait for their own connect, oldest first. */
  function Waiting(connects: seq<Connect>, i: Id): seq<Message> {
    if connects == [] then [] else
      var rest, n := Waiting(connects[..|connects| - 1], i), connects[|connects| - 1];
      if n.request.id == i then rest + [n.request] else rest
  }

  function Arrived(s: State, i: Id): seq<Message> {
    Given(At(s.record.openings, i), s.record.inputs) + Waiting(s.client.connects, i)
  }

  function Travelling(s: State, i: Id, c: Conn): seq<Message> {
    Only(At(s.net.down, c), i) + Only(At(s.net.outbound, c), i)
  }

  ghost predicate Increasing(q: seq<Message>) {
    forall a, b :: 0 <= a < b < |q| ==> q[a].no < q[b].no
  }

  ghost predicate Exact(q: seq<Message>) {
    forall k :: 0 <= k < |q| ==> q[k].no == k
  }

  ghost predicate Below(q: seq<Message>, n: nat) {
    forall k :: 0 <= k < |q| ==> q[k].no < n
  }

  /** The order of one id: chunk numbers increase along the whole way and, if nothing
      was lost, no number is missing. */
  ghost predicate Ordered(arrived: seq<Message>, travelling: seq<Message>, count: nat, raced: bool, lost: bool,
    open: bool) {
    !raced ==>
      && Increasing(arrived + travelling)
      && (!lost ==> Exact(arrived))
      && (!lost && open ==> Exact(arrived + travelling) && |arrived + travelling| == count)
  }

  lemma OrderedAppends(a: seq<Message>, t: seq<Message>, n: nat, m: Message, raced: bool, lost: bool)
    requires Ordered(a, t, n, raced, lost, true) && Below(a + t, n) && m.no == n
    ensures Ordered(a, t + [m], n + 1, raced, lost, true)
  {
    assert a + (t + [m]) == (a + t) + [m];
  }

  lemma OrderedLoses(a: seq<Message>, t1: seq<Message>, m: Message, t2: seq<Message>, n: nat, raced: bool, lost: bool,
    open: bool)
    requires Ordered(a, t1 + [m] + t2, n, raced, lost, open)
    ensures Ordered(a, t1 + t2, n, raced, true, open)
  {
    var q, r := a + (t1 + [m] + t2), a + (t1 + t2);
    forall x, y | 0 <= x < y < |r| && !raced ensures r[x].no < r[y].no {
      var cut := |a| + |t1|;
      assert r[x] == q[if x < cut then x else x + 1];
      assert r[y] == q[if y < cut then y else y + 1];
    }
  }

  lemma OrderedArrives(a: seq<Message>, m: Message, t: seq<Message>, n: nat, raced: bool, lost: bool)
    requires Ordered(a, [m] + t, n, raced, lost, true)
    ensures Ordered(a + [m], t, n, raced, lost, true)
  {
    assert (a + [m]) + t == a + ([m] + t);
    assert Exact(a + ([m] + t)) ==> Exact(a + [m]) by {
      forall k | 0 <= k < |a + [m]| ensures (a + [m])[k] == (a + ([m] + t))[k] {
      }
    }
  }

  lemma OrderedLosesArrived(a1: seq<Message>, m: Message, a2: seq<Message>, t: seq<Message>, n: nat, raced: bool,
    lost: bool, open: bool)
    requires Ordered(a1 + [m] + a2, t, n, raced, lost, open)
    ensures Ordered(a1 + a2, t, n, raced, true, open)
  {
    var q, r := (a1 + [m] + a2) + t, (a1 + a2) + t;
    forall x, y | 0 <= x < y < |r| && !raced ensures r[x].no < r[y].no {
      assert r[x] == q[if x < |a1| then x else x + 1];
      assert r[y] == q[if y < |a1| then y else y + 1];
    }
  }

  lemma OrderedCloses(a: seq<Message>, t: seq<Message>, n: nat, raced: bool, lost: bool, open: bool)
    requires Ordered(a, t, n, raced, lost, open)
    ensures Ordered(a, [], n, raced, lost, false) && Ordered(a, [], n + 1, raced, true, false)
  {
    assert a + [] == a;
    forall x, y | 0 <= x < y < |a| && !raced ensures a[x].no < a[y].no {
      assert a[x] == (a + t)[x] && a[y] == (a + t)[y];
    }
  }

  lemma {:induction false} WaitingConcat(a: seq<Connect>, b: seq<Connect>, i: Id)
    ensures Waiting(a + b, i) == Waiting(a, i) + Waiting(b, i)
  {
    if b == [] {
      assert a + b == a;
    } else {
      WaitingConcat(a, b[..|b| - 1], i);
      assert (a + b)[..|a + b| - 1] == a + b[..|b| - 1];
    }
  }

  lemma WaitingOne(n: Connect, i: Id)
    ensures Waiting([n], i) == if n.request.id == i then [n.request] else []
  {
    assert [n][..0] == [];
  }

  lemma WaitingSplit(q: seq<Connect>, k: nat, i: Id)
    requires k < |q|
    ensures Waiting(q, i)
      == Waiting(q[..k], i) + (if q[k].request.id == i then [q[k].request] else []) + Waiting(q[k + 1..], i)
  {
    assert q == (q[..k] + [q[k]]) + q[k + 1..];
    WaitingConcat(q[..k] + [q[k]], q[k + 1..], i);
    WaitingConcat(q[..k], [q[k]], i);
    WaitingOne(q[k], i);
  }

  lemma {:induction false} WaitingConnects(q: seq<Connect>, i: Id)
    ensures Waiting(q, i) != [] <==> IsConnecting(q, i)
  {
    if q != [] {
      var before := q[..|q| - 1];
      WaitingConnects(before, i);
      if IsConnecting(before, i) {
        var k :| 0 <= k < |before| && before[k].request.id == i;
        assert q[k].request.id == i;
      }
    }
  }

  lemma {:induction false} GivenSame(backends: seq<Backend>, inputs: Queues, inputs': Queues)
    requires forall k :: 0 <= k < |backends| ==> At(inputs, backends[k]) == At(inputs', backends[k])
    ensures Given(backends, inputs) == Given(backends, inputs')
  {
    if backends != [] {
      GivenSame(backends[..|backends| - 1], inputs, inputs');
    }
  }

  /** Only the last opened backend of an id is written to, so what is written goes to
      the end of what was given. */
  lemma GivenPush(backends: seq<Backend>, inputs: Queues, b: Backend, m: Message)
    requires NoDuplicates(backends) && backends != [] && backends[|backends| - 1] == b
    ensures Given(backends, Push(inputs, b, m)) == Given(backends, inputs) + [m]
  {
    GivenSame(backends[..|backends| - 1], inputs, Push(inputs, b, m));
  }

  // ------------------------------------------------ which backend is the last one

  ghost predicate OpeningsOk(openings: map<Id, seq<Backend>>, links: Links) {
    forall i: nat, k {:trigger At(openings, i)[k]} :: 0 <= k < |At(openings, i)| ==>
      At(openings, i)[k] in links && links[At(openings, i)[k]].id == i
  }

  ghost predicate OpeningsDistinct(openings: map<Id, seq<Backend>>) {
    forall i: nat {:trigger At(openings, i)} :: NoDuplicates(At(openings, i))
  }

  /** The backend mapped under an id is the last one opened for it. */
  ghost predicate LastMapped(openings: map<Id, seq<Backend>>, mapping: map<(Client, Id), Backend>) {
    forall key {:trigger mapping[key]} :: key in mapping ==>
      At(openings, key.1) != [] && At(openings, key.1)[|At(openings, key.1)| - 1] == mapping[key]
  }

  /** While no id raced, it has at most one pending connect, and none once mapped. */
  ghost predicate OneConnect(owner: Owners, clientOf: map<Conn, Client>, mapping: map<(Client, Id), Backend>,
                             connects: seq<Connect>, raced: set<Id>) {
    forall i {:trigger Waiting(connects, i)} :: i in owner && i !in raced ==>
      && |Waiting(connects, i)| <= 1
      && (owner[i].conn in clientOf && (clientOf[owner[i].conn], i) in mapping ==> Waiting(connects, i) == [])
  }

  ghost predicate Openings(s: State) {
    && OpeningsOk(s.record.openings, s.client.links)
    && OpeningsDistinct(s.record.openings)
    && LastMapped(s.record.openings, s.client.clientMapping)
    && OneConnect(s.record.owner, s.net.clientOf, s.client.clientMapping, s.client.connects, s.record.raced)
  }

  lemma OpeningsNewId(s: State, i: Id, o: Owner)
    requires Safe(s) && Openings(s) && i !in s.record.owner
    ensures OneConnect(s.record.owner[i := o], s.net.clientOf, s.client.clientMapping, s.client.connects,
      s.record.raced)
  {
    NothingWaiting(s, i);
    if o.conn in s.net.clientOf && (s.net.clientOf[o.conn], i) in s.client.clientMapping {
      assert s.client.links[s.client.clientMapping[(s.net.clientOf[o.conn], i)]].id == i;
    }
  }

  lemma NothingWaiting(s: State, i: Id)
    requires Requests(s) && i !in s.record.owner
    ensures Waiting(s.client.connects, i) == []
  {
    WaitingConnects(s.client.connects, i);
    forall k | 0 <= k < |s.client.connects| ensures s.client.connects[k].request.id != i {
      assert ConnectOk(s.record.owner, s.record.chunks, s.client.connects[k]);
    }
  }

  lemma OpeningsTunnelOpens(s: State, c: Conn, client: Client, services: map<string, Service>)
    requires Safe(s) && Openings(s) && c !in s.net.clientOf
    ensures Openings(OnTunnelOpens(s, c, client, services))
  {
  }

  lemma OpeningsHttpRequest(s: State, p: Public, c: Conn, service: string, i: Id, x: Bytes, upgrade: bool)
    requires Safe(s) && Openings(s) && i !in s.record.owner
    ensures Openings(OnHttpRequest(s, p, c, service, i, x, upgrade))
  {
    OpeningsNewId(s, i, Owner(p, c, service));
  }

  lemma OpeningsTcpChunk(s: State, p: Public, newId: Id, x: Bytes)
    requires Safe(s) && Openings(s) && p in s.server.kind && s.server.kind[p].TcpPort?
    requires p in s.server.tcpFlag || newId !in s.record.owner
    ensures Openings(OnTcpChunk(s, p, newId, x))
  {
    if p !in s.server.tcpFlag {
      OpeningsNewId(s, newId, Owner(p, s.server.kind[p].conn, s.server.kind[p].service));
    }
  }

  lemma OpeningsRequestForService(s: State, c: Conn)
    requires Safe(s) && Openings(s) && c in s.net.clientOf && At(s.net.down, c) != []
      && Opens(s, c, At(s.net.down, c)[0])
    requires (s.net.clientOf[c], At(s.net.down, c)[0].id) !in s.client.clientMapping
    ensures Openings(OnRequestForService(s, c))
  {
    var m, t := At(s.net.down, c)[0], OnRequestForService(s, c);
    QueuesPop(s.record.owner, s.record.chunks, s.net.down, c);
    WaitingConnects(s.client.connects, m.id);
    var n := t.client.connects[|s.client.connects|];
    forall i | i in t.record.owner && i !in t.record.raced
      ensures |Waiting(t.client.connects, i)| <= 1
      ensures t.record.owner[i].conn in t.net.clientOf ==>
        (t.net.clientOf[t.record.owner[i].conn], i) in t.client.clientMapping ==> Waiting(t.client.connects, i) == []
    {
      WaitingConcat(s.client.connects, [n], i);
      WaitingOne(n, i);
    }
  }

  lemma OneConnectRemoves(s: State, k: nat)
    requires Openings(s) && k < |s.client.connects|
    ensures var rest := s.client.connects[..k] + s.client.connects[k + 1..];
      && OneConnect(s.record.owner, s.net.clientOf, s.client.clientMapping, rest, s.record.raced)
      && (s.client.connects[k].request.id in s.record.owner && s.client.connects[k].request.id !in s.record.raced ==>
            Waiting(rest, s.client.connects[k].request.id) == [])
  {
    var rest := s.client.connects[..k] + s.client.connects[k + 1..];
    forall i | i in s.record.owner && i !in s.record.raced
      ensures |Waiting(rest, i)| <= 1
      ensures s.record.owner[i].conn in s.net.clientOf ==>
        (s.net.clientOf[s.record.owner[i].conn], i) in s.client.clientMapping ==> Waiting(rest, i) == []
      ensures i == s.client.connects[k].request.id ==> Waiting(rest, i) == []
    {
      WaitingSplit(s.client.connects, k, i);
      WaitingConcat(s.client.connects[..k], s.client.connects[k + 1..], i);
    }
  }

  lemma OpeningsConnectSucceeds(s: State, k: nat, b: Backend, written: bool)
    requires Safe(s) && Openings(s) && k < |s.client.connects| && s.client.connects[k].conn in s.net.clientOf
      && b !in s.client.links
    ensures Openings(OnConnectSucceeds(s, k, b, written))
  {
    OneConnectRemoves(s, k);
    var n := s.client.connects[k];
    assert ConnectOk(s.record.owner, s.record.chunks, n);
    LastMappedPush(s, n, b);
    OpeningsPush(s.record.openings, s.client.links, n.request.id, b, Link(n.request.id, n.conn, n.target));
  }

  lemma LastMappedPush(s: State, n: Connect, b: Backend)
    requires Channels(s) && LastMapped(s.record.openings, s.client.clientMapping) && n.conn in s.net.clientOf
    requires n.request.id in s.record.owner && s.record.owner[n.request.id].conn == n.conn
    ensures LastMapped(Push(s.record.openings, n.request.id, b),
      s.client.clientMapping[(s.net.clientOf[n.conn], n.request.id) := b])
  {
  }

  lemma OpeningsPush(openings: map<Id, seq<Backend>>, links: Links, i: Id, b: Backend, link: Link)
    requires OpeningsOk(openings, links) && OpeningsDistinct(openings) && b !in links && link.id == i
    ensures OpeningsOk(Push(openings, i, b), links[b := link]) && OpeningsDistinct(Push(openings, i, b))
  {
    forall j: nat ensures NoDuplicates(At(Push(openings, i, b), j)) {
      assert NoDuplicates(At(openings, j));
    }
  }

  lemma OpeningsConnectFails(s: State, k: nat)
    requires Openings(s) && k < |s.client.connects|
    ensures Openings(OnConnectFails(s, k))
  {
    OneConnectRemoves(s, k);
  }

  lemma OpeningsRequestArrives(s: State, c: Conn, ok: bool)
    requires Safe(s) && Openings(s) && c in s.net.clientOf && At(s.net.down, c) != []
    ensures Openings(OnRequestArrives(s, c, ok))
  {
    var key := (s.net.clientOf[c], At(s.net.down, c)[0].id);
    if key in s.client.clientMapping {
    } else if Opens(s, c, At(s.net.down, c)[0]) {
      OpeningsRequestForService(s, c);
    } else {
    }
  }

  lemma OpeningsBackendUnmapped(s: State, b: Backend)
    requires Openings(s) && b in s.client.links && s.client.links[b].conn in s.net.clientOf
    ensures Openings(OnBackendUnmapped(s, b))
  {
  }

  lemma OpeningsStep(s: State, e: Event)
    requires Safe(s) && Openings(s)
    ensures Openings(Step(s, e))
  {
    if Enabled(s, e) {
      match e
      case TunnelOpens(c, client, services) => OpeningsTunnelOpens(s, c, client, services);
      case HttpRequest(p, c, service, i, x, upgrade) => OpeningsHttpRequest(s, p, c, service, i, x, upgrade);
      case TcpChunk(p, newId, x) => OpeningsTcpChunk(s, p, newId, x);
      case RequestArrives(c, ok) => OpeningsRequestArrives(s, c, ok);
      case ConnectCompletes(k, ok, b, written) =>
        if ok { OpeningsConnectSucceeds(s, k, b, written); } else { OpeningsConnectFails(s, k); }
      case BackendUnmapped(b) => OpeningsBackendUnmapped(s, b);
      case _ =>
    }
  }

  // ------------------------------------------------ chunk numbers in use

  lemma {:induction false} OnlyBelow(q: seq<Message>, i: Id, n: nat)
    requires forall k :: 0 <= k < |q| ==> q[k].id == i ==> q[k].no < n
    ensures Below(Only(q, i), n)
  {
    if q != [] {
      OnlyBelow(q[..|q| - 1], i, n);
    }
  }

  lemma {:induction false} WaitingBelow(q: seq<Connect>, i: Id, n: nat)
    requires forall k :: 0 <= k < |q| ==> q[k].request.id == i ==> q[k].request.no < n
    ensures Below(Waiting(q, i), n)
  {
    if q != [] {
      WaitingBelow(q[..|q| - 1], i, n);
    }
  }

  lemma {:induction false} GivenBelow(backends: seq<Backend>, inputs: Queues, n: nat)
    requires forall k :: 0 <= k < |backends| ==> Below(At(inputs, backends[k]), n)
    ensures Below(Given(backends, inputs), n)
  {
    if backends != [] {
      GivenBelow(backends[..|backends| - 1], inputs, n);
    }
  }

  lemma InUse(s: State, i: Id, c: Conn)
    requires Safe(s) && OpeningsOk(s.record.openings, s.client.links)
    ensures Below(Arrived(s, i) + Travelling(s, i, c), |At(s.record.chunks, i)|)
  {
    var n := |At(s.record.chunks, i)|;
    QueueBelow(s.record.owner, s.record.chunks, s.net.down, c, i);
    QueueBelow(s.record.owner, s.record.chunks, s.net.outbound, c, i);
    forall k | 0 <= k < |s.client.connects|
      ensures s.client.connects[k].request.id == i ==> s.client.connects[k].request.no < n {
      assert ConnectOk(s.record.owner, s.record.chunks, s.client.connects[k]);
    }
    WaitingBelow(s.client.connects, i, n);
    var backends := At(s.record.openings, i);
    forall k | 0 <= k < |backends| ensures Below(At(s.record.inputs, backends[k]), n) {
      InputBelow(s, backends[k]);
    }
    GivenBelow(backends, s.record.inputs, n);
  }

  lemma QueueBelow(owner: Owners, chunks: Chunks, q: Queues, c: nat, i: Id)
    requires QueuesOk(owner, chunks, q)
    ensures Below(Only(At(q, c), i), |At(chunks, i)|)
  {
    assert RequestsOk(owner, chunks, c, At(q, c));
    forall k | 0 <= k < |At(q, c)| ensures At(q, c)[k].id == i ==> At(q, c)[k].no < |At(chunks, i)| {
      assert RequestOk(owner, chunks, c, At(q, c)[k]);
    }
    OnlyBelow(At(q, c), i, |At(chunks, i)|);
  }

  lemma InputBelow(s: State, b: Backend)
    requires Safe(s) && b in s.client.links
    ensures Below(At(s.record.inputs, b), |At(s.record.chunks, s.client.links[b].id)|)
  {
    var q, link := At(s.record.inputs, b), s.client.links[b];
    assert InputOk(s.record.owner, s.record.chunks, link, q);
    forall k | 0 <= k < |q| ensures q[k].no < |At(s.record.chunks, link.id)| {
      assert RequestOk(s.record.owner, s.record.chunks, link.conn, q[k]);
    }
  }

  // ------------------------------------------------ order, step by step

  ghost predicate Tracks(s: State, i: Id)
    requires i in s.record.owner
  {
    var c := s.record.owner[i].conn;
    Ordered(Arrived(s, i), Travelling(s, i, c), |At(s.record.chunks, i)|, i in s.record.raced, i in s.record.lost,
      c in s.net.openConns)
  }

  ghost predicate InOrder(s: State) {
    forall i {:trigger Tracks(s, i)} :: i in s.record.owner ==> Tracks(s, i)
  }

  /** Nothing of an id exists before the id does. */
  lemma TracksNewId(s: State, i: Id, o: Owner)
    requires Safe(s) && Openings(s) && i !in s.record.owner
    ensures Tracks(s.(record := s.record.(owner := s.record.owner[i := o])), i)
  {
    NothingWaiting(s, i);
    NothingQueued(s, s.net.down, o.conn, i);
    NothingQueued(s, s.net.outbound, o.conn, i);
    if At(s.record.openings, i) != [] {
      OpeningOwned(s, i);
    }
  }

  lemma OpeningOwned(s: State, i: Id)
    requires Safe(s) && Openings(s) && At(s.record.openings, i) != []
    ensures i in s.record.owner
  {
    var b := At(s.record.openings, i)[0];
    assert s.client.links[b].id == i;
  }

  lemma NothingQueued(s: State, q: Queues, c: Conn, i: Id)
    requires QueuesOk(s.record.owner, s.record.chunks, q) && i !in s.record.owner
    ensures Only(At(q, c), i) == []
  {
    assert RequestsOk(s.record.owner, s.record.chunks, c, At(q, c));
    forall k | 0 <= k < |At(q, c)| ensures At(q, c)[k].id != i {
      assert RequestOk(s.record.owner, s.record.chunks, c, At(q, c)[k]);
    }
    OnlyNone(At(q, c), i);
  }

  lemma InOrderNewId(s: State, i: Id, o: Owner)
    requires Safe(s) && Openings(s) && InOrder(s) && i !in s.record.owner
    ensures InOrder(s.(record := s.record.(owner := s.record.owner[i := o])))
  {
    var t := s.(record := s.record.(owner := s.record.owner[i := o]));
    TracksNewId(s, i, o);
    forall j | j in t.record.owner ensures Tracks(t, j) {
      assert j in s.record.owner ==> Tracks(s, j);
    }
  }

  lemma TravellingPush(down: Queues, outbound: Queues, c: Conn, m: Message, i: Id)
    ensures Only(At(down, c), i) + Only(At(Push(outbound, c, m), c), i)
         == (Only(At(down, c), i) + Only(At(outbound, c), i)) + (if m.id == i then [m] else [])
  {
    OnlyPush(outbound, c, m, i);
  }

  lemma OnlyMoves(down: seq<Message>, outbound: seq<Message>, i: Id)
    requires outbound != []
    ensures Only(down + [outbound[0]], i) + Only(outbound[1..], i) == Only(down, i) + Only(outbound, i)
  {
    OnlyConcat(down, [outbound[0]], i);
    OnlyConcat([outbound[0]], outbound[1..], i);
    assert outbound == [outbound[0]] + outbound[1..];
    var d, x, r := Only(down, i), Only([outbound[0]], i), Only(outbound[1..], i);
    assert (d + x) + r == d + (x + r);
  }

  lemma TravellingMoves(down: Queues, outbound: Queues, c: Conn, i: Id)
    requires At(outbound, c) != []
    ensures Only(At(Push(down, c, At(outbound, c)[0]), c), i) + Only(At(Pop(outbound, c), c), i)
         == Only(At(down, c), i) + Only(At(outbound, c), i)
  {
    OnlyMoves(At(down, c), At(outbound, c), i);
    assert At(Pop(outbound, c), c) == At(outbound, c)[1..];
  }

  lemma TracksWrite(s: State, i: Id, x: Bytes, service: Option<string>, http: bool,
    l: Option<Listener>)
    requires Safe(s) && Openings(s) && i in s.record.owner && Tracks(s, i)
    ensures Tracks(Write(Log(s, i, x), s.record.owner[i].conn, Request(i, x, service, http, |At(s.record.chunks, i)|),
      l),
      i)
  {
    var c, m := s.record.owner[i].conn, Request(i, x, service, http, |At(s.record.chunks, i)|);
    var t := Write(Log(s, i, x), c, m, l);
    if c in s.net.openConns {
      InUse(s, i, c);
      TravellingPush(s.net.down, s.net.outbound, c, m, i);
      OrderedAppends(Arrived(s, i), Travelling(s, i, c), |At(s.record.chunks, i)|, m, i in s.record.raced,
        i in s.record.lost);
      assert Arrived(t, i) == Arrived(s, i) && Travelling(t, i, c) == Travelling(s, i, c) + [m];
    }
  }

  lemma InOrderWrite(s: State, i: Id, x: Bytes, service: Option<string>, http: bool,
    l: Option<Listener>)
    requires Safe(s) && Openings(s) && InOrder(s) && i in s.record.owner
    ensures InOrder(Write(Log(s, i, x), s.record.owner[i].conn, Request(i, x, service, http, |At(s.record.chunks, i)|),
      l))
  {
    var c, m := s.record.owner[i].conn, Request(i, x, service, http, |At(s.record.chunks, i)|);
    var t := Write(Log(s, i, x), c, m, l);
    assert Tracks(s, i);
    TracksWrite(s, i, x, service, http, l);
    forall j | j in t.record.owner ensures Tracks(t, j) {
      if j != i {
        assert Tracks(s, j);
        TravellingPush(s.net.down, s.net.outbound, c, m, j);
        assert Travelling(t, j, s.record.owner[j].conn) == Travelling(s, j, s.record.owner[j].conn);
      }
    }
  }

  lemma InOrderWriteSucceeds(s: State, c: Conn)
    requires InOrder(s) && At(s.net.outbound, c) != [] && At(s.net.listeners, c) != []
    ensures InOrder(OnWriteSucceeds(s, c))
  {
    var t := OnWriteSucceeds(s, c);
    forall j | j in t.record.owner ensures Tracks(t, j) {
      assert Tracks(s, j);
      TravellingMoves(s.net.down, s.net.outbound, c, j);
      assert Travelling(t, j, s.record.owner[j].conn) == Travelling(s, j, s.record.owner[j].conn);
    }
  }

  lemma TracksWriteFails(s: State, c: Conn)
    requires At(s.net.outbound, c) != [] && At(s.net.listeners, c) != []
      && At(s.net.outbound, c)[0].id in s.record.owner
    requires s.record.owner[At(s.net.outbound, c)[0].id].conn == c && Tracks(s, At(s.net.outbound, c)[0].id)
    ensures Tracks(OnWriteFails(s, c), At(s.net.outbound, c)[0].id)
  {
    var m, t := At(s.net.outbound, c)[0], OnWriteFails(s, c);
    var before, after := Only(At(s.net.down, c), m.id), Only(At(t.net.outbound, c), m.id);
    OnlyPop(s.net.outbound, c, m.id);
    assert Travelling(s, m.id, c) == before + [m] + after;
    OrderedLoses(Arrived(s, m.id), before, m, after, |At(s.record.chunks, m.id)|,
                 m.id in s.record.raced, m.id in s.record.lost, c in s.net.openConns);
  }

  lemma InOrderWriteFails(s: State, c: Conn)
    requires Safe(s) && InOrder(s) && At(s.net.outbound, c) != [] && At(s.net.listeners, c) != []
    ensures InOrder(OnWriteFails(s, c))
  {
    var m, t := At(s.net.outbound, c)[0], OnWriteFails(s, c);
    QueuesPop(s.record.owner, s.record.chunks, s.net.outbound, c);
    forall j | j in t.record.owner ensures Tracks(t, j) {
      assert Tracks(s, j);
      if j == m.id {
        TracksWriteFails(s, c);
      } else {
        OnlyPop(s.net.outbound, c, j);
        assert Travelling(t, j, s.record.owner[j].conn) == Travelling(s, j, s.record.owner[j].conn);
      }
    }
  }

  /** The first request of a tunnel leaves it. */
  lemma TravellingPops(s: State, t: State, c: Conn)
    requires At(s.net.down, c) != [] && t.net.down == Pop(s.net.down, c) && t.net.outbound == s.net.outbound
    ensures var m := At(s.net.down, c)[0]; Travelling(s, m.id, c) == [m] + Travelling(t, m.id, c)
  {
    OnlyPop(s.net.down, c, At(s.net.down, c)[0].id);
  }

  // It comes to the end of what arrived, or is lost.
  lemma TracksArrives(s: State, t: State, c: Conn)
    requires At(s.net.down, c) != [] && t.net.down == Pop(s.net.down, c) && t.net.outbound == s.net.outbound
    requires t.net.openConns == s.net.openConns && c in s.net.openConns
    requires t.record.owner == s.record.owner && t.record.chunks == s.record.chunks
    requires var i := At(s.net.down, c)[0].id; i in s.record.owner && s.record.owner[i].conn == c && Tracks(s, i)
    requires var i := At(s.net.down, c)[0].id;
      && (Arrived(t, i) == Arrived(s, i) + [At(s.net.down, c)[0]]
        || (i in t.record.lost && Arrived(t, i) == Arrived(s, i)))
      && (i in s.record.raced ==> i in t.record.raced) && (i in s.record.lost ==> i in t.record.lost)
    ensures Tracks(t, At(s.net.down, c)[0].id)
  {
    var m := At(s.net.down, c)[0];
    TravellingPops(s, t, c);
    ArrivesOrIsLost(Arrived(s, m.id), m, Travelling(t, m.id, c), Arrived(t, m.id), |At(s.record.chunks, m.id)|,
      m.id in s.record.raced, m.id in t.record.raced, m.id in s.record.lost, m.id in t.record.lost);
  }

  lemma ArrivesOrIsLost(arrived: seq<Message>, m: Message, rest: seq<Message>, after: seq<Message>, n: nat,
    raced: bool, raced': bool, lost: bool, lost': bool)
    requires Ordered(arrived, [m] + rest, n, raced, lost, true) && (raced ==> raced') && (lost ==> lost')
    requires after == arrived + [m] || (lost' && after == arrived)
    ensures Ordered(after, rest, n, raced', lost', true)
  {
    if after == arrived + [m] {
      OrderedArrives(arrived, m, rest, n, raced, lost);
    } else {
      assert [m] + rest == [] + [m] + rest && [] + rest == rest;
      OrderedLoses(arrived, [], m, rest, n, raced, lost, true);
    }
  }

  lemma OrderedSame(a: seq<Message>, b: seq<Message>, q: seq<Message>, r: seq<Message>, n: nat, raced: bool,
    lost: bool, open: bool)
    requires Ordered(a, q, n, raced, lost, open) && b == a && r == q
    ensures Ordered(b, r, n, raced, lost, open)
  {
  }

  /** What arrives for one id changes nothing for another. */
  lemma TracksOther(s: State, t: State, c: Conn, j: Id)
    requires At(s.net.down, c) != [] && t.net.down == Pop(s.net.down, c) && t.net.outbound == s.net.outbound
    requires t.net.openConns == s.net.openConns && t.record.owner == s.record.owner
      && t.record.chunks == s.record.chunks
    requires j in s.record.owner && j != At(s.net.down, c)[0].id && Tracks(s, j) && Arrived(t, j) == Arrived(s, j)
    requires (j in t.record.raced <==> j in s.record.raced) && (j in t.record.lost <==> j in s.record.lost)
    ensures Tracks(t, j)
  {
    var d := s.record.owner[j].conn;
    TravellingKeeps(s, t, c, j, d);
    OrderedSame(Arrived(s, j), Arrived(t, j), Travelling(s, j, d), Travelling(t, j, d), |At(s.record.chunks, j)|,
      j in s.record.raced, j in s.record.lost, d in s.net.openConns);
  }

  lemma TravellingKeeps(s: State, t: State, c: Conn, j: Id, d: Conn)
    requires At(s.net.down, c) != [] && t.net.down == Pop(s.net.down, c) && t.net.outbound == s.net.outbound
    requires j != At(s.net.down, c)[0].id
    ensures Travelling(t, j, d) == Travelling(s, j, d)
  {
    OnlyPop(s.net.down, c, j);
    assert Only(At(t.net.down, d), j) == Only(At(s.net.down, d), j);
  }

  lemma InOrderRequestDropped(s: State, c: Conn)
    requires Safe(s) && InOrder(s) && At(s.net.down, c) != [] && c in s.net.openConns
    ensures InOrder(OnRequestDropped(s, c))
  {
    var t, i := OnRequestDropped(s, c), At(s.net.down, c)[0].id;
    QueuesPop(s.record.owner, s.record.chunks, s.net.down, c);
    forall j | j in t.record.owner ensures Tracks(t, j) {
      assert Tracks(s, j);
      if j == i { TracksArrives(s, t, c); } else { TracksOther(s, t, c, j); }
    }
  }

  lemma ArrivedConnects(s: State, c: Conn, j: Id)
    requires At(s.net.down, c) != [] && Opens(s, c, At(s.net.down, c)[0])
    ensures var m := At(s.net.down, c)[0];
      Arrived(OnRequestForService(s, c), j) == Arrived(s, j) + (if m.id == j then [m] else [])
  {
    var t, m := OnRequestForService(s, c), At(s.net.down, c)[0];
    var n := Connect(m, c, s.client.forward[c][m.service.value]);
    WaitingConcat(s.client.connects, [n], j);
    WaitingOne(n, j);
  }

  lemma InOrderRequestForService(s: State, c: Conn)
    requires Safe(s) && InOrder(s) && At(s.net.down, c) != [] && c in s.net.openConns
      && Opens(s, c, At(s.net.down, c)[0])
    ensures InOrder(OnRequestForService(s, c))
  {
    var t, i := OnRequestForService(s, c), At(s.net.down, c)[0].id;
    QueuesPop(s.record.owner, s.record.chunks, s.net.down, c);
    forall j | j in t.record.owner ensures Tracks(t, j) {
      assert Tracks(s, j);
      ArrivedConnects(s, c, j);
      if j == i { TracksArrives(s, t, c); } else { TracksOther(s, t, c, j); }
    }
  }

  /** A backend that is written to is the last one opened for its id. */
  lemma GivenOther(s: State, b: Backend, m: Message, j: Id)
    requires OpeningsOk(s.record.openings, s.client.links) && b in s.client.links && s.client.links[b].id != j
    ensures Given(At(s.record.openings, j), Push(s.record.inputs, b, m))
      == Given(At(s.record.openings, j), s.record.inputs)
  {
    var backends := At(s.record.openings, j);
    forall k | 0 <= k < |backends|
      ensures At(s.record.inputs, backends[k]) == At(Push(s.record.inputs, b, m), backends[k]) {
      assert s.client.links[backends[k]].id == j;
    }
    GivenSame(backends, s.record.inputs, Push(s.record.inputs, b, m));
  }

  lemma ArrivedForBackend(s: State, c: Conn, b: Backend, ok: bool)
    requires At(s.net.down, c) != []
    requires var backends := At(s.record.openings, At(s.net.down, c)[0].id);
      NoDuplicates(backends) && backends != [] && backends[|backends| - 1] == b
    requires Waiting(s.client.connects, At(s.net.down, c)[0].id) == []
    ensures var m, t := At(s.net.down, c)[0], OnRequestForBackend(s, c, b, ok);
      if ok && b in s.client.openBackends then Arrived(t, m.id) == Arrived(s, m.id) + [m]
      else Arrived(t, m.id) == Arrived(s, m.id) && m.id in t.record.lost
  {
    GivenPush(At(s.record.openings, At(s.net.down, c)[0].id), s.record.inputs, b, At(s.net.down, c)[0]);
  }

  lemma TracksRequestForBackend(s: State, c: Conn, b: Backend, ok: bool)
    requires Openings(s) && c in s.net.openConns && c in s.net.clientOf && At(s.net.down, c) != []
    requires var i := At(s.net.down, c)[0].id;
      && i in s.record.owner && s.record.owner[i].conn == c && Tracks(s, i)
      && (s.net.clientOf[c], i) in s.client.clientMapping && b == s.client.clientMapping[(s.net.clientOf[c], i)]
    ensures Tracks(OnRequestForBackend(s, c, b, ok), At(s.net.down, c)[0].id)
  {
    var i := At(s.net.down, c)[0].id;
    if i !in s.record.raced {
      assert Waiting(s.client.connects, i) == [];
      assert NoDuplicates(At(s.record.openings, i));
      ArrivedForBackend(s, c, b, ok);
      TracksArrives(s, OnRequestForBackend(s, c, b, ok), c);
    }
  }

  lemma InOrderRequestForBackend(s: State, c: Conn, b: Backend, ok: bool)
    requires Safe(s) && Openings(s) && InOrder(s) && c in s.net.clientOf && c in s.net.openConns
      && At(s.net.down, c) != []
    requires (s.net.clientOf[c], At(s.net.down, c)[0].id) in s.client.clientMapping
    requires b == s.client.clientMapping[(s.net.clientOf[c], At(s.net.down, c)[0].id)]
    ensures InOrder(OnRequestForBackend(s, c, b, ok))
  {
    var m, t := At(s.net.down, c)[0], OnRequestForBackend(s, c, b, ok);
    QueuesPop(s.record.owner, s.record.chunks, s.net.down, c);
    assert Tracks(s, m.id);
    TracksRequestForBackend(s, c, b, ok);
    forall j | j in t.record.owner ensures Tracks(t, j) {
      if j != m.id {
        assert Tracks(s, j);
        GivenOther(s, b, m, j);
        TracksOther(s, t, c, j);
      }
    }
  }

  lemma InOrderRequestArrives(s: State, c: Conn, ok: bool)
    requires Safe(s) && Openings(s) && InOrder(s) && c in s.net.clientOf && c in s.net.openConns
      && At(s.net.down, c) != []
    ensures InOrder(OnRequestArrives(s, c, ok))
  {
    var key := (s.net.clientOf[c], At(s.net.down, c)[0].id);
    if key in s.client.clientMapping {
      InOrderRequestForBackend(s, c, s.client.clientMapping[key], ok);
    } else if Opens(s, c, At(s.net.down, c)[0]) {
      InOrderRequestForService(s, c);
    } else {
      InOrderRequestDropped(s, c);
    }
  }

  // ------------------------------------------------ a connect completes

  /** What waited for a connect leaves the waiting list. */
  lemma WaitingRemoves(connects: seq<Connect>, k: nat, j: Id)
    requires k < |connects|
    ensures var rest := connects[..k] + connects[k + 1..];
      && (connects[k].request.id != j ==> Waiting(rest, j) == Waiting(connects, j))
      && (connects[k].request.id == j && |Waiting(connects, j)| <= 1 ==>
            Waiting(connects, j) == [connects[k].request] && Waiting(rest, j) == [])
  {
    WaitingSplit(connects, k, j);
    WaitingConcat(connects[..k], connects[k + 1..], j);
  }

  lemma TracksConnectFails(s: State, k: nat, i: Id)
    requires Openings(s) && k < |s.client.connects| && i in s.record.owner && Tracks(s, i)
    ensures Tracks(OnConnectFails(s, k), i)
  {
    var n, t := s.client.connects[k], OnConnectFails(s, k);
    WaitingRemoves(s.client.connects, k, i);
    if i == n.request.id && i !in s.record.raced {
      var given := Given(At(s.record.openings, i), s.record.inputs);
      assert |Waiting(s.client.connects, i)| <= 1;
      assert Arrived(s, i) == given + [n.request] + [];
      OrderedLosesArrived(given, n.request, [], Travelling(s, i, s.record.owner[i].conn), |At(s.record.chunks, i)|,
        false,
        i in s.record.lost, s.record.owner[i].conn in s.net.openConns);
    } else {
      assert i != n.request.id ==> Arrived(t, i) == Arrived(s, i);
    }
  }

  lemma InOrderConnectFails(s: State, k: nat)
    requires Openings(s) && InOrder(s) && k < |s.client.connects|
    ensures InOrder(OnConnectFails(s, k))
  {
    var t := OnConnectFails(s, k);
    forall j | j in t.record.owner ensures Tracks(t, j) {
      assert Tracks(s, j);
      TracksConnectFails(s, k, j);
    }
  }

  lemma GivenSucceeds(s: State, k: nat, b: Backend, written: bool, i: Id)
    requires OpeningsOk(s.record.openings, s.client.links) && At(s.record.inputs, b) == []
    requires k < |s.client.connects| && s.client.connects[k].conn in s.net.clientOf && b !in s.client.links
    ensures var n, t := s.client.connects[k], OnConnectSucceeds(s, k, b, written);
      Given(At(t.record.openings, i), t.record.inputs)
        == Given(At(s.record.openings, i), s.record.inputs) + (if written && n.request.id == i then [n.request] else [])
  {
    var n, t := s.client.connects[k], OnConnectSucceeds(s, k, b, written);
    var backends := At(s.record.openings, i);
    GivenSame(backends, s.record.inputs, t.record.inputs);
    if i == n.request.id {
      assert At(t.record.openings, i)[..|backends|] == backends;
    }
  }

  /** A connect that succeeds turns what waited for it into what was given. */
  lemma ArrivedConnectSucceeds(s: State, k: nat, b: Backend, written: bool, i: Id)
    requires OpeningsOk(s.record.openings, s.client.links) && At(s.record.inputs, b) == []
    requires k < |s.client.connects| && s.client.connects[k].conn in s.net.clientOf && b !in s.client.links
    ensures var n, t := s.client.connects[k], OnConnectSucceeds(s, k, b, written);
      && (n.request.id != i ==> Arrived(t, i) == Arrived(s, i))
      && (n.request.id == i && |Waiting(s.client.connects, i)| <= 1 ==>
            Arrived(s, i) == Given(At(s.record.openings, i), s.record.inputs) + [n.request]
            && Arrived(t, i) == Given(At(s.record.openings, i), s.record.inputs) + (if written then [n.request]
              else []))
  {
    GivenSucceeds(s, k, b, written, i);
    WaitingRemoves(s.client.connects, k, i);
  }

  lemma TracksConnectSucceeds(s: State, k: nat, b: Backend, written: bool, i: Id)
    requires Openings(s) && i in s.record.owner && Tracks(s, i) && At(s.record.inputs, b) == []
    requires k < |s.client.connects| && s.client.connects[k].conn in s.net.clientOf && b !in s.client.links
    ensures Tracks(OnConnectSucceeds(s, k, b, written), i)
  {
    var n, t := s.client.connects[k], OnConnectSucceeds(s, k, b, written);
    ArrivedConnectSucceeds(s, k, b, written, i);
    if i == n.request.id && i !in s.record.raced && !written {
      assert |Waiting(s.client.connects, i)| <= 1;
      TracksUnwritten(s, t, i, n.request, Given(At(s.record.openings, i), s.record.inputs));
    } else {
      assert i != n.request.id || (i !in s.record.raced && written) ==> Arrived(t, i) == Arrived(s, i);
    }
  }

  lemma TracksUnwritten(s: State, t: State, i: Id, m: Message, given: seq<Message>)
    requires i in s.record.owner && Tracks(s, i) && Arrived(s, i) == given + [m]
    requires t.record.owner == s.record.owner && t.net == s.net && t.record.chunks == s.record.chunks
    requires t.record.raced == s.record.raced && i in t.record.lost && Arrived(t, i) == given
    ensures Tracks(t, i)
  {
    assert given + [m] == given + [m] + [] && given + [] == given;
    OrderedLosesArrived(given, m, [], Travelling(s, i, s.record.owner[i].conn), |At(s.record.chunks, i)|,
      i in s.record.raced,
      i in s.record.lost, s.record.owner[i].conn in s.net.openConns);
  }

  lemma InOrderConnectSucceeds(s: State, k: nat, b: Backend, written: bool)
    requires Safe(s) && Openings(s) && InOrder(s)
    requires k < |s.client.connects| && s.client.connects[k].conn in s.net.clientOf && b !in s.client.links
    ensures InOrder(OnConnectSucceeds(s, k, b, written))
  {
    var t := OnConnectSucceeds(s, k, b, written);
    forall j | j in t.record.owner ensures Tracks(t, j) {
      assert Tracks(s, j);
      TracksConnectSucceeds(s, k, b, written, j);
    }
  }

  // ------------------------------------------------ every run

  lemma InOrderTunnelCloses(s: State, c: Conn)
    requires InOrder(s)
    ensures InOrder(OnTunnelCloses(s, c))
  {
    var t := OnTunnelCloses(s, c);
    forall j | j in t.record.owner ensures Tracks(t, j) {
      assert Tracks(s, j);
      if s.record.owner[j].conn == c {
        OrderedCloses(Arrived(s, j), Travelling(s, j, c), |At(s.record.chunks, j)|, j in s.record.raced,
          j in s.record.lost,
          c in s.net.openConns);
        assert Travelling(t, j, c) == [] && Arrived(t, j) == Arrived(s, j);
      } else {
        assert Travelling(t, j, s.record.owner[j].conn) == Travelling(s, j, s.record.owner[j].conn);
      }
    }
  }

  lemma InOrderTunnelOpens(s: State, c: Conn, client: Client, services: map<string, Service>)
    requires Safe(s) && InOrder(s) && c !in s.net.clientOf
    ensures InOrder(OnTunnelOpens(s, c, client, services))
  {
    var t := OnTunnelOpens(s, c, client, services);
    forall j | j in t.record.owner ensures Tracks(t, j) {
      assert Tracks(s, j);
    }
  }

  /** A new id with its owner and the attribute of its channel, before its first chunk. */
  lemma InOrderIdentified(s: State, p: Public, c: Conn, service: string, i: Id)
    requires Safe(s) && Openings(s) && InOrder(s) && i !in s.record.owner && p in s.server.kind
      && c in s.net.clientOf
    requires s.server.kind[p].TcpPort? ==> s.server.kind[p].conn == c && s.server.kind[p].service == service
    ensures var a := s.(record := s.record.(owner := s.record.owner[i := Owner(p, c, service)]),
                        server := s.server.(tcpFlag := s.server.tcpFlag[p := i]));
      Safe(a) && Openings(a) && InOrder(a)
  {
    InOrderNewId(s, i, Owner(p, c, service));
    NewIdSafe(s, i, p, c, service);
    OpeningsNewId(s, i, Owner(p, c, service));
    InOrderKept(s.(record := s.record.(owner := s.record.owner[i := Owner(p, c, service)])),
      s.(record := s.record.(owner := s.record.owner[i := Owner(p, c, service)]),
         server := s.server.(tcpFlag := s.server.tcpFlag[p := i])));
  }

  lemma InOrderHttpRequest(s: State, p: Public, c: Conn, service: string, i: Id, x: Bytes, upgrade: bool)
    requires Safe(s) && Openings(s) && InOrder(s) && i !in s.record.owner && p in s.server.kind
      && !s.server.kind[p].TcpPort?
    requires c in s.net.clientOf
    ensures InOrder(OnHttpRequest(s, p, c, service, i, x, upgrade))
  {
    var a := s.(record := s.record.(owner := s.record.owner[i := Owner(p, c, service)]),
                server := s.server.(tcpFlag := s.server.tcpFlag[p := i]));
    InOrderIdentified(s, p, c, service, i);
    InOrderWrite(a, i, x, Some(service), true, Some(Listener(i, p)));
    InOrderKept(Write(Log(a, i, x), c, Request(i, x, Some(service), true, |At(s.record.chunks, i)|),
      Some(Listener(i, p))), OnHttpRequest(s, p, c, service, i, x, upgrade));
  }

  lemma InOrderTcpChunk(s: State, p: Public, newId: Id, x: Bytes)
    requires Safe(s) && Openings(s) && InOrder(s) && p in s.server.kind && s.server.kind[p].TcpPort?
    requires p in s.server.tcpFlag || newId !in s.record.owner
    ensures InOrder(OnTcpChunk(s, p, newId, x))
  {
    var i, k := TcpId(s, p, newId), s.server.kind[p];
    var a := if p in s.server.tcpFlag then s
             else s.(record := s.record.(owner := s.record.owner[i := Owner(p, k.conn, k.service)]),
                     server := s.server.(tcpFlag := s.server.tcpFlag[p := i]));
    if p !in s.server.tcpFlag {
      InOrderIdentified(s, p, k.conn, k.service, i);
    }
    InOrderWrite(a, i, x, Some(k.service), false, None);
    InOrderKept(Write(Log(a, i, x), k.conn, Request(i, x, Some(k.service), false, |At(s.record.chunks, i)|), None),
      OnTcpChunk(s, p, newId, x));
  }

  lemma InOrderStep(s: State, e: Event)
    requires Safe(s) && Openings(s) && InOrder(s)
    ensures InOrder(Step(s, e))
  {
    if Enabled(s, e) {
      match e
      case TunnelOpens(c, client, services) => InOrderTunnelOpens(s, c, client, services);
      case TunnelCloses(c) => InOrderTunnelCloses(s, c);
      case HttpRequest(p, c, service, i, x, upgrade) => InOrderHttpRequest(s, p, c, service, i, x, upgrade);
      case TcpChunk(p, newId, x) => InOrderTcpChunk(s, p, newId, x);
      case WebSocketChunk(p, x) => InOrderWrite(s, s.server.upgraded[p].id, x, None, false, None);
      case WriteCompletes(c, ok) => if ok { InOrderWriteSucceeds(s, c); } else { InOrderWriteFails(s, c); }
      case RequestArrives(c, ok) => InOrderRequestArrives(s, c, ok);
      case ConnectCompletes(k, ok, b, written) =>
        if ok { InOrderConnectSucceeds(s, k, b, written); } else { InOrderConnectFails(s, k); }
      case _ => InOrderQuiet(s, e);
    }
  }

  lemma InOrderKept(s: State, t: State)
    requires InOrder(s)
    requires t.record.owner == s.record.owner && t.record.openings == s.record.openings
      && t.record.inputs == s.record.inputs
    requires t.client.connects == s.client.connects && t.net.down == s.net.down && t.net.outbound == s.net.outbound
    requires t.record.chunks == s.record.chunks && t.record.raced == s.record.raced && t.record.lost == s.record.lost
    requires t.net.openConns == s.net.openConns
    ensures InOrder(t)
  {
    forall j | j in t.record.owner ensures Tracks(t, j) {
      assert Tracks(s, j);
    }
  }

  lemma InOrderQuiet(s: State, e: Event)
    requires InOrder(s) && Enabled(s, e)
    requires e.ServiceAdded? || e.ServiceRemoved? || e.PublicOpens? || e.PublicCloses? || e.BackendReads?
      || e.BackendCloses?
      || e.BackendUnmapped? || e.ResponseArrives?
    ensures InOrder(Do(s, e))
  {
    InOrderKept(s, Do(s, e));
  }
}
