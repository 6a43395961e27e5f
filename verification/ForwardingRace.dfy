/** When request order breaks.  Requests of one id never overtake each other on the
    way to their connects; they do when two connects of one id are pending, because
    connects complete in any order. */
module ForwardingRace {
  import opened Basics
  import opened Forwarding
  import opened ForwardingSafety
  import opened ForwardingConservation
  import opened ForwardingOrder

  /** What waits for a connect and what still travels, numbered upwards. */
  ghost predicate Lined(s: State, i: Id, c: Conn) {
    Increasing(Waiting(s.client.connects, i) + Travelling(s, i, c))
  }

  ghost predicate InLine(s: State) {
    forall i {:trigger s.record.owner[i]} :: i in s.record.owner ==> Lined(s, i, s.record.owner[i].conn)
  }

  lemma IncreasingAppends(q: seq<Message>, m: Message)
    requires Increasing(q) && Below(q, m.no)
    ensures Increasing(q + [m])
  {
  }

  lemma IncreasingDrops(a: seq<Message>, m: Message, b: seq<Message>)
    requires Increasing(a + [m] + b)
    ensures Increasing(a + b)
  {
    var q, r := a + [m] + b, a + b;
    forall x, y | 0 <= x < y < |r| ensures r[x].no < r[y].no {
      assert r[x] == q[if x < |a| then x else x + 1];
      assert r[y] == q[if y < |a| then y else y + 1];
    }
  }

  lemma IncreasingTakes(a: seq<Message>, b: seq<Message>)
    requires Increasing(a + b)
    ensures Increasing(a)
  {
    forall x, y | 0 <= x < y < |a| ensures a[x].no < a[y].no {
      assert a[x] == (a + b)[x] && a[y] == (a + b)[y];
    }
  }

  lemma LineDrops(w: seq<Message>, d: seq<Message>, x: seq<Message>, r: seq<Message>)
    requires |x| <= 1 && Increasing(w + (d + (x + r)))
    ensures Increasing(w + (d + r))
  {
    if x == [] {
      assert x + r == r;
    } else {
      assert w + (d + (x + r)) == (w + d) + [x[0]] + r;
      IncreasingDrops(w + d, x[0], r);
      assert (w + d) + r == w + (d + r);
    }
  }

  lemma LineMoves(w: seq<Message>, x: seq<Message>, r: seq<Message>, o: seq<Message>)
    requires |x| <= 1 && Increasing(w + ((x + r) + o))
    ensures Increasing(w + (r + o)) && Increasing((w + x) + (r + o))
  {
    assert w + ((x + r) + o) == (w + x) + (r + o);
    if x == [] {
      assert w + x == w;
    } else {
      assert w + ((x + r) + o) == w + [x[0]] + (r + o);
      IncreasingDrops(w, x[0], r + o);
    }
  }

  lemma LinedNewId(s: State, i: Id, c: Conn)
    requires Safe(s) && i !in s.record.owner
    ensures Lined(s, i, c)
  {
    NothingWaiting(s, i);
    NothingQueued(s, s.net.down, c, i);
    NothingQueued(s, s.net.outbound, c, i);
  }

  lemma LinedWrite(s: State, i: Id, c: Conn, m: Message)
    requires Safe(s) && OpeningsOk(s.record.openings, s.client.links) && Lined(s, i, c)
    requires m.id == i && m.no == |At(s.record.chunks, i)|
    ensures Increasing(Waiting(s.client.connects,
      i) + (Only(At(s.net.down, c), i) + Only(At(Push(s.net.outbound, c, m), c), i)))
  {
    var w, q := Waiting(s.client.connects, i), Travelling(s, i, c);
    WaitingInUse(s, i, c);
    IncreasingAppends(w + q, m);
    TravellingPush(s.net.down, s.net.outbound, c, m, i);
    Regroups(w, q, m);
  }

  lemma Regroups(w: seq<Message>, q: seq<Message>, m: Message)
    ensures w + (q + [m]) == (w + q) + [m]
  {
  }

  lemma WaitingInUse(s: State, i: Id, c: Conn)
    requires Safe(s) && OpeningsOk(s.record.openings, s.client.links)
    ensures Below(Waiting(s.client.connects, i) + Travelling(s, i, c), |At(s.record.chunks, i)|)
  {
    InUse(s, i, c);
    var given, rest := Given(At(s.record.openings, i), s.record.inputs),
      Waiting(s.client.connects, i) + Travelling(s, i, c);
    forall k | 0 <= k < |rest| ensures rest[k].no < |At(s.record.chunks, i)| {
      assert rest[k] == (Arrived(s, i) + Travelling(s, i, c))[|given| + k];
    }
  }

  lemma LinedWriteSucceeds(s: State, c: Conn, j: Id, d: Conn)
    requires At(s.net.outbound, c) != [] && At(s.net.listeners, c) != [] && Lined(s, j, d)
    ensures Lined(OnWriteSucceeds(s, c), j, d)
  {
    TravellingMoves(s.net.down, s.net.outbound, c, j);
    assert Travelling(OnWriteSucceeds(s, c), j, d) == Travelling(s, j, d);
  }

  lemma LinedWriteFails(s: State, c: Conn, j: Id, d: Conn)
    requires At(s.net.outbound, c) != [] && At(s.net.listeners, c) != [] && Lined(s, j, d)
    ensures Lined(OnWriteFails(s, c), j, d)
  {
    if d == c {
      OnlyPop(s.net.outbound, c, j);
      var m := At(s.net.outbound, c)[0];
      LineDrops(Waiting(s.client.connects, j), Only(At(s.net.down, c), j), if m.id == j then [m] else [],
                Only(At(Pop(s.net.outbound, c), c), j));
    }
  }

  /** The first request of a tunnel is delivered: it waits for its own connect, or it
      is gone from the line. */
  lemma LinedArrives(s: State, t: State, c: Conn, j: Id, d: Conn)
    requires At(s.net.down, c) != [] && t.net.down == Pop(s.net.down, c) && t.net.outbound == s.net.outbound
      && Lined(s, j, d)
    requires At(s.net.down, c)[0].id == j ==> d == c
    requires Waiting(t.client.connects, j) == Waiting(s.client.connects, j)
      || Waiting(t.client.connects, j)
        == Waiting(s.client.connects, j) + (if At(s.net.down, c)[0].id == j then [At(s.net.down, c)[0]] else [])
    ensures Lined(t, j, d)
  {
    if d == c {
      OnlyPop(s.net.down, c, j);
      var m := At(s.net.down, c)[0];
      LineMoves(Waiting(s.client.connects, j), if m.id == j then [m] else [],
        Only(At(t.net.down, c), j), Only(At(s.net.outbound, c), j));
    } else {
      assert Travelling(t, j, d) == Travelling(s, j, d);
    }
  }

  lemma LinedRequestForService(s: State, c: Conn, j: Id, d: Conn)
    requires At(s.net.down, c) != [] && Opens(s, c, At(s.net.down, c)[0]) && Lined(s, j, d)
    requires At(s.net.down, c)[0].id == j ==> d == c
    ensures Lined(OnRequestForService(s, c), j, d)
  {
    var m := At(s.net.down, c)[0];
    var n := Connect(m, c, s.client.forward[c][m.service.value]);
    WaitingConcat(s.client.connects, [n], j);
    WaitingOne(n, j);
    LinedArrives(s, OnRequestForService(s, c), c, j, d);
  }

  lemma LinedRequestArrives(s: State, c: Conn, ok: bool, j: Id, d: Conn)
    requires c in s.net.clientOf && At(s.net.down, c) != [] && Lined(s, j, d)
    requires At(s.net.down, c)[0].id == j ==> d == c
    ensures Lined(OnRequestArrives(s, c, ok), j, d)
  {
    var key := (s.net.clientOf[c], At(s.net.down, c)[0].id);
    if key in s.client.clientMapping {
      LinedArrives(s, OnRequestForBackend(s, c, s.client.clientMapping[key], ok), c, j, d);
    } else if Opens(s, c, At(s.net.down, c)[0]) {
      LinedRequestForService(s, c, j, d);
    } else {
      LinedArrives(s, OnRequestDropped(s, c), c, j, d);
    }
  }

  lemma LinedConnectCompletes(s: State, t: State, k: nat, j: Id, d: Conn)
    requires k < |s.client.connects| && t.client.connects == s.client.connects[..k] + s.client.connects[k + 1..]
    requires t.net == s.net && Lined(s, j, d)
    ensures Lined(t, j, d)
  {
    var n, q := s.client.connects[k], Travelling(s, j, d);
    var a, b := Waiting(s.client.connects[..k], j), Waiting(s.client.connects[k + 1..], j);
    WaitingSplit(s.client.connects, k, j);
    WaitingConcat(s.client.connects[..k], s.client.connects[k + 1..], j);
    if n.request.id == j {
      assert Waiting(s.client.connects, j) + q == a + [n.request] + (b + q);
      IncreasingDrops(a, n.request, b + q);
      assert Waiting(t.client.connects, j) + q == a + (b + q);
    } else {
      assert Waiting(t.client.connects, j) == Waiting(s.client.connects, j);
    }
  }

  lemma LinedTunnelCloses(s: State, c: Conn, j: Id, d: Conn)
    requires Lined(s, j, d)
    ensures Lined(OnTunnelCloses(s, c), j, d)
  {
    var t := OnTunnelCloses(s, c);
    if d == c {
      IncreasingTakes(Waiting(s.client.connects, j), Travelling(s, j, d));
      assert Waiting(t.client.connects, j) + Travelling(t, j, d) == Waiting(s.client.connects, j);
    } else {
      assert Travelling(t, j, d) == Travelling(s, j, d);
    }
  }

  lemma InLineNewId(s: State, i: Id, o: Owner)
    requires Safe(s) && InLine(s) && i !in s.record.owner
    ensures InLine(s.(record := s.record.(owner := s.record.owner[i := o])))
  {
    var t := s.(record := s.record.(owner := s.record.owner[i := o]));
    forall j | j in t.record.owner ensures Lined(t, j, t.record.owner[j].conn) {
      if j == i { LinedNewId(s, i, o.conn); }
      assert Lined(s, j, t.record.owner[j].conn);
    }
  }

  lemma InLineWrite(s: State, i: Id, x: Bytes, service: Option<string>, http: bool,
    l: Option<Listener>)
    requires Safe(s) && OpeningsOk(s.record.openings, s.client.links) && InLine(s) && i in s.record.owner
    ensures InLine(Write(Log(s, i, x), s.record.owner[i].conn, Request(i, x, service, http, |At(s.record.chunks, i)|),
      l))
  {
    var c, m := s.record.owner[i].conn, Request(i, x, service, http, |At(s.record.chunks, i)|);
    var t := Write(Log(s, i, x), c, m, l);
    forall j | j in t.record.owner ensures Lined(t, j, t.record.owner[j].conn) {
      assert Lined(s, j, s.record.owner[j].conn);
      if j == i {
        LinedWrite(s, i, c, m);
      } else {
        OnlyPush(s.net.outbound, c, m, j);
        assert Travelling(t, j, s.record.owner[j].conn) == Travelling(s, j, s.record.owner[j].conn);
      }
    }
  }

  lemma InLineKept(s: State, t: State)
    requires InLine(s) && t.record.owner == s.record.owner && t.client.connects == s.client.connects
    requires t.net.down == s.net.down && t.net.outbound == s.net.outbound
    ensures InLine(t)
  {
    forall j | j in t.record.owner ensures Lined(t, j, t.record.owner[j].conn) {
      assert Lined(s, j, s.record.owner[j].conn);
    }
  }

  lemma InLineNewRequest(s: State, i: Id, o: Owner, x: Bytes, http: bool, t: State)
    requires Safe(s) && Openings(s) && InLine(s) && i !in s.record.owner && o.pub in s.server.kind
      && o.conn in s.net.clientOf
    requires s.server.kind[o.pub].TcpPort? ==>
      s.server.kind[o.pub].conn == o.conn && s.server.kind[o.pub].service == o.service
    requires t.client.connects == s.client.connects && t.record.owner == s.record.owner[i := o]
      && t.net.down == s.net.down
    requires t.net.outbound == if o.conn in s.net.openConns
      then Push(s.net.outbound, o.conn, Request(i, x, Some(o.service), http, |At(s.record.chunks, i)|))
        else s.net.outbound
    ensures InLine(t)
  {
    var a := s.(record := s.record.(owner := s.record.owner[i := o]),
      server := s.server.(tcpFlag := s.server.tcpFlag[o.pub := i]));
    InLineNewId(s, i, o);
    InLineKept(s.(record := s.record.(owner := s.record.owner[i := o])), a);
    NewIdSafe(s, i, o.pub, o.conn, o.service);
    InLineWrite(a, i, x, Some(o.service), http, None);
    InLineKept(Write(Log(a, i, x), o.conn, Request(i, x, Some(o.service), http, |At(s.record.chunks, i)|), None), t);
  }

  /** What a further chunk of a TCP channel does to the tunnels. */
  lemma NextChunkNet(s: State, p: Public, newId: Id, x: Bytes)
    requires FlagsOk(s.record.owner, s.server.tcpFlag, s.server.kind)
    requires p in s.server.kind && s.server.kind[p].TcpPort? && p in s.server.tcpFlag
    ensures var i, k, t := s.server.tcpFlag[p], s.server.kind[p], OnTcpChunk(s, p, newId, x);
      var u := Write(Log(s, i, x), k.conn, Request(i, x, Some(k.service), false, |At(s.record.chunks, i)|), None);
      && i in s.record.owner && s.record.owner[i].conn == k.conn
      && t.net == u.net && t.client == u.client && t.record.owner == u.record.owner
  {
  }

  lemma InLineSame(u: State, t: State)
    requires InLine(u) && t.net == u.net && t.client == u.client && t.record.owner == u.record.owner
    ensures InLine(t)
  {
    InLineKept(u, t);
  }

  lemma InLineNextChunk(s: State, p: Public, newId: Id, x: Bytes, i: Id, k: Kind)
    requires Safe(s) && Openings(s) && InLine(s) && p in s.server.kind && k == s.server.kind[p] && k.TcpPort?
    requires p in s.server.tcpFlag && i == s.server.tcpFlag[p]
    ensures InLine(OnTcpChunk(s, p, newId, x))
  {
    NextChunkNet(s, p, newId, x);
    InLineWrite(s, i, x, Some(k.service), false, None);
    InLineSame(Write(Log(s, i, x), k.conn, Request(i, x, Some(k.service), false, |At(s.record.chunks, i)|), None),
      OnTcpChunk(s, p, newId, x));
  }

  lemma InLineTcpChunk(s: State, p: Public, newId: Id, x: Bytes)
    requires Safe(s) && Openings(s) && InLine(s) && p in s.server.kind && s.server.kind[p].TcpPort?
    requires p in s.server.tcpFlag || newId !in s.record.owner
    ensures InLine(OnTcpChunk(s, p, newId, x))
  {
    if p in s.server.tcpFlag {
      InLineNextChunk(s, p, newId, x, s.server.tcpFlag[p], s.server.kind[p]);
    } else {
      var k := s.server.kind[p];
      InLineNewRequest(s, newId, Owner(p, k.conn, k.service), x, false, OnTcpChunk(s, p, newId, x));
    }
  }

  lemma InLineTunnelCloses(s: State, c: Conn)
    requires InLine(s)
    ensures InLine(OnTunnelCloses(s, c))
  {
    forall j | j in s.record.owner ensures Lined(OnTunnelCloses(s, c), j, s.record.owner[j].conn) {
      LinedTunnelCloses(s, c, j, s.record.owner[j].conn);
    }
  }

  lemma InLineWriteCompletes(s: State, c: Conn)
    requires InLine(s) && At(s.net.outbound, c) != [] && At(s.net.listeners, c) != []
    ensures InLine(OnWriteSucceeds(s, c)) && InLine(OnWriteFails(s, c))
  {
    forall j | j in s.record.owner
      ensures Lined(OnWriteSucceeds(s, c), j, s.record.owner[j].conn)
        && Lined(OnWriteFails(s, c), j, s.record.owner[j].conn)
    {
      LinedWriteSucceeds(s, c, j, s.record.owner[j].conn);
      LinedWriteFails(s, c, j, s.record.owner[j].conn);
    }
  }

  lemma InLineRequestArrives(s: State, c: Conn, ok: bool)
    requires Safe(s) && InLine(s) && c in s.net.clientOf && At(s.net.down, c) != []
    ensures InLine(OnRequestArrives(s, c, ok))
  {
    QueuesPop(s.record.owner, s.record.chunks, s.net.down, c);
    forall j | j in s.record.owner ensures Lined(OnRequestArrives(s, c, ok), j, s.record.owner[j].conn) {
      LinedRequestArrives(s, c, ok, j, s.record.owner[j].conn);
    }
  }

  lemma InLineConnectCompletes(s: State, t: State, k: nat)
    requires InLine(s) && k < |s.client.connects|
      && t.client.connects == s.client.connects[..k] + s.client.connects[k + 1..]
    requires t.net == s.net && t.record.owner == s.record.owner
    ensures InLine(t)
  {
    forall j | j in t.record.owner ensures Lined(t, j, t.record.owner[j].conn) {
      LinedConnectCompletes(s, t, k, j, s.record.owner[j].conn);
    }
  }

  lemma InLineQuiet(s: State, e: Event)
    requires InLine(s) && Enabled(s, e)
    requires e.TunnelOpens? || e.ServiceAdded? || e.ServiceRemoved? || e.PublicOpens? || e.PublicCloses?
      || e.BackendReads?
      || e.BackendCloses? || e.BackendUnmapped? || e.ResponseArrives?
    ensures InLine(Do(s, e))
  {
    InLineKept(s, Do(s, e));
  }

  lemma InLineStep(s: State, e: Event)
    requires Safe(s) && Openings(s) && InLine(s)
    ensures InLine(Step(s, e))
  {
    if Enabled(s, e) {
      match e
      case HttpRequest(p, c, service, i, x, upgrade) => InLineNewRequest(s, i, Owner(p, c, service), x, true, Do(s, e));
      case TcpChunk(p, newId, x) => InLineTcpChunk(s, p, newId, x);
      case WebSocketChunk(p, x) => InLineWrite(s, s.server.upgraded[p].id, x, None, false, None);
      case TunnelCloses(c) => InLineTunnelCloses(s, c);
      case WriteCompletes(c, _) => InLineWriteCompletes(s, c);
      case RequestArrives(c, ok) => InLineRequestArrives(s, c, ok);
      case ConnectCompletes(k, _, _, _) => InLineConnectCompletes(s, Do(s, e), k);
      case _ => InLineQuiet(s, e);
    }
  }
}
