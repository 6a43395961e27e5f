/** The way from a public channel to the client: what the server hands to a tunnel, what
    its channels remember, and what a TCP channel leaves behind. */
module ForwardingTunnel {
  import opened Basics
  import opened Forwarding
  import opened ForwardingSafety
  import opened ForwardingTheorems
  import opened ForwardingLeftovers

  // ------------------------------------------------ what a tunnel carries

  /** What the event hands to an open tunnel: an HTTP request with its service, a TCP chunk
      with the id its channel keeps and its service, or a chunk of an upgraded channel with
      the id of the upgrade and no service. */
  function Hands(s: State, e: Event, c: Conn): seq<Message> {
    if !Enabled(s, e) || c !in s.net.openConns then []
    else
      match e
      case HttpRequest(_, d, service, id, body, _) =>
        if d == c then [Request(id, body, Some(service), true, |At(s.record.chunks, id)|)] else []
      case TcpChunk(p, newId, body) =>
        var id := if p in s.server.tcpFlag then s.server.tcpFlag[p] else newId;
        if s.server.kind[p].conn != c then []
        else [Request(id, body, Some(s.server.kind[p].service), false, |At(s.record.chunks, id)|)]
      case WebSocketChunk(p, body) =>
        var w := s.server.upgraded[p];
        if w.conn == c then [Request(w.id, body, None, false, |At(s.record.chunks, w.id)|)] else []
      case _ => []
  }

  /** What the event takes out of a tunnel at the client's end. */
  function Takes(s: State, e: Event, c: Conn): seq<Message> {
    if Enabled(s, e) && e.RequestArrives? && e.c == c then [At(s.net.down, c)[0]] else []
  }

  ghost function HandedIn(run: seq<Event>, c: Conn): seq<Message> {
    if run == [] then [] else HandedIn(run[..|run| - 1], c) + Hands(After(run[..|run| - 1]), run[|run| - 1], c)
  }

  ghost function TakenIn(run: seq<Event>, c: Conn): seq<Message> {
    if run == [] then [] else TakenIn(run[..|run| - 1], c) + Takes(After(run[..|run| - 1]), run[|run| - 1], c)
  }

  /** A write to the tunnel fails. */
  ghost predicate FailsAt(run: seq<Event>, j: nat, c: Conn) {
    j < |run| && Enabled(After(run[..j]), run[j]) && run[j] == WriteCompletes(c, false)
  }

  lemma CarryHands(s: State, e: Event, c: Conn)
    requires Enabled(s, e) && (e.HttpRequest? || e.TcpChunk? || e.WebSocketChunk?)
    ensures var t := Step(s, e);
      && (c in t.net.openConns <==> c in s.net.openConns)
      && At(t.net.outbound, c) == At(s.net.outbound, c) + Hands(s, e, c) && At(t.net.down, c) == At(s.net.down, c)
  {
    match e
    case HttpRequest(p, d, service, id, body, upgrade) =>
      assert Step(s, e) == OnHttpRequest(s, p, d, service, id, body, upgrade);
    case TcpChunk(p, newId, body) => assert Step(s, e) == OnTcpChunk(s, p, newId, body);
    case WebSocketChunk(p, body) => assert Step(s, e) == OnWebSocketChunk(s, s.server.upgraded[p], body);
  }

  lemma CarryWrites(s: State, d: Conn, ok: bool, c: Conn)
    requires Enabled(s, WriteCompletes(d, ok)) && (d == c ==> ok)
    ensures var t := Step(s, WriteCompletes(d, ok));
      && (c in t.net.openConns <==> c in s.net.openConns)
      && At(t.net.down, c) + At(t.net.outbound, c) == At(s.net.down, c) + At(s.net.outbound, c)
  {
    if ok {
      assert Step(s, WriteCompletes(d, ok)) == OnWriteSucceeds(s, d);
    } else {
      assert Step(s, WriteCompletes(d, ok)) == OnWriteFails(s, d);
    }
  }

  lemma CarryTakes(s: State, d: Conn, ok: bool, c: Conn)
    requires Enabled(s, RequestArrives(d, ok))
    ensures var e, t := RequestArrives(d, ok), Step(s, RequestArrives(d, ok));
      && (c in t.net.openConns <==> c in s.net.openConns)
      && At(s.net.down, c) == Takes(s, e, c) + At(t.net.down, c) && At(t.net.outbound, c) == At(s.net.outbound, c)
  {
    assert Step(s, RequestArrives(d, ok)) == OnRequestArrives(s, d, ok);
  }

  lemma CarryQuiet(s: State, e: Event, c: Conn)
    requires !e.RequestArrives? && !e.WriteCompletes? && !e.HttpRequest? && !e.TcpChunk? && !e.WebSocketChunk?
    requires !e.TunnelOpens? && !e.TunnelCloses?
    ensures var t := Step(s, e);
      t.net.openConns == s.net.openConns && t.net.outbound == s.net.outbound && t.net.down == s.net.down
  {
    if Enabled(s, e) {
      match e
      case ConnectCompletes(k, ok, b, w) =>
        if ok { assert Do(s, e) == OnConnectSucceeds(s, k, b, w); } else { assert Do(s, e) == OnConnectFails(s, k); }
      case BackendReads(b, body) => assert Do(s, e) == OnBackendReads(s, b, body);
      case ResponseArrives(d) => assert Do(s, e) == OnResponseArrives(s, d);
      case _ =>
    }
  }

  /** While a tunnel is open and none of its writes has failed: taken, travelling and
      waiting requests together are what was handed to it, in order.  Before it opens
      there is nothing, and a closed one holds nothing. */
  ghost predicate Carried(open: bool, known: bool, down: seq<Message>, outbound: seq<Message>, taken: seq<Message>,
    handed: seq<Message>)
  {
    && (open ==> known && taken + (down + outbound) == handed)
    && (!open ==> down == [] && outbound == [])
    && (!known ==> taken == [] && handed == [])
  }

  ghost predicate Carries(s: State, c: Conn, taken: seq<Message>, handed: seq<Message>) {
    Carried(c in s.net.openConns, c in s.net.clientOf, At(s.net.down, c), At(s.net.outbound, c), taken, handed)
  }

  lemma Regroups(a: seq<Message>, x: seq<Message>, b: seq<Message>, c: seq<Message>)
    ensures a + ((x + b) + c) == (a + x) + (b + c) && a + (b + (c + x)) == (a + (b + c)) + x
  {
  }

  lemma CarriesHands(s: State, e: Event, c: Conn, taken: seq<Message>, handed: seq<Message>)
    requires Carries(s, c, taken, handed) && Enabled(s, e) && (e.HttpRequest? || e.TcpChunk? || e.WebSocketChunk?)
    ensures Carries(Step(s, e), c, taken, handed + Hands(s, e, c))
  {
    CarryHands(s, e, c);
    ClientsStay(s, e);
    Regroups(taken, Hands(s, e, c), At(s.net.down, c), At(s.net.outbound, c));
  }

  lemma CarriesTakes(s: State, d: Conn, ok: bool, c: Conn, taken: seq<Message>, handed: seq<Message>)
    requires Carries(s, c, taken, handed) && Enabled(s, RequestArrives(d, ok))
    ensures var e := RequestArrives(d, ok); Carries(Step(s, e), c, taken + Takes(s, e, c), handed)
  {
    var e := RequestArrives(d, ok);
    CarryTakes(s, d, ok, c);
    ClientsStay(s, e);
    Regroups(taken, Takes(s, e, c), At(Step(s, e).net.down, c), At(s.net.outbound, c));
  }

  lemma CarriesWrites(s: State, d: Conn, ok: bool, c: Conn, taken: seq<Message>, handed: seq<Message>)
    requires Carries(s, c, taken, handed) && Enabled(s, WriteCompletes(d, ok)) && (d == c ==> ok)
    ensures Carries(Step(s, WriteCompletes(d, ok)), c, taken, handed)
  {
    CarryWrites(s, d, ok, c);
    ClientsStay(s, WriteCompletes(d, ok));
  }

  lemma CarriesQuiet(s: State, e: Event, c: Conn, taken: seq<Message>, handed: seq<Message>)
    requires Carries(s, c, taken, handed) && Hands(s, e, c) == [] && Takes(s, e, c) == []
    requires !e.RequestArrives? && !e.WriteCompletes? && !e.HttpRequest? && !e.TcpChunk? && !e.WebSocketChunk?
    ensures Carries(Step(s, e), c, taken, handed)
  {
    if !e.TunnelOpens? && !e.TunnelCloses? {
      CarryQuiet(s, e, c);
      ClientsStay(s, e);
    }
  }

  lemma CarriesStep(s: State, e: Event, c: Conn, taken: seq<Message>, handed: seq<Message>)
    requires Carries(s, c, taken, handed) && !(Enabled(s, e) && e == WriteCompletes(c, false))
    ensures Carries(Step(s, e), c, taken + Takes(s, e, c), handed + Hands(s, e, c))
  {
    assert taken + [] == taken && handed + [] == handed;
    if Enabled(s, e) {
      if e.HttpRequest? || e.TcpChunk? || e.WebSocketChunk? {
        CarriesHands(s, e, c, taken, handed);
      } else if e.WriteCompletes? {
        CarriesWrites(s, e.c, e.ok, c, taken, handed);
      } else if e.RequestArrives? {
        CarriesTakes(s, e.c, e.ok, c, taken, handed);
      } else {
        CarriesQuiet(s, e, c, taken, handed);
      }
    }
  }

  /** In every run: while a tunnel is open and none of its writes has failed, what the
      client has taken from it, what travels and what waits for its write are together
      exactly what the public channels handed to it, in order. */
  lemma {:induction false} TunnelCarries(run: seq<Event>, c: Conn)
    requires forall j: nat :: !FailsAt(run, j, c)
    ensures Carries(After(run), c, TakenIn(run, c), HandedIn(run, c))
  {
    if run != [] {
      var before, last := run[..|run| - 1], run[|run| - 1];
      forall j: nat ensures !FailsAt(before, j, c) {
        assert !FailsAt(run, j, c);
        if j < |before| {
          assert before[..j] == run[..j];
        }
      }
      assert !FailsAt(run, |before|, c);
      TunnelCarries(before, c);
      CarriesStep(After(before), last, c, TakenIn(before, c), HandedIn(before, c));
    }
  }

  // ------------------------------------------------ what a channel remembers

  /** The event sets the id that a channel remembers: every HTTP request does, and the
      first chunk of a TCP channel. */
  predicate Marks(s: State, e: Event, p: Public) {
    && Enabled(s, e)
    && ((e.HttpRequest? && e.p == p) || (e.TcpChunk? && e.p == p && p !in s.server.tcpFlag))
  }

  ghost predicate MarksAt(run: seq<Event>, j: nat, p: Public) {
    j < |run| && Marks(After(run[..j]), run[j], p)
  }

  /** The event is a request that asks for an upgrade, under id `i` and on tunnel `c`. */
  predicate Upgrades(s: State, e: Event, p: Public, w: WebSocket) {
    Enabled(s, e) && e.HttpRequest? && e.p == p && e.upgrade && w == WebSocket(e.newId, e.c)
  }

  ghost predicate UpgradesAt(run: seq<Event>, j: nat, p: Public, w: WebSocket) {
    j < |run| && Upgrades(After(run[..j]), run[j], p, w)
  }

  lemma MarkStep(s: State, e: Event, p: Public)
    ensures var r, u := s.server.tcpFlag, Step(s, e).server.tcpFlag;
      && (p in u <==> p in r || Marks(s, e, p))
      && (p in u ==> u[p] == if Marks(s, e, p) then e.newId else r[p])
  {
    if !AtServer(e) {
      ServerStays(s, e);
    } else if e.WriteCompletes? {
      WriteStep(s, e.c, e.ok);
    }
  }

  lemma UpgradeStep(s: State, e: Event, p: Public, w: WebSocket)
    ensures var r, u := s.server.upgraded, Step(s, e).server.upgraded;
      p in u && u[p] == w <==> (p in r && r[p] == w) || Upgrades(s, e, p, w)
  {
    if !AtServer(e) {
      ServerStays(s, e);
    } else if e.WriteCompletes? {
      WriteStep(s, e.c, e.ok);
    }
  }

  /** In every run: a channel is upgraded with an id and a tunnel exactly if one of its
      requests with that id and that tunnel asked for it. */
  lemma {:induction false} UpgradedMeans(run: seq<Event>, p: Public, w: WebSocket)
    ensures p in After(run).server.upgraded && After(run).server.upgraded[p] == w
      <==> exists j: nat :: UpgradesAt(run, j, p, w)
  {
    if run != [] {
      var before, last := run[..|run| - 1], run[|run| - 1];
      UpgradedMeans(before, p, w);
      UpgradeStep(After(before), last, p, w);
      forall j: nat | j < |before| ensures UpgradesAt(run, j, p, w) <==> UpgradesAt(before, j, p, w) {
        assert run[..j] == before[..j];
      }
      assert UpgradesAt(run, |before|, p, w) <==> Upgrades(After(before), last, p, w);
    }
  }

  /** Event `j` marked the channel with `i`, and none did after it. */
  ghost predicate LastMarked(run: seq<Event>, j: nat, p: Public, i: Id) {
    && MarksAt(run, j, p) && (run[j].HttpRequest? || run[j].TcpChunk?) && run[j].newId == i
    && forall l: nat :: j < l ==> !MarksAt(run, l, p)
  }

  lemma {:induction false} LastLater(run: seq<Event>, e: Event, p: Public, i: Id)
    ensures (exists j: nat :: LastMarked(run + [e], j, p, i)) <==>
      if Marks(After(run), e, p) then e.newId == i else exists j: nat :: LastMarked(run, j, p, i)
  {
    var longer := run + [e];
    forall l: nat | l < |run| ensures MarksAt(longer, l, p) <==> MarksAt(run, l, p) {
      assert longer[..l] == run[..l];
    }
    assert longer[..|run|] == run;
    assert MarksAt(longer, |run|, p) <==> Marks(After(run), e, p);
    if Marks(After(run), e, p) && e.newId == i {
      assert LastMarked(longer, |run|, p, i);
    } else if j: nat :| LastMarked(run, j, p, i) {
      assert !Marks(After(run), e, p) ==> LastMarked(longer, j, p, i);
    }
    if j: nat :| LastMarked(longer, j, p, i) {
      assert j < |run| ==> LastMarked(run, j, p, i);
    }
  }

  /** In every run: a channel remembers the id of its last HTTP request, or of its first TCP
      chunk. */
  lemma {:induction false} RemembersLast(run: seq<Event>, p: Public, i: Id)
    ensures p in After(run).server.tcpFlag && After(run).server.tcpFlag[p] == i
      <==> exists j: nat :: LastMarked(run, j, p, i)
  {
    if run != [] {
      var before, last := run[..|run| - 1], run[|run| - 1];
      assert run == before + [last];
      RemembersLast(before, p, i);
      MarkStep(After(before), last, p);
      LastLater(before, last, p, i);
    }
  }

  // ------------------------------------------------ a closed TCP channel

  /** No write of a TCP channel has a listener, and such a channel is never upgraded. */
  ghost predicate Plain(kind: map<Public, Kind>, upgraded: map<Public, WebSocket>, listeners: Listeners) {
    && (forall p :: p in upgraded ==> p in kind && !kind[p].TcpPort?)
    && (forall c: nat, k {:trigger At(listeners, c)[k]} :: 0 <= k < |At(listeners, c)| && At(listeners, c)[k].Some? ==>
          At(listeners, c)[k].value.pub in kind && !kind[At(listeners, c)[k].value.pub].TcpPort?)
  }

  /** A TCP channel that is no longer open is in no mapping, and while it is open the only
      id mapped to it is the one it remembers. */
  ghost predicate Tidy(s: Server, p: Public) {
    p in s.kind && s.kind[p].TcpPort? ==> forall i :: i in s.requestMapping && s.requestMapping[i] == p ==>
      p in s.openPublics && p in s.tcpFlag && s.tcpFlag[p] == i
  }

  ghost predicate PlainIn(s: State) {
    Plain(s.server.kind, s.server.upgraded, s.net.listeners)
  }

  lemma PlainSends(kind: map<Public, Kind>, upgraded: map<Public, WebSocket>, s: State, c: Conn, m: Message,
    l: Option<Listener>)
    requires Plain(kind, upgraded, s.net.listeners)
    requires l.Some? ==> l.value.pub in kind && !kind[l.value.pub].TcpPort?
    ensures Plain(kind, upgraded, Write(s, c, m, l).net.listeners)
  {
  }

  lemma PlainRequest(s: State, p: Public, c: Conn, service: string, id: Id, body: Bytes, upgrade: bool)
    requires PlainIn(s) && Enabled(s, HttpRequest(p, c, service, id, body, upgrade))
    ensures PlainIn(Step(s, HttpRequest(p, c, service, id, body, upgrade)))
  {
    var t := OnHttpRequest(s, p, c, service, id, body, upgrade);
    assert Step(s, HttpRequest(p, c, service, id, body, upgrade)) == t;
    PlainSends(t.server.kind, t.server.upgraded, s, c, Request(id, body, Some(service), true, 0),
      Some(Listener(id, p)));
  }

  lemma PlainChunk(s: State, e: Event)
    requires PlainIn(s) && (e.TcpChunk? || e.WebSocketChunk?)
    ensures PlainIn(Step(s, e))
  {
    if Enabled(s, e) && e.TcpChunk? {
      assert Step(s, e) == OnTcpChunk(s, e.p, e.newId, e.body);
      PlainSends(s.server.kind, s.server.upgraded, s, s.server.kind[e.p].conn, Request(0, e.body, None, false, 0),
        None);
    } else if Enabled(s, e) {
      assert Step(s, e) == OnWebSocketChunk(s, s.server.upgraded[e.p], e.body);
      PlainSends(s.server.kind, s.server.upgraded, s, s.server.upgraded[e.p].conn, Request(0, e.body, None, false, 0),
        None);
    }
  }

  lemma PlainChannels(s: State, e: Event)
    requires PlainIn(s) && (e.PublicOpens? || e.PublicCloses?)
    ensures PlainIn(Step(s, e))
  {
  }

  lemma PlainWrites(s: State, c: Conn, ok: bool)
    requires PlainIn(s)
    ensures PlainIn(Step(s, WriteCompletes(c, ok)))
  {
    WriteStep(s, c, ok);
    ListenersStep(s, WriteCompletes(c, ok));
  }

  lemma PlainElsewhere(s: State, e: Event)
    requires PlainIn(s) && !AtServer(e) && !e.WebSocketChunk?
    ensures PlainIn(Step(s, e))
  {
    ServerStays(s, e);
    ListenersStep(s, e);
  }

  /** Only requests and chunks add listeners. */
  lemma ListenersStep(s: State, e: Event)
    requires !e.HttpRequest? && !e.TcpChunk? && !e.WebSocketChunk?
    ensures forall c: nat, k {:trigger At(Step(s, e).net.listeners, c)[k]} ::
      0 <= k < |At(Step(s, e).net.listeners, c)| ==>
      At(Step(s, e).net.listeners, c)[k] in At(s.net.listeners, c)
  {
    if Enabled(s, e) {
      match e
      case WriteCompletes(c, ok) =>
        if ok { assert Do(s, e) == OnWriteSucceeds(s, c); } else { assert Do(s, e) == OnWriteFails(s, c); }
      case ConnectCompletes(k, ok, b, w) =>
        if ok { assert Do(s, e) == OnConnectSucceeds(s, k, b, w); } else { assert Do(s, e) == OnConnectFails(s, k); }
      case BackendReads(b, body) => assert Do(s, e) == OnBackendReads(s, b, body);
      case ResponseArrives(d) => assert Do(s, e) == OnResponseArrives(s, d);
      case RequestArrives(d, ok) => assert Do(s, e) == OnRequestArrives(s, d, ok);
      case _ =>
    }
  }

  lemma TidyStep(s: State, e: Event, p: Public)
    requires Channels(s) && PlainIn(s) && Tidy(s.server, p)
    ensures Tidy(Step(s, e).server, p)
  {
    if !AtServer(e) {
      ServerStays(s, e);
    } else if e.WriteCompletes? {
      TidyWrites(s, e.c, e.ok, p);
    } else if e.PublicCloses? && Enabled(s, e) {
      assert Step(s, e) == OnPublicCloses(s, e.p);
    }
  }

  lemma TidyWrites(s: State, c: Conn, ok: bool, p: Public)
    requires PlainIn(s) && Tidy(s.server, p)
    ensures Tidy(Step(s, WriteCompletes(c, ok)).server, p)
  {
    if Enabled(s, WriteCompletes(c, ok)) {
      if ok {
        assert Step(s, WriteCompletes(c, ok)) == OnWriteSucceeds(s, c);
        assert At(s.net.listeners, c)[0].Some? ==> At(s.net.listeners, c)[0].value.pub in s.server.kind;
      } else {
        assert Step(s, WriteCompletes(c, ok)) == OnWriteFails(s, c);
      }
    }
  }

  lemma {:induction false} TidyRun(run: seq<Event>, p: Public)
    ensures PlainIn(After(run)) && Tidy(After(run).server, p)
  {
    if run != [] {
      var s, e := After(run[..|run| - 1]), run[|run| - 1];
      TidyRun(run[..|run| - 1], p);
      EveryRun(run[..|run| - 1]);
      TidyStep(s, e, p);
      if e.WriteCompletes? {
        PlainWrites(s, e.c, e.ok);
      } else if e.TcpChunk? || e.WebSocketChunk? {
        PlainChunk(s, e);
      } else if e.HttpRequest? {
        if Enabled(s, e) {
          PlainRequest(s, e.p, e.c, e.service, e.newId, e.body, e.upgrade);
        }
      } else if AtServer(e) {
        PlainChannels(s, e);
      } else {
        PlainElsewhere(s, e);
      }
    }
  }

  /** In every run: a TCP channel that has closed leaves nothing behind in
      `REQUEST_MAPPING`, and an open one is mapped under the id it remembers only. */
  lemma {:induction false} TcpLeavesNothing(run: seq<Event>, p: Public, i: Id)
    requires p in After(run).server.kind && After(run).server.kind[p].TcpPort?
    requires i in After(run).server.requestMapping && After(run).server.requestMapping[i] == p
    ensures var s := After(run).server; p in s.openPublics && p in s.tcpFlag && s.tcpFlag[p] == i
  {
    TidyRun(run, p);
  }
}
