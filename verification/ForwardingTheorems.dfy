/** What the forwarding protocol guarantees in every run. */
module ForwardingTheorems {
  import opened Basics
  import opened Forwarding
  import opened ForwardingSafety
  import opened ForwardingConservation
  import opened ForwardingOrder
  import opened ForwardingRace

  ghost predicate Invariant(s: State) {
    Safe(s) && Present(s) && AllConserved(s) && Openings(s) && InOrder(s) && InLine(s)
  }

  /** Every invariant of the protocol holds after every run. */
  lemma {:induction false} EveryRun(run: seq<Event>)
    ensures Invariant(After(run))
  {
    if run != [] {
      var s, e := After(run[..|run| - 1]), run[|run| - 1];
      EveryRun(run[..|run| - 1]);
      SafeStep(s, e);
      PresentStep(s, e);
      ConservedStep(s, e);
      OpeningsStep(s, e);
      InOrderStep(s, e);
      InLineStep(s, e);
    }
  }

  // ------------------------------------------------ the record against the events

  /** Event `j` of a run took place and was `e`. */
  ghost predicate Happens(run: seq<Event>, j: nat, e: Event) {
    j < |run| && run[j] == e && Enabled(After(run[..j]), e)
  }

  lemma {:induction false} HappensLater(run: seq<Event>, j: nat, e: Event, last: Event)
    requires Happens(run, j, e)
    ensures Happens(run + [last], j, e)
  {
    assert (run + [last])[..j] == run[..j];
  }

  /** Event `j` of a run generated id `i`: for the channel it was read from, the tunnel
      it was sent to and the service it named. */
  ghost predicate Generates(run: seq<Event>, j: nat, i: Id, o: Owner) {
    && j < |run| && Enabled(After(run[..j]), run[j]) && IsGenerated(After(run[..j]), run[j], i, o)
  }

  ghost predicate IsGenerated(s: State, e: Event, i: Id, o: Owner)
    requires Enabled(s, e)
  {
    || (e.HttpRequest? && e.newId == i && o == Owner(e.p, e.c, e.service))
    || (e.TcpChunk? && e.newId == i && e.p !in s.server.tcpFlag
        && o == Owner(e.p, s.server.kind[e.p].conn, s.server.kind[e.p].service))
  }

  /** Every owner on record is what the event that generated the id said. */
  lemma {:induction false} OwnersAreGenerated(run: seq<Event>, i: Id)
    requires i in After(run).record.owner
    ensures exists j: nat :: Generates(run, j, i, After(run).record.owner[i])
  {
    var before, last := run[..|run| - 1], run[|run| - 1];
    var s := After(before);
    assert run == before + [last];
    if i in s.record.owner {
      OwnersAreGenerated(before, i);
      var j: nat :| Generates(before, j, i, s.record.owner[i]);
      assert run[..j] == before[..j];
      OwnerStays(s, last, i);
      assert Generates(run, j, i, After(run).record.owner[i]);
    } else {
      OwnerIsNew(s, last, i);
      assert Generates(run, |before|, i, After(run).record.owner[i]);
    }
  }

  lemma OwnerStays(s: State, e: Event, i: Id)
    requires i in s.record.owner
    ensures i in Step(s, e).record.owner && Step(s, e).record.owner[i] == s.record.owner[i]
  {
  }

  lemma OwnerIsNew(s: State, e: Event, i: Id)
    requires i !in s.record.owner && i in Step(s, e).record.owner
    ensures Enabled(s, e) && IsGenerated(s, e, i, Step(s, e).record.owner[i])
  {
  }

  /** The client of a tunnel never changes. */
  lemma ClientsStay(s: State, e: Event)
    ensures forall c :: c in s.net.clientOf ==>
      c in Step(s, e).net.clientOf && Step(s, e).net.clientOf[c] == s.net.clientOf[c]
  {
    if Enabled(s, e) {
      match e
      case WriteCompletes(c, ok) =>
        if ok { assert Do(s, e) == OnWriteSucceeds(s, c); } else { assert Do(s, e) == OnWriteFails(s, c); }
      case ConnectCompletes(k, ok, b, w) =>
        if ok { assert Do(s, e) == OnConnectSucceeds(s, k, b, w); } else { assert Do(s, e) == OnConnectFails(s, k); }
      case _ =>
    }
  }

  /** An owner never changes. */
  lemma {:induction false} OwnerForGood(run: seq<Event>, more: seq<Event>, i: Id)
    requires i in After(run).record.owner
    ensures i in After(run + more).record.owner && After(run + more).record.owner[i] == After(run).record.owner[i]
  {
    if more == [] {
      assert run + more == run;
    } else {
      var front := more[..|more| - 1];
      OwnerForGood(run, front, i);
      assert (run + more)[..|run + more| - 1] == run + front;
      OwnerStays(After(run + front), more[|more| - 1], i);
    }
  }

  /** Everything on record as read from a backend was read from it. */
  lemma {:induction false} HeardIsRead(run: seq<Event>, b: Backend, k: nat)
    requires k < |At(After(run).record.heard, b)|
    ensures exists j: nat :: Happens(run, j, BackendReads(b, At(After(run).record.heard, b)[k]))
  {
    var before, last, x := run[..|run| - 1], run[|run| - 1], At(After(run).record.heard, b)[k];
    var s := After(before);
    assert run == before + [last];
    if k < |At(s.record.heard, b)| {
      assert At(s.record.heard, b)[k] == x;
      HeardIsRead(before, b, k);
      var j: nat :| Happens(before, j, BackendReads(b, x));
      HappensLater(before, j, BackendReads(b, x), last);
    } else {
      assert Happens(run, |before|, BackendReads(b, x));
    }
  }

  /** The event read from a backend of `i` whose tunnel was open. */
  ghost predicate Sends(s: State, e: Event, i: Id) {
    && Enabled(s, e) && e.BackendReads? && s.client.links[e.b].id == i
    && s.client.links[e.b].conn in s.net.openConns
  }

  /** What the backends of an id sent into an open tunnel in a run, in order: from which
      backend and what. */
  ghost function ReadsInto(run: seq<Event>, i: Id): seq<(Backend, Bytes)> {
    if run == [] then []
    else
      var before, last := run[..|run| - 1], run[|run| - 1];
      ReadsInto(before, i) + if Sends(After(before), last, i) then [(last.b, last.body)] else []
  }

  lemma SentStep(s: State, e: Event, i: Id)
    ensures At(Step(s, e).record.sent, i) == At(s.record.sent, i)
      + if Sends(s, e, i) then [Response(i, e.body, e.b, |At(s.record.heard, e.b)|)] else []
  {
    if Enabled(s, e) {
      match e
      case WriteCompletes(c, ok) =>
        if ok { assert Do(s, e) == OnWriteSucceeds(s, c); } else { assert Do(s, e) == OnWriteFails(s, c); }
      case ConnectCompletes(k, ok, b, w) =>
        if ok { assert Do(s, e) == OnConnectSucceeds(s, k, b, w); } else { assert Do(s, e) == OnConnectFails(s, k); }
      case _ =>
    }
  }

  /** What is on record as sent for an id is what was read from its backends while their
      tunnel was open, message by message. */
  lemma {:induction false} SentIsRead(run: seq<Event>, i: Id)
    ensures var sent, read := At(After(run).record.sent, i), ReadsInto(run, i);
      && |sent| == |read|
      && forall k :: 0 <= k < |sent| ==>
           sent[k].Response? && sent[k].id == i && sent[k].from == read[k].0 && sent[k].body == read[k].1
  {
    if run != [] {
      SentIsRead(run[..|run| - 1], i);
      SentStep(After(run[..|run| - 1]), run[|run| - 1], i);
    }
  }

  /** An event that carried chunk `x` of id `i` from channel `p`. */
  ghost predicate IsChunk(s: State, e: Event, i: Id, p: Public, x: Bytes) {
    && Enabled(s, e)
    && match e {
         case HttpRequest(q, _, _, newId, body, _) => q == p && newId == i && body == x
         case TcpChunk(q, newId, body) => q == p && TcpId(s, p, newId) == i && body == x
         case WebSocketChunk(q, body) => q == p && s.server.upgraded[p].id == i && body == x
         case _ => false
       }
  }

  ghost predicate Carries(run: seq<Event>, j: nat, i: Id, p: Public, x: Bytes) {
    j < |run| && IsChunk(After(run[..j]), run[j], i, p, x)
  }

  lemma ChunkStep(s: State, e: Event, i: Id, k: nat)
    requires Safe(s) && Enabled(s, e) && k < |At(ChunksAfter(s, e), i)|
    ensures k < |At(s.record.chunks, i)| ==> At(ChunksAfter(s, e), i)[k] == At(s.record.chunks, i)[k]
    ensures i in OwnersAfter(s, e)
    ensures k >= |At(s.record.chunks, i)| ==> IsChunk(s, e, i, OwnersAfter(s, e)[i].pub, At(ChunksAfter(s, e), i)[k])
  {
  }

  lemma {:induction false} CarriesLater(run: seq<Event>, j: nat, i: Id, p: Public, x: Bytes, last: Event)
    requires Carries(run, j, i, p, x)
    ensures Carries(run + [last], j, i, p, x)
  {
    assert (run + [last])[..j] == run[..j];
  }

  /** Everything on record as a chunk of an id was sent by the id's owner. */
  lemma {:induction false} ChunksAreSent(run: seq<Event>, t: State, i: Id, k: nat)
    requires t == After(run) && k < |At(t.record.chunks, i)|
    ensures i in t.record.owner
    ensures exists j: nat :: Carries(run, j, i, t.record.owner[i].pub, At(t.record.chunks, i)[k])
  {
    var before, last := run[..|run| - 1], run[|run| - 1];
    var s := After(before);
    assert run == before + [last];
    EveryRun(before);
    if Enabled(s, last) {
      ChunkStep(s, last, i, k);
      if k >= |At(s.record.chunks, i)| {
        assert Carries(run, |before|, i, t.record.owner[i].pub, At(t.record.chunks, i)[k]);
        return;
      }
    }
    ChunksAreSent(before, s, i, k);
    OwnerStays(s, last, i);
    var j: nat :| Carries(before, j, i, s.record.owner[i].pub, At(s.record.chunks, i)[k]);
    CarriesLater(before, j, i, s.record.owner[i].pub, At(s.record.chunks, i)[k], last);
  }

  // ------------------------------------------------ no cross-talk

  /** Whatever reaches a public channel was read, in this run, from a backend
      connection opened for an id that was generated for that same channel. */
  lemma {:induction false} NoCrossTalk(run: seq<Event>, p: Public, k: nat)
    requires k < |At(After(run).record.delivered, p)|
    ensures var s, m := After(run), At(After(run).record.delivered, p)[k];
      && m.Response? && m.from in s.client.links && s.client.links[m.from].id == m.id
      && (exists j: nat :: Happens(run, j, BackendReads(m.from, m.body)))
      && m.id in s.record.owner && s.record.owner[m.id].pub == p
      && (exists j: nat :: Generates(run, j, m.id, s.record.owner[m.id]))
  {
    EveryRun(run);
    var s, m := After(run), At(After(run).record.delivered, p)[k];
    assert DeliveredResponse(s.record.owner, s.client.links, s.record.heard, p, m);
    HeardIsRead(run, m.from, m.no);
    OwnersAreGenerated(run, m.id);
  }

  /** Whatever a backend is given was sent, in this run, by the public channel that the
      id of the backend was generated for. */
  lemma {:induction false} NoRequestCrossTalk(run: seq<Event>, b: Backend, k: nat)
    requires k < |At(After(run).record.inputs, b)|
    ensures var s, m := After(run), At(After(run).record.inputs, b)[k];
      && b in s.client.links && s.client.links[b].id in s.record.owner
      && (exists j: nat :: Carries(run, j, s.client.links[b].id, s.record.owner[s.client.links[b].id].pub, m.body))
  {
    EveryRun(run);
    var s, q := After(run), At(After(run).record.inputs, b);
    assert InputOk(s.record.owner, s.record.chunks, s.client.links[b], q);
    assert RequestOk(s.record.owner, s.record.chunks, s.client.links[b].conn, q[k]);
    ChunksAreSent(run, s, s.client.links[b].id, q[k].no);
  }

  // ------------------------------------------------ response conservation

  /** For every id: what the public channel received is a prefix of what the backends
      sent into the tunnel; while channel and tunnel are open, the rest is in flight. */
  lemma {:induction false} ResponsesConserved(run: seq<Event>, i: Id)
    requires i in After(run).record.owner
    ensures var s, o := After(run), After(run).record.owner[i];
      && Only(At(s.record.delivered, o.pub), i) <= At(s.record.sent, i)
      && (o.pub in s.server.openPublics && o.conn in s.net.openConns ==>
            Only(At(s.record.delivered, o.pub), i) + Only(At(s.net.up, o.conn), i) == At(s.record.sent, i))
  {
    EveryRun(run);
    var s, o := After(run), After(run).record.owner[i];
    assert ConservedFor(o, i, s.server.openPublics, s.net.openConns, At(s.record.delivered, o.pub),
      At(s.net.up, o.conn), At(s.record.sent, i));
  }

  // ------------------------------------------------ request order

  /** The next request of a tunnel is not mapped and names a service its client has, and
      it is an HTTP request or the service is a TCP service. */
  ghost predicate StartsConnect(s: State, c: Conn)
    requires c in s.net.clientOf && At(s.net.down, c) != []
  {
    var m := At(s.net.down, c)[0];
    && (s.net.clientOf[c], m.id) !in s.client.clientMapping
    && m.Request? && m.service.Some? && c in s.client.forward && m.service.value in s.client.forward[c]
    && (m.http || s.client.forward[c][m.service.value].tcp)
  }

  /** The event starts a connect for `i` while one is pending. */
  ghost predicate IsRace(s: State, e: Event, i: Id) {
    && Enabled(s, e) && e.RequestArrives? && At(s.net.down, e.c)[0].id == i && StartsConnect(s, e.c)
    && exists k :: 0 <= k < |s.client.connects| && s.client.connects[k].request.id == i
  }

  /** Event `j` of a run did so. */
  ghost predicate RaceAt(run: seq<Event>, j: nat, i: Id) {
    j < |run| && IsRace(After(run[..j]), run[j], i)
  }

  lemma {:induction false} RacedStep(s: State, e: Event, i: Id)
    ensures i in Step(s, e).record.raced <==> i in s.record.raced || IsRace(s, e, i)
  {
    if Enabled(s, e) {
      match e
      case WriteCompletes(c, ok) =>
        if ok { assert Do(s, e) == OnWriteSucceeds(s, c); } else { assert Do(s, e) == OnWriteFails(s, c); }
      case ConnectCompletes(k, ok, b, w) =>
        if ok { assert Do(s, e) == OnConnectSucceeds(s, k, b, w); } else { assert Do(s, e) == OnConnectFails(s, k); }
      case _ =>
    }
  }

  /** `raced` is what its name says. */
  lemma {:induction false} RacedMeans(run: seq<Event>, i: Id)
    ensures i in After(run).record.raced <==> exists j: nat :: RaceAt(run, j, i)
  {
    if run != [] {
      var before, last := run[..|run| - 1], run[|run| - 1];
      assert run == before + [last];
      RacedMeans(before, i);
      RacedStep(After(before), last, i);
      forall j: nat | j < |before| ensures RaceAt(run, j, i) <==> RaceAt(before, j, i) {
        assert run[..j] == before[..j];
      }
      assert RaceAt(run, |before|, i) <==> IsRace(After(before), last, i);
    }
  }

  /** The chunk a message carries is the chunk with its number. */
  ghost predicate AreChunks(q: seq<Message>, chunks: seq<Bytes>) {
    forall k :: 0 <= k < |q| ==> q[k].no < |chunks| && q[k].body == chunks[q[k].no]
  }

  lemma ChunksConcat(a: seq<Message>, b: seq<Message>, chunks: seq<Bytes>)
    requires AreChunks(a, chunks) && AreChunks(b, chunks)
    ensures AreChunks(a + b, chunks)
  {
  }

  lemma {:induction false} GivenIsChunks(s: State, backends: seq<Backend>, i: Id)
    requires Safe(s) && forall k :: 0 <= k < |backends| ==>
      backends[k] in s.client.links && s.client.links[backends[k]].id == i
    ensures AreChunks(Given(backends, s.record.inputs), At(s.record.chunks, i))
  {
    if backends != [] {
      var b, rest := backends[|backends| - 1], backends[..|backends| - 1];
      var q := At(s.record.inputs, b);
      GivenIsChunks(s, rest, i);
      assert InputOk(s.record.owner, s.record.chunks, s.client.links[b], q);
      forall k | 0 <= k < |q|
        ensures q[k].no < |At(s.record.chunks, i)| && q[k].body == At(s.record.chunks, i)[q[k].no] {
        assert RequestOk(s.record.owner, s.record.chunks, s.client.links[b].conn, q[k]);
      }
      ChunksConcat(Given(rest, s.record.inputs), q, At(s.record.chunks, i));
    }
  }

  /** Without a race, the backends of an id, in the order in which they were opened, are
      given its chunks in the order the public channel sent them, each at most once. */
  lemma {:induction false} RequestsInOrder(run: seq<Event>, i: Id)
    requires i in After(run).record.owner
    requires forall j: nat :: !RaceAt(run, j, i)
    ensures var s := After(run);
      var given := Given(At(s.record.openings, i), s.record.inputs);
      Increasing(given) && AreChunks(given, At(s.record.chunks, i))
  {
    EveryRun(run);
    RacedMeans(run, i);
    var s := After(run);
    var given := Given(At(s.record.openings, i), s.record.inputs);
    assert Tracks(s, i);
    IncreasingTakes(Arrived(s, i), Travelling(s, i, s.record.owner[i].conn));
    IncreasingTakes(given, Waiting(s.client.connects, i));
    GivenIsChunks(s, At(s.record.openings, i), i);
  }

  /** The event loses a request of `i`: the tunnel it is handed to is closed, its write
      or its connect fails, or it reaches no backend. */
  ghost predicate Loses(s: State, e: Event, i: Id) {
    && Enabled(s, e)
    && match e {
         case HttpRequest(_, c, _, newId, _, _) => newId == i && c !in s.net.openConns
         case TcpChunk(p, newId, _) => TcpId(s, p, newId) == i && s.server.kind[p].conn !in s.net.openConns
         case WebSocketChunk(p, _) => s.server.upgraded[p].id == i && s.server.upgraded[p].conn !in s.net.openConns
         case WriteCompletes(c, ok) => !ok && At(s.net.outbound, c)[0].id == i
         case RequestArrives(c, ok) =>
           && At(s.net.down, c)[0].id == i
           && (if (s.net.clientOf[c], i) in s.client.clientMapping
               then !ok || s.client.clientMapping[(s.net.clientOf[c], i)] !in s.client.openBackends
               else !StartsConnect(s, c))
         case ConnectCompletes(k, ok, _, written) => !(ok && written) && s.client.connects[k].request.id == i
         case _ => false
       }
  }

  lemma {:induction false} LostStep(s: State, e: Event, i: Id)
    ensures i in Step(s, e).record.lost <==> i in s.record.lost || Loses(s, e, i)
  {
    if Enabled(s, e) {
      match e
      case WriteCompletes(c, ok) =>
        if ok { assert Do(s, e) == OnWriteSucceeds(s, c); } else { assert Do(s, e) == OnWriteFails(s, c); }
      case ConnectCompletes(k, ok, b, w) =>
        if ok { assert Do(s, e) == OnConnectSucceeds(s, k, b, w); } else { assert Do(s, e) == OnConnectFails(s, k); }
      case _ =>
    }
  }

  ghost predicate LossAt(run: seq<Event>, j: nat, i: Id) {
    j < |run| && Loses(After(run[..j]), run[j], i)
  }

  /** `lost` is what its name says. */
  lemma {:induction false} LostMeans(run: seq<Event>, i: Id)
    ensures i in After(run).record.lost <==> exists j: nat :: LossAt(run, j, i)
  {
    if run != [] {
      var before, last := run[..|run| - 1], run[|run| - 1];
      assert run == before + [last];
      LostMeans(before, i);
      LostStep(After(before), last, i);
      forall j: nat | j < |before| ensures LossAt(run, j, i) <==> LossAt(before, j, i) {
        assert run[..j] == before[..j];
      }
      assert LossAt(run, |before|, i) <==> Loses(After(before), last, i);
    }
  }

  function Bodies(q: seq<Message>): (r: seq<Bytes>)
    ensures |r| == |q| && forall k :: 0 <= k < |q| ==> r[k] == q[k].body
  {
    seq(|q|, k requires 0 <= k < |q| => q[k].body)
  }

  lemma {:induction false} OnlyIsChunks(q: seq<Message>, i: Id, chunks: seq<Bytes>)
    requires forall k :: 0 <= k < |q| && q[k].id == i ==> q[k].no < |chunks| && q[k].body == chunks[q[k].no]
    ensures forall k :: 0 <= k < |Only(q, i)| ==>
      Only(q, i)[k].no < |chunks| && Only(q, i)[k].body == chunks[Only(q, i)[k].no]
  {
    if q != [] {
      OnlyIsChunks(q[..|q| - 1], i, chunks);
    }
  }

  lemma {:induction false} WaitingIsChunks(q: seq<Connect>, i: Id, chunks: seq<Bytes>)
    requires forall k :: 0 <= k < |q| && q[k].request.id == i ==>
      q[k].request.no < |chunks| && q[k].request.body == chunks[q[k].request.no]
    ensures forall k :: 0 <= k < |Waiting(q, i)| ==>
      Waiting(q, i)[k].no < |chunks| && Waiting(q, i)[k].body == chunks[Waiting(q, i)[k].no]
  {
    if q != [] {
      WaitingIsChunks(q[..|q| - 1], i, chunks);
    }
  }

  lemma {:induction false} QueueIsChunks(owner: Owners, chunks: Chunks, q: Queues, c: nat, i: Id)
    requires QueuesOk(owner, chunks, q)
    ensures AreChunks(Only(At(q, c), i), At(chunks, i))
  {
    assert RequestsOk(owner, chunks, c, At(q, c));
    forall k | 0 <= k < |At(q, c)| && At(q, c)[k].id == i
      ensures At(q, c)[k].no < |At(chunks, i)| && At(q, c)[k].body == At(chunks, i)[At(q, c)[k].no]
    {
      assert RequestOk(owner, chunks, c, At(q, c)[k]);
    }
    OnlyIsChunks(At(q, c), i, At(chunks, i));
  }

  lemma {:induction false} LineIsChunks(s: State, i: Id, c: Conn)
    requires Safe(s) && Openings(s)
    ensures AreChunks(Given(At(s.record.openings, i), s.record.inputs), At(s.record.chunks, i))
    ensures AreChunks(Arrived(s, i) + Travelling(s, i, c), At(s.record.chunks, i))
  {
    var chunks := At(s.record.chunks, i);
    GivenIsChunks(s, At(s.record.openings, i), i);
    forall k | 0 <= k < |s.client.connects| && s.client.connects[k].request.id == i
      ensures s.client.connects[k].request.no < |chunks|
        && s.client.connects[k].request.body == chunks[s.client.connects[k].request.no]
    {
      assert ConnectOk(s.record.owner, s.record.chunks, s.client.connects[k]);
    }
    WaitingIsChunks(s.client.connects, i, chunks);
    QueueIsChunks(s.record.owner, s.record.chunks, s.net.down, c, i);
    QueueIsChunks(s.record.owner, s.record.chunks, s.net.outbound, c, i);
    ChunksConcat(Given(At(s.record.openings, i), s.record.inputs), Waiting(s.client.connects, i), chunks);
    ChunksConcat(Only(At(s.net.down, c), i), Only(At(s.net.outbound, c), i), chunks);
    ChunksConcat(Arrived(s, i), Travelling(s, i, c), chunks);
  }

  lemma {:induction false} ExactBodies(q: seq<Message>, chunks: seq<Bytes>)
    requires Exact(q) && AreChunks(q, chunks)
    ensures Bodies(q) <= chunks
    ensures |q| == |chunks| ==> Bodies(q) == chunks
  {
    forall k | 0 <= k < |q| ensures Bodies(q)[k] == chunks[k] && k < |chunks| {
      assert q[k].no == k;
    }
    if q != [] {
      assert q[|q| - 1].no < |chunks|;
    }
  }

  /** Without a race or a loss, what the backends of an id were given is an exact prefix
      of what the public channel sent and, while the tunnel is open, what waits for a
      connect and what travels is the rest of it. */
  lemma {:induction false} RequestsComplete(run: seq<Event>, i: Id)
    requires i in After(run).record.owner
    requires forall j: nat :: !RaceAt(run, j, i) && !LossAt(run, j, i)
    ensures var s := After(run);
      && Bodies(Given(At(s.record.openings, i), s.record.inputs)) <= At(s.record.chunks, i)
      && (s.record.owner[i].conn in s.net.openConns ==>
            Bodies(Arrived(s, i) + Travelling(s, i, s.record.owner[i].conn)) == At(s.record.chunks, i))
  {
    EveryRun(run);
    RacedMeans(run, i);
    LostMeans(run, i);
    CompleteBodies(After(run), i);
  }

  lemma {:induction false} CompleteBodies(s: State, i: Id)
    requires Safe(s) && Openings(s) && i in s.record.owner && Tracks(s, i) && i !in s.record.raced
      && i !in s.record.lost
    ensures Bodies(Given(At(s.record.openings, i), s.record.inputs)) <= At(s.record.chunks, i)
    ensures s.record.owner[i].conn in s.net.openConns ==>
      Bodies(Arrived(s, i) + Travelling(s, i, s.record.owner[i].conn)) == At(s.record.chunks, i)
  {
    var c, given := s.record.owner[i].conn, Given(At(s.record.openings, i), s.record.inputs);
    LineIsChunks(s, i, c);
    forall k | 0 <= k < |given| ensures given[k].no == k {
      assert given[k] == Arrived(s, i)[k];
    }
    ExactBodies(given, At(s.record.chunks, i));
    if c in s.net.openConns {
      ExactBodies(Arrived(s, i) + Travelling(s, i, c), At(s.record.chunks, i));
    }
  }

  // ------------------------------------------------ a race breaks the order

  lemma {:induction false} WaitingAt(q: seq<Connect>, i: Id, k: nat, l: nat)
    requires k < l < |q| && q[k].request.id == i && q[l].request.id == i && Increasing(Waiting(q, i))
    ensures q[k].request.no < q[l].request.no
  {
    var a, b, c := q[..k], q[k + 1..l], q[l + 1..];
    assert q == (a + [q[k]]) + (b + ([q[l]] + c));
    WaitingConcat(a + [q[k]], b + ([q[l]] + c), i);
    WaitingConcat(a, [q[k]], i);
    WaitingOne(q[k], i);
    WaitingConcat(b, [q[l]] + c, i);
    WaitingConcat([q[l]], c, i);
    WaitingOne(q[l], i);
    var w, x, y := Waiting(q, i), |Waiting(a, i)|, |Waiting(a, i)| + 1 + |Waiting(b, i)|;
    assert w[x] == q[k].request && w[y] == q[l].request;
  }

  lemma {:induction false} PendingNumbers(s: State, i: Id, k: nat, l: nat)
    requires Requests(s) && OwnersOk(s.record.owner, s.net.clientOf, s.server.kind, s.record.chunks) && InLine(s)
    requires k < l < |s.client.connects| && s.client.connects[k].request.id == i && s.client.connects[l].request.id == i
    ensures s.client.connects[k].request.no < s.client.connects[l].request.no
    ensures s.client.connects[k].conn in s.net.clientOf && s.client.connects[l].conn in s.net.clientOf
  {
    assert ConnectOk(s.record.owner, s.record.chunks, s.client.connects[k]);
    assert ConnectOk(s.record.owner, s.record.chunks, s.client.connects[l]);
    IncreasingTakes(Waiting(s.client.connects, i), Travelling(s, i, s.record.owner[i].conn));
    WaitingAt(s.client.connects, i, k, l);
  }

  lemma {:induction false} GivenTwo(s: State, i: Id, k: nat, l: nat, b: Backend, d: Backend)
    requires OpeningsOk(s.record.openings, s.client.links) && OpeningsDistinct(s.record.openings)
    requires k < l < |s.client.connects| && s.client.connects[k].conn in s.net.clientOf
      && s.client.connects[l].conn in s.net.clientOf
    requires s.client.connects[k].request.id == i && s.client.connects[l].request.id == i
    requires b !in s.client.links && d !in s.client.links && b != d && At(s.record.inputs, b) == []
      && At(s.record.inputs, d) == []
    ensures var t := OnConnectSucceeds(OnConnectSucceeds(s, l, b, true), k, d, true);
      Given(At(t.record.openings, i), t.record.inputs)
        == Given(At(s.record.openings, i), s.record.inputs)
          + [s.client.connects[l].request] + [s.client.connects[k].request]
  {
    var n := s.client.connects[l];
    var u := OnConnectSucceeds(s, l, b, true);
    OpeningsPush(s.record.openings, s.client.links, i, b, Link(i, n.conn, n.target));
    GivenSucceeds(s, l, b, true, i);
    GivenSucceeds(u, k, d, true, i);
  }

  lemma StepConnect(s: State, k: nat, b: Backend)
    requires k < |s.client.connects| && s.client.connects[k].conn in s.net.clientOf && b !in s.client.links
    ensures Step(s, ConnectCompletes(k, true, b, true)) == OnConnectSucceeds(s, k, b, true)
  {
  }

  lemma {:induction false} AfterOne(run: seq<Event>, s: State, e: Event)
    requires s == After(run)
    ensures After(run + [e]) == Step(s, e)
  {
    assert (run + [e])[..|run|] == run;
  }

  lemma {:induction false} AfterTwo(run: seq<Event>, s: State, e: Event, t: State, f: Event)
    requires s == After(run) && t == Step(s, e)
    ensures After(run + [e, f]) == Step(t, f)
  {
    AfterOne(run, s, e);
    AfterOne(run + [e], t, f);
    assert run + [e] + [f] == run + [e, f];
  }

  lemma {:induction false} OtherOrder(s: State, i: Id, k: nat, l: nat, b: Backend, d: Backend)
    requires Invariant(s) && k < l < |s.client.connects|
    requires s.client.connects[k].request.id == i && s.client.connects[l].request.id == i
    requires b !in s.client.links && d !in s.client.links && b != d
    ensures var t := Step(Step(s, ConnectCompletes(l, true, b, true)), ConnectCompletes(k, true, d, true));
      !Increasing(Given(At(t.record.openings, i), t.record.inputs))
  {
    PendingNumbers(s, i, k, l);
    GivenTwo(s, i, k, l, b, d);
    StepConnect(s, l, b);
    StepConnect(OnConnectSucceeds(s, l, b, true), k, d);
    OutOfOrder(Given(At(s.record.openings, i), s.record.inputs), s.client.connects[l].request,
      s.client.connects[k].request);
  }

  /** Whenever two connects of one id are pending, they can complete in the other order,
      and then a backend opened later is given the earlier chunk. */
  lemma {:induction false} RaceBreaksOrder(run: seq<Event>, i: Id, k: nat, l: nat, b: Backend, d: Backend)
    requires k < l < |After(run).client.connects|
    requires After(run).client.connects[k].request.id == i && After(run).client.connects[l].request.id == i
    requires b !in After(run).client.links && d !in After(run).client.links && b != d
    ensures var t := After(run + [ConnectCompletes(l, true, b, true), ConnectCompletes(k, true, d, true)]);
      !Increasing(Given(At(t.record.openings, i), t.record.inputs))
  {
    var s, e := After(run), ConnectCompletes(l, true, b, true);
    EveryRun(run);
    OtherOrder(s, i, k, l, b, d);
    AfterTwo(run, s, e, Step(s, e), ConnectCompletes(k, true, d, true));
  }

  /** A race leaves two connects of its id pending, so every race can end in the wrong
      order: the condition of `RequestsInOrder` cannot be relaxed. */
  lemma {:induction false} RaceIsFatal(run: seq<Event>, i: Id, b: Backend, d: Backend)
    requires run != [] && RaceAt(run, |run| - 1, i)
    requires b !in After(run).client.links && d !in After(run).client.links && b != d
    ensures exists k: nat, l: nat ::
      var t := After(run + [ConnectCompletes(l, true, b, true), ConnectCompletes(k, true, d, true)]);
      !Increasing(Given(At(t.record.openings, i), t.record.inputs))
  {
    var s, t, c := After(run[..|run| - 1]), After(run), run[|run| - 1].c;
    var k: nat :| k < |s.client.connects| && s.client.connects[k].request.id == i;
    assert t.client.connects == s.client.connects + [ConnectFor(s, c)];
    var l := |s.client.connects|;
    RaceBreaksOrder(run, i, k, l, b, d);
  }

  lemma {:induction false} OutOfOrder(given: seq<Message>, n: Message, m: Message)
    requires m.no < n.no
    ensures !Increasing(given + [n] + [m])
  {
    var g := given + [n] + [m];
    assert g[|given|].no > g[|given| + 1].no;
  }

  // ------------------------------------------------ service fidelity

  /** Event `j` of a run handled a request of `i` that named the service of `o` in the
      tunnel of `o`, and started a connect to where the client's table had that service. */
  ghost predicate OpenedAt(run: seq<Event>, j: nat, i: Id, o: Owner, target: Service) {
    && j < |run| && run[j].RequestArrives? && Enabled(After(run[..j]), run[j])
    && IsOpening(After(run[..j]), run[j].c, i, o, target)
  }

  ghost predicate IsOpening(s: State, c: Conn, i: Id, o: Owner, target: Service) {
    && At(s.net.down, c) != [] && !IsMapped(s, c)
    && At(s.net.down, c)[0].Request? && At(s.net.down, c)[0].id == i && At(s.net.down, c)[0].service == Some(o.service)
    && c == o.conn && c in s.client.forward && o.service in s.client.forward[c]
    && target == s.client.forward[c][o.service]
  }

  /** A connect that is pending after a step was pending before, or is the one that the
      step has started. */
  lemma {:induction false} ConnectStep(s: State, e: Event, k: nat)
    requires Safe(s) && k < |Step(s, e).client.connects|
    ensures var n := Step(s, e).client.connects[k];
      || (exists l: nat :: l < |s.client.connects| && s.client.connects[l] == n)
      || (e.RequestArrives? && Enabled(s, e) && n.request.id in s.record.owner
          && IsOpening(s, e.c, n.request.id, s.record.owner[n.request.id], n.target))
  {
    var q, t := s.client.connects, Step(s, e);
    if Enabled(s, e) && e.RequestArrives? {
      ConnectStarts(s, e.c, e.ok, k);
    } else if Enabled(s, e) && e.ConnectCompletes? {
      if e.ok { assert t == OnConnectSucceeds(s, e.k, e.b, e.written); } else { assert t == OnConnectFails(s, e.k); }
      assert t.client.connects[k] == q[if k < e.k then k else k + 1];
    } else {
      ConnectsQuiet(s, e);
      assert q[k] == t.client.connects[k];
    }
  }

  lemma {:induction false} ConnectStarts(s: State, c: Conn, ok: bool, k: nat)
    requires Safe(s) && c in s.net.clientOf && At(s.net.down, c) != []
    requires k < |OnRequestArrives(s, c, ok).client.connects|
    ensures var q, n := s.client.connects, OnRequestArrives(s, c, ok).client.connects[k];
      (k < |q| && q[k] == n)
      || (n.request.id in s.record.owner && IsOpening(s, c, n.request.id, s.record.owner[n.request.id], n.target))
  {
    QueuesPop(s.record.owner, s.record.chunks, s.net.down, c);
  }

  lemma ConnectsQuiet(s: State, e: Event)
    requires Enabled(s, e) ==> !e.RequestArrives? && !e.ConnectCompletes?
    ensures Step(s, e).client.connects == s.client.connects && Step(s, e).client.links == s.client.links
  {
  }

  lemma LinkStep(s: State, e: Event, b: Backend)
    requires b in Step(s, e).client.links
    ensures (b in s.client.links && s.client.links[b] == Step(s, e).client.links[b])
      || exists l: nat :: l < |s.client.connects| && s.client.connects[l].request.id == Step(s, e).client.links[b].id
           && s.client.connects[l].target == Step(s, e).client.links[b].target
  {
    if Enabled(s, e) && e.ConnectCompletes? {
      if e.ok {
        assert Step(s, e) == OnConnectSucceeds(s, e.k, e.b, e.written);
      } else {
        assert Step(s, e) == OnConnectFails(s, e.k);
      }
    } else if !(Enabled(s, e) && e.RequestArrives?) {
      ConnectsQuiet(s, e);
    }
  }

  lemma {:induction false} OpenedLater(run: seq<Event>, j: nat, i: Id, o: Owner, target: Service, last: Event)
    requires OpenedAt(run, j, i, o, target)
    ensures OpenedAt(run + [last], j, i, o, target)
  {
    assert (run + [last])[..j] == run[..j];
  }

  /** Every pending connect goes to where the client's table had the service that its
      request named, when that request was handled. */
  lemma {:induction false} ConnectFidelity(run: seq<Event>, t: State, k: nat)
    requires t == After(run) && k < |t.client.connects|
    ensures var n := t.client.connects[k];
      && n.request.id in t.record.owner
      && exists j: nat :: OpenedAt(run, j, n.request.id, t.record.owner[n.request.id], n.target)
  {
    var before, last, n := run[..|run| - 1], run[|run| - 1], t.client.connects[k];
    var s, i := After(before), n.request.id;
    assert run == before + [last];
    EveryRun(before);
    ConnectStep(s, last, k);
    if l: nat :| l < |s.client.connects| && s.client.connects[l] == n {
      ConnectFidelity(before, s, l);
      OwnerStays(s, last, i);
      var j: nat :| OpenedAt(before, j, i, s.record.owner[i], n.target);
      OpenedLater(before, j, i, s.record.owner[i], n.target, last);
    } else {
      OwnerStays(s, last, i);
      assert OpenedAt(run, |before|, i, s.record.owner[i], n.target);
    }
  }

  /** Every backend connection of an id goes to where the client's table had the service
      of that id when the request that opened the connection was handled; and the service
      is the one named by the event that generated the id. */
  lemma {:induction false} ServiceFidelity(run: seq<Event>, t: State, b: Backend)
    requires t == After(run) && b in t.client.links
    ensures var i := t.client.links[b].id;
      && i in t.record.owner
      && (exists j: nat :: OpenedAt(run, j, i, t.record.owner[i], t.client.links[b].target))
      && (exists j: nat :: Generates(run, j, i, t.record.owner[i]))
  {
    LinkFidelity(run, t, b);
    OwnersAreGenerated(run, t.client.links[b].id);
  }

  lemma {:induction false} LinkFidelity(run: seq<Event>, t: State, b: Backend)
    requires t == After(run) && b in t.client.links
    ensures var i := t.client.links[b].id;
      i in t.record.owner && exists j: nat :: OpenedAt(run, j, i, t.record.owner[i], t.client.links[b].target)
  {
    var before, last, link := run[..|run| - 1], run[|run| - 1], t.client.links[b];
    var s, i := After(before), link.id;
    assert run == before + [last];
    LinkStep(s, last, b);
    if b in s.client.links && s.client.links[b] == link {
      LinkFidelity(before, s, b);
    } else {
      var l: nat :|
        l < |s.client.connects| && s.client.connects[l].request.id == i && s.client.connects[l].target == link.target;
      ConnectFidelity(before, s, l);
    }
    OwnerStays(s, last, i);
    var j: nat :| OpenedAt(before, j, i, s.record.owner[i], link.target);
    OpenedLater(before, j, i, s.record.owner[i], link.target, last);
  }

  /** A request of tunnel `c` is somewhere: it waits for its write, travels, waits in a
      connect, or was given to a backend. */
  ghost predicate IsSomewhere(s: State, c: Conn, m: Message) {
    || (exists k :: 0 <= k < |At(s.net.outbound, c)| && At(s.net.outbound, c)[k] == m)
    || (exists k :: 0 <= k < |At(s.net.down, c)| && At(s.net.down, c)[k] == m)
    || (exists k :: 0 <= k < |s.client.connects| && s.client.connects[k].request == m && s.client.connects[k].conn == c)
    || (exists b, k :: IsGiven(s, c, b, k, m))
  }

  ghost predicate IsGiven(s: State, c: Conn, b: Backend, k: int, m: Message) {
    && b in s.client.links && s.client.links[b].conn == c
    && 0 <= k < |At(s.record.inputs, b)| && At(s.record.inputs, b)[k] == m
  }

  lemma {:induction false} SomewhereOk(s: State, c: Conn, m: Message)
    requires Safe(s) && IsSomewhere(s, c, m)
    ensures RequestOk(s.record.owner, s.record.chunks, c, m)
  {
    assert RequestsOk(s.record.owner, s.record.chunks, c, At(s.net.outbound, c));
    assert RequestsOk(s.record.owner, s.record.chunks, c, At(s.net.down, c));
    if k :| 0 <= k < |s.client.connects| && s.client.connects[k].request == m && s.client.connects[k].conn == c {
      assert ConnectOk(s.record.owner, s.record.chunks, s.client.connects[k]);
    }
    if b, k :| IsGiven(s, c, b, k, m) {
      assert InputOk(s.record.owner, s.record.chunks, s.client.links[b], At(s.record.inputs, b));
      assert RequestsOk(s.record.owner, s.record.chunks, c, At(s.record.inputs, b));
    }
  }

  predicate Names(m: Message, o: Owner)
    requires m.Request?
  {
    m.service.Some? ==> m.service.value == o.service
  }

  lemma SomewhereOwned(s: State, c: Conn, m: Message)
    requires Invariant(s) && IsSomewhere(s, c, m)
    ensures m.Request? && m.id in s.record.owner && s.record.owner[m.id].conn == c && Names(m, s.record.owner[m.id])
  {
    SomewhereOk(s, c, m);
  }

  lemma {:induction false} SomewhereAfter(run: seq<Event>, c: Conn, m: Message)
    requires IsSomewhere(After(run), c, m)
    ensures var owner := After(run).record.owner;
      m.Request? && m.id in owner && owner[m.id].conn == c && Names(m, owner[m.id])
  {
    EveryRun(run);
    SomewhereOwned(After(run), c, m);
  }

  /** All requests of one id, wherever they are and however far apart in a run, belong to
      one tunnel and name one service, or none: those of the event that generated the id. */
  lemma {:induction false} OneServicePerId(run: seq<Event>, more: seq<Event>, c: Conn, m: Message, d: Conn, n: Message)
    requires IsSomewhere(After(run), c, m) && IsSomewhere(After(run + more), d, n) && m.id == n.id
    ensures c == d && m.Request? && n.Request? && (m.service.Some? && n.service.Some? ==> m.service == n.service)
    ensures exists j: nat, o :: Generates(run, j, m.id, o) && o.conn == c && Names(m, o) && Names(n, o)
  {
    SomewhereAfter(run, c, m);
    SomewhereAfter(run + more, d, n);
    OwnerForGood(run, more, m.id);
    OwnersAreGenerated(run, m.id);
  }
}
