/** The backends of an id: which one the client has it mapped to, how many there are and
    what each is given, all read off the events of the run. */
module ForwardingBackends {
  import opened Basics
  import opened Forwarding
  import opened ForwardingSafety
  import opened ForwardingConservation
  import opened ForwardingTheorems

  /** A key of the client's `REQUEST_MAPPING`. */
  type Key = (Client, Id)

  // ------------------------------------------------ which backend an id is mapped to

  /** The event completes a connect of the key. */
  predicate Attaches(s: State, e: Event, key: Key) {
    && Enabled(s, e) && e.ConnectCompletes? && e.ok
    && s.client.connects[e.k].request.id == key.1 && s.net.clientOf[s.client.connects[e.k].conn] == key.0
  }

  /** It is the close of a backend that was opened for the key, however long ago. */
  predicate Detaches(s: State, e: Event, key: Key) {
    && Enabled(s, e) && e.BackendUnmapped?
    && s.client.links[e.b].id == key.1 && s.net.clientOf[s.client.links[e.b].conn] == key.0
  }

  ghost predicate AttachesAt(run: seq<Event>, j: nat, key: Key) {
    j < |run| && Attaches(After(run[..j]), run[j], key)
  }

  ghost predicate DetachesAt(run: seq<Event>, j: nat, key: Key) {
    j < |run| && Detaches(After(run[..j]), run[j], key)
  }

  lemma KeyConnects(s: State, k: nat, ok: bool, b: Backend, written: bool, key: Key)
    ensures var e := ConnectCompletes(k, ok, b, written);
      var r, u := s.client.clientMapping, Step(s, e).client.clientMapping;
      && (key in u <==> Attaches(s, e, key) || key in r)
      && (key in u ==> u[key] == if Attaches(s, e, key) then b else r[key])
  {
    if Enabled(s, ConnectCompletes(k, ok, b, written)) {
      if ok {
        assert Step(s, ConnectCompletes(k, ok, b, written)) == OnConnectSucceeds(s, k, b, written);
      } else {
        assert Step(s, ConnectCompletes(k, ok, b, written)) == OnConnectFails(s, k);
      }
    }
  }

  lemma KeyQuiet(s: State, e: Event)
    requires !e.ConnectCompletes? && !e.BackendUnmapped?
    ensures Step(s, e).client.clientMapping == s.client.clientMapping
  {
  }

  lemma KeyStep(s: State, e: Event, key: Key)
    ensures var r, u := s.client.clientMapping, Step(s, e).client.clientMapping;
      && (key in u <==> Attaches(s, e, key) || (key in r && !Detaches(s, e, key)))
      && (key in u ==> u[key] == if Attaches(s, e, key) then e.b else r[key])
  {
    if e.ConnectCompletes? {
      KeyConnects(s, e.k, e.ok, e.b, e.written, key);
    } else if !e.BackendUnmapped? {
      KeyQuiet(s, e);
    }
  }

  /** Event `j` opened backend `b` for the key, and nothing since then opened another or
      closed one of the key. */
  ghost predicate LastAttached(run: seq<Event>, j: nat, key: Key, b: Backend) {
    && AttachesAt(run, j, key) && run[j].b == b
    && forall l: nat :: j < l ==> !AttachesAt(run, l, key) && !DetachesAt(run, l, key)
  }

  lemma {:induction false} LastLater(run: seq<Event>, e: Event, key: Key, b: Backend)
    ensures (exists j: nat :: LastAttached(run + [e], j, key, b)) <==>
      if Attaches(After(run), e, key) then e.b == b
      else (exists j: nat :: LastAttached(run, j, key, b)) && !Detaches(After(run), e, key)
  {
    var longer := run + [e];
    forall l: nat | l < |run|
      ensures AttachesAt(longer, l, key) <==> AttachesAt(run, l, key)
      ensures DetachesAt(longer, l, key) <==> DetachesAt(run, l, key)
    {
      assert longer[..l] == run[..l];
    }
    assert longer[..|run|] == run;
    assert AttachesAt(longer, |run|, key) <==> Attaches(After(run), e, key);
    assert DetachesAt(longer, |run|, key) <==> Detaches(After(run), e, key);
    if Attaches(After(run), e, key) && e.b == b {
      assert LastAttached(longer, |run|, key, b);
    } else if j: nat :| LastAttached(run, j, key, b) {
      assert !Attaches(After(run), e, key) && !Detaches(After(run), e, key) ==> LastAttached(longer, j, key, b);
    }
    if j: nat :| LastAttached(longer, j, key, b) {
      assert j < |run| ==> LastAttached(run, j, key, b);
    }
  }

  /** In every run: an id is mapped to the backend whose connect was the last of the id to
      complete on that client, from that moment on and until a backend of the id is
      closed, and to nothing otherwise. */
  lemma {:induction false} MappedMeans(run: seq<Event>, key: Key, b: Backend)
    ensures key in After(run).client.clientMapping && After(run).client.clientMapping[key] == b
      <==> exists j: nat :: LastAttached(run, j, key, b)
  {
    if run != [] {
      var before, last := run[..|run| - 1], run[|run| - 1];
      assert run == before + [last];
      MappedMeans(before, key, b);
      KeyStep(After(before), last, key);
      LastLater(before, last, key, b);
    }
  }

  // ------------------------------------------------ how many backends an id has

  /** The event opens a backend for `i`. */
  ghost predicate OpensFor(s: State, e: Event, i: Id) {
    Enabled(s, e) && e.ConnectCompletes? && e.ok && s.client.connects[e.k].request.id == i
  }

  ghost predicate OpensAt(run: seq<Event>, j: nat, i: Id) {
    j < |run| && OpensFor(After(run[..j]), run[j], i)
  }

  /** The event is the close of a backend of `i`. */
  ghost predicate ClosesFor(s: State, e: Event, i: Id) {
    Enabled(s, e) && e.BackendUnmapped? && s.client.links[e.b].id == i
  }

  ghost predicate ClosesAt(run: seq<Event>, j: nat, i: Id) {
    j < |run| && ClosesFor(After(run[..j]), run[j], i)
  }

  /** At most one connect of the id is pending; when a backend has been opened for it, none
      is, and the id is mapped. */
  ghost predicate Single(q: seq<Connect>, clientOf: map<Conn, Client>, mapping: map<Key, Backend>,
    owner: map<Id, Owner>, i: Id, open: bool)
  {
    && (forall k, l :: 0 <= k < l < |q| ==> !(q[k].request.id == i && q[l].request.id == i))
    && (open ==>
          && i in owner && owner[i].conn in clientOf && (clientOf[owner[i].conn], i) in mapping
          && forall k :: 0 <= k < |q| ==> q[k].request.id != i)
  }

  ghost predicate SingleIn(s: State, i: Id, open: bool) {
    Single(s.client.connects, s.net.clientOf, s.client.clientMapping, s.record.owner, i, open)
  }

  /** The requests of a tunnel, and the connects they start, belong to ids of the tunnel. */
  lemma HeadOwned(s: State, c: Conn)
    requires Safe(s) && At(s.net.down, c) != []
    ensures At(s.net.down, c)[0].id in s.record.owner && s.record.owner[At(s.net.down, c)[0].id].conn == c
  {
    QueuesPop(s.record.owner, s.record.chunks, s.net.down, c);
  }

  lemma ConnectOwned(s: State, k: nat)
    requires Safe(s) && k < |s.client.connects|
    ensures var n := s.client.connects[k];
      && n.request.id in s.record.owner && s.record.owner[n.request.id].conn == n.conn
      && n.conn in s.net.clientOf
  {
    assert ConnectOk(s.record.owner, s.record.chunks, s.client.connects[k]);
  }

  lemma ConnectsAfterRequest(s: State, c: Conn, ok: bool)
    requires Enabled(s, RequestArrives(c, ok))
    ensures Step(s, RequestArrives(c, ok)).client.connects == s.client.connects
      + if StartsConnect(s, c)
        then [Connect(At(s.net.down, c)[0], c, s.client.forward[c][At(s.net.down, c)[0].service.value])] else []
  {
    assert Step(s, RequestArrives(c, ok)) == OnRequestArrives(s, c, ok);
  }

  lemma ConnectsAfterConnect(s: State, k: nat, ok: bool, b: Backend, written: bool)
    requires Enabled(s, ConnectCompletes(k, ok, b, written))
    ensures Step(s, ConnectCompletes(k, ok, b, written)).client.connects
      == s.client.connects[..k] + s.client.connects[k + 1..]
  {
    if ok {
      assert Step(s, ConnectCompletes(k, ok, b, written)) == OnConnectSucceeds(s, k, b, written);
    } else {
      assert Step(s, ConnectCompletes(k, ok, b, written)) == OnConnectFails(s, k);
    }
  }

  lemma SingleRequest(s: State, c: Conn, ok: bool, i: Id, open: bool)
    requires Safe(s) && Enabled(s, RequestArrives(c, ok)) && SingleIn(s, i, open)
    requires !IsRace(s, RequestArrives(c, ok), i)
    ensures SingleIn(Step(s, RequestArrives(c, ok)), i, open)
  {
    var e := RequestArrives(c, ok);
    ClientsStay(s, e);
    ConnectsAfterRequest(s, c, ok);
    HeadOwned(s, c);
    KeyQuiet(s, e);
    if open {
      OwnerStays(s, e, i);
    }
  }

  lemma SingleConnect(s: State, k: nat, ok: bool, b: Backend, written: bool, i: Id, open: bool)
    requires Safe(s) && Enabled(s, ConnectCompletes(k, ok, b, written)) && SingleIn(s, i, open)
    ensures var e := ConnectCompletes(k, ok, b, written);
      && (OpensFor(s, e, i) ==> !open)
      && SingleIn(Step(s, e), i, open || OpensFor(s, e, i))
  {
    var e := ConnectCompletes(k, ok, b, written);
    var q, r := s.client.connects, s.client.connects[..k] + s.client.connects[k + 1..];
    ClientsStay(s, e);
    ConnectsAfterConnect(s, k, ok, b, written);
    ConnectOwned(s, k);
    assert forall x :: 0 <= x < |r| ==> r[x] == q[if x < k then x else x + 1];
    if open || OpensFor(s, e, i) {
      OwnerStays(s, e, i);
      KeyStep(s, e, (s.net.clientOf[s.record.owner[i].conn], i));
    }
  }

  lemma SingleQuiet(s: State, e: Event, i: Id, open: bool)
    requires Safe(s) && SingleIn(s, i, open) && !ClosesFor(s, e, i)
    requires Enabled(s, e) ==> !e.RequestArrives? && !e.ConnectCompletes?
    ensures SingleIn(Step(s, e), i, open)
  {
    ClientsStay(s, e);
    ConnectsQuiet(s, e);
    if open {
      OwnerStays(s, e, i);
      KeyStep(s, e, (s.net.clientOf[s.record.owner[i].conn], i));
    }
  }

  lemma SingleStep(s: State, e: Event, i: Id, open: bool)
    requires Safe(s) && SingleIn(s, i, open) && !ClosesFor(s, e, i) && !IsRace(s, e, i)
    ensures OpensFor(s, e, i) ==> !open
    ensures SingleIn(Step(s, e), i, open || OpensFor(s, e, i))
  {
    if Enabled(s, e) && e.RequestArrives? {
      SingleRequest(s, e.c, e.ok, i, open);
    } else if Enabled(s, e) && e.ConnectCompletes? {
      SingleConnect(s, e.k, e.ok, e.b, e.written, i, open);
    } else {
      SingleQuiet(s, e, i, open);
    }
  }

  lemma {:induction false} EventsBefore(run: seq<Event>, e: Event, j: nat, i: Id)
    ensures OpensAt(run + [e], j, i) <==> if j == |run| then OpensFor(After(run), e, i) else OpensAt(run, j, i)
    ensures ClosesAt(run + [e], j, i) <==> if j == |run| then ClosesFor(After(run), e, i) else ClosesAt(run, j, i)
    ensures RaceAt(run + [e], j, i) <==> if j == |run| then IsRace(After(run), e, i) else RaceAt(run, j, i)
  {
    if j < |run| {
      assert (run + [e])[..j] == run[..j];
    } else if j == |run| {
      assert (run + [e])[..j] == run;
    }
  }

  /** What the last event adds to the two questions asked of a run. */
  lemma {:induction false} QuietBefore(run: seq<Event>, e: Event, i: Id)
    requires forall j: nat :: !RaceAt(run + [e], j, i) && !ClosesAt(run + [e], j, i)
    ensures forall j: nat :: !RaceAt(run, j, i) && !ClosesAt(run, j, i)
    ensures !IsRace(After(run), e, i) && !ClosesFor(After(run), e, i)
  {
    forall j: nat ensures !RaceAt(run, j, i) && !ClosesAt(run, j, i) {
      assert !RaceAt(run + [e], j, i) && !ClosesAt(run + [e], j, i);
      EventsBefore(run, e, j, i);
    }
    assert !RaceAt(run + [e], |run|, i) && !ClosesAt(run + [e], |run|, i);
    EventsBefore(run, e, |run|, i);
  }

  ghost predicate OpenedOnce(run: seq<Event>, i: Id) {
    forall j: nat, l: nat :: OpensAt(run, j, i) && OpensAt(run, l, i) ==> j == l
  }

  lemma {:induction false} OpensLater(run: seq<Event>, e: Event, i: Id)
    ensures (exists j: nat :: OpensAt(run + [e], j, i)) <==>
      (exists j: nat :: OpensAt(run, j, i)) || OpensFor(After(run), e, i)
    ensures OpenedOnce(run, i) && (OpensFor(After(run), e, i) ==> forall j: nat :: !OpensAt(run, j, i)) ==>
      OpenedOnce(run + [e], i)
  {
    forall j: nat
      ensures OpensAt(run + [e], j, i) <==> if j == |run| then OpensFor(After(run), e, i) else OpensAt(run, j, i)
    {
      EventsBefore(run, e, j, i);
    }
    assert OpensAt(run + [e], |run|, i) <==> OpensFor(After(run), e, i);
  }

  lemma {:induction false} SingleRun(run: seq<Event>, i: Id)
    requires forall j: nat :: !RaceAt(run, j, i) && !ClosesAt(run, j, i)
    ensures SingleIn(After(run), i, exists j: nat :: OpensAt(run, j, i)) && OpenedOnce(run, i)
  {
    if run != [] {
      var before, last := run[..|run| - 1], run[|run| - 1];
      assert run == before + [last];
      QuietBefore(before, last, i);
      SingleRun(before, i);
      EveryRun(before);
      SingleStep(After(before), last, i, exists j: nat :: OpensAt(before, j, i));
      OpensLater(before, last, i);
    }
  }

  /** In a run in which no connect of the id starts while one is pending and no backend of
      it is closed, at most one backend is ever opened for the id. */
  lemma {:induction false} OneBackend(run: seq<Event>, i: Id, j: nat, l: nat)
    requires forall k: nat :: !RaceAt(run, k, i) && !ClosesAt(run, k, i)
    requires OpensAt(run, j, i) && OpensAt(run, l, i)
    ensures j == l
  {
    SingleRun(run, i);
  }

  // ------------------------------------------------ what a backend is given

  /** What the event gives a backend: a request of an id that is mapped to it, or the one
      that opened it. */
  function Gives(s: State, e: Event, b: Backend): seq<Message> {
    if !Enabled(s, e) then []
    else if e.RequestArrives? then
      var m := At(s.net.down, e.c)[0];
      var key := (s.net.clientOf[e.c], m.id);
      if key in s.client.clientMapping && s.client.clientMapping[key] == b && b in s.client.openBackends && e.ok
        then [m] else []
    else if e.ConnectCompletes? && e.ok && e.written && e.b == b then [s.client.connects[e.k].request]
    else []
  }

  ghost function GivenIn(run: seq<Event>, b: Backend): seq<Message> {
    if run == [] then []
    else GivenIn(run[..|run| - 1], b) + Gives(After(run[..|run| - 1]), run[|run| - 1], b)
  }

  lemma GivesConnect(s: State, k: nat, ok: bool, d: Backend, written: bool, b: Backend)
    requires Enabled(s, ConnectCompletes(k, ok, d, written))
    ensures var e := ConnectCompletes(k, ok, d, written);
      At(Step(s, e).record.inputs, b) == At(s.record.inputs, b) + Gives(s, e, b)
  {
    if ok {
      assert Step(s, ConnectCompletes(k, ok, d, written)) == OnConnectSucceeds(s, k, d, written);
    } else {
      assert Step(s, ConnectCompletes(k, ok, d, written)) == OnConnectFails(s, k);
    }
  }

  lemma GivesRequest(s: State, c: Conn, ok: bool, b: Backend)
    requires Enabled(s, RequestArrives(c, ok))
    ensures At(Step(s, RequestArrives(c, ok)).record.inputs, b)
      == At(s.record.inputs, b) + Gives(s, RequestArrives(c, ok), b)
  {
    assert Step(s, RequestArrives(c, ok)) == OnRequestArrives(s, c, ok);
  }

  lemma GivesNothing(s: State, e: Event)
    requires Enabled(s, e) ==> !e.RequestArrives? && !e.ConnectCompletes?
    ensures Step(s, e).record.inputs == s.record.inputs
  {
    if Enabled(s, e) {
      match e
      case HttpRequest(p, c, service, id, body, upgrade) =>
        assert Do(s, e) == OnHttpRequest(s, p, c, service, id, body, upgrade);
      case TcpChunk(p, newId, body) => assert Do(s, e) == OnTcpChunk(s, p, newId, body);
      case WebSocketChunk(p, body) => assert Do(s, e) == OnWebSocketChunk(s, s.server.upgraded[p], body);
      case WriteCompletes(c, ok) =>
        if ok { assert Do(s, e) == OnWriteSucceeds(s, c); } else { assert Do(s, e) == OnWriteFails(s, c); }
      case BackendReads(b, body) => assert Do(s, e) == OnBackendReads(s, b, body);
      case ResponseArrives(c) => assert Do(s, e) == OnResponseArrives(s, c);
      case _ =>
    }
  }

  /** What is on record as given to a backend is what the events of the run gave it, in
      their order. */
  lemma {:induction false} GivenIsRouted(run: seq<Event>, b: Backend)
    ensures At(After(run).record.inputs, b) == GivenIn(run, b)
  {
    if run != [] {
      var s, e := After(run[..|run| - 1]), run[|run| - 1];
      GivenIsRouted(run[..|run| - 1], b);
      if Enabled(s, e) && e.RequestArrives? {
        GivesRequest(s, e.c, e.ok, b);
      } else if Enabled(s, e) && e.ConnectCompletes? {
        GivesConnect(s, e.k, e.ok, e.b, e.written, b);
      } else {
        GivesNothing(s, e);
      }
    }
  }

  // ------------------------------------------------ what an unmapped request does

  /** An unmapped request starts exactly one connect, to where the client has the service
      it names, if it is an HTTP request or the service is a TCP service; if the service is
      missing or unknown, or a plain chunk names an HTTP service, it is lost.  A mapped one
      does neither. */
  lemma RequestMeans(s: State, c: Conn, ok: bool)
    requires Safe(s) && Enabled(s, RequestArrives(c, ok))
    ensures var m, t := At(s.net.down, c)[0], Step(s, RequestArrives(c, ok));
      var known := m.Request? && m.service.Some? && c in s.client.forward && m.service.value in s.client.forward[c];
      && m.Request? && t.client.clientMapping == s.client.clientMapping && t.client.forward == s.client.forward
      && ((s.net.clientOf[c], m.id) in s.client.clientMapping ==> t.client.connects == s.client.connects)
      && ((s.net.clientOf[c], m.id) !in s.client.clientMapping ==>
            if known && (m.http || s.client.forward[c][m.service.value].tcp) then
              && t.client.connects == s.client.connects + [Connect(m, c, s.client.forward[c][m.service.value])]
              && t.record.lost == s.record.lost
            else t.client.connects == s.client.connects && t.record.lost == s.record.lost + {m.id})
  {
    assert Step(s, RequestArrives(c, ok)) == OnRequestArrives(s, c, ok);
    QueuesPop(s.record.owner, s.record.chunks, s.net.down, c);
  }

  // ------------------------------------------------ which client a tunnel leads to

  ghost predicate LeadsAt(run: seq<Event>, j: nat, c: Conn, client: Client) {
    j < |run| && Leads(After(run[..j]), run[j], c, client)
  }

  predicate Leads(s: State, e: Event, c: Conn, client: Client) {
    Enabled(s, e) && e.TunnelOpens? && e.c == c && e.client == client
  }

  lemma LeadsStep(s: State, e: Event, c: Conn, client: Client)
    ensures c in Step(s, e).net.clientOf && Step(s, e).net.clientOf[c] == client <==>
      (c in s.net.clientOf && s.net.clientOf[c] == client) || Leads(s, e, c, client)
  {
    if !e.TunnelOpens? {
      ClientsKeep(s, e);
    }
  }

  lemma ClientsKeep(s: State, e: Event)
    requires !e.TunnelOpens?
    ensures Step(s, e).net.clientOf == s.net.clientOf
  {
    if Enabled(s, e) {
      match e
      case WriteCompletes(c, ok) =>
        if ok { assert Do(s, e) == OnWriteSucceeds(s, c); } else { assert Do(s, e) == OnWriteFails(s, c); }
      case RequestArrives(c, ok) => assert Do(s, e) == OnRequestArrives(s, c, ok);
      case ConnectCompletes(k, ok, b, w) =>
        if ok { assert Do(s, e) == OnConnectSucceeds(s, k, b, w); } else { assert Do(s, e) == OnConnectFails(s, k); }
      case _ =>
    }
  }

  /** In every run: a tunnel leads to the client that opened it. */
  lemma {:induction false} ClientsMean(run: seq<Event>, c: Conn, client: Client)
    ensures c in After(run).net.clientOf && After(run).net.clientOf[c] == client <==>
      exists j: nat :: LeadsAt(run, j, c, client)
  {
    if run != [] {
      var before, last := run[..|run| - 1], run[|run| - 1];
      ClientsMean(before, c, client);
      LeadsStep(After(before), last, c, client);
      forall j: nat | j < |before| ensures LeadsAt(run, j, c, client) <==> LeadsAt(before, j, c, client) {
        assert run[..j] == before[..j];
      }
      assert LeadsAt(run, |before|, c, client) <==> Leads(After(before), last, c, client);
    }
  }

  // ------------------------------------------------ which services a client has

  /** The event gives the tunnel's client a service: the tunnel opens with it, or it is
      added. */
  predicate Provides(s: State, e: Event, c: Conn, name: string, target: Service) {
    && Enabled(s, e)
    && ((e.TunnelOpens? && e.c == c && name in e.services && e.services[name] == target)
        || (e.ServiceAdded? && e.c == c && e.name == name && e.target == target))
  }

  /** It gives the name another meaning, or none. */
  predicate Replaces(s: State, e: Event, c: Conn, name: string) {
    && Enabled(s, e)
    && (e.TunnelOpens? || e.ServiceAdded? || e.ServiceRemoved?) && e.c == c && (e.TunnelOpens? || e.name == name)
  }

  predicate Has(forward: map<Conn, map<string, Service>>, c: Conn, name: string, target: Service) {
    c in forward && name in forward[c] && forward[c][name] == target
  }

  lemma ForwardStays(s: State, e: Event)
    requires !e.TunnelOpens? && !e.ServiceAdded? && !e.ServiceRemoved?
    ensures Step(s, e).client.forward == s.client.forward
  {
    if Enabled(s, e) {
      match e
      case RequestArrives(c, ok) => assert Do(s, e) == OnRequestArrives(s, c, ok);
      case ConnectCompletes(k, ok, b, w) =>
        if ok { assert Do(s, e) == OnConnectSucceeds(s, k, b, w); } else { assert Do(s, e) == OnConnectFails(s, k); }
      case _ =>
    }
  }

  lemma HasStep(s: State, e: Event, c: Conn, name: string, target: Service)
    ensures Has(Step(s, e).client.forward, c, name, target) <==>
      Provides(s, e, c, name, target) || (Has(s.client.forward, c, name, target) && !Replaces(s, e, c, name))
  {
    if !e.TunnelOpens? && !e.ServiceAdded? && !e.ServiceRemoved? {
      ForwardStays(s, e);
    }
  }

  ghost predicate ProvidesAt(run: seq<Event>, j: nat, c: Conn, name: string, target: Service) {
    j < |run| && Provides(After(run[..j]), run[j], c, name, target)
  }

  ghost predicate ReplacesAt(run: seq<Event>, j: nat, c: Conn, name: string) {
    j < |run| && Replaces(After(run[..j]), run[j], c, name)
  }

  ghost predicate LastProvided(run: seq<Event>, j: nat, c: Conn, name: string, target: Service) {
    ProvidesAt(run, j, c, name, target) && forall l: nat :: j < l ==> !ReplacesAt(run, l, c, name)
  }

  lemma {:induction false} ProvidedLater(run: seq<Event>, e: Event, c: Conn, name: string, target: Service)
    ensures (exists j: nat :: LastProvided(run + [e], j, c, name, target)) <==>
      || Provides(After(run), e, c, name, target)
      || ((exists j: nat :: LastProvided(run, j, c, name, target)) && !Replaces(After(run), e, c, name))
  {
    var longer := run + [e];
    forall l: nat | l < |run|
      ensures ProvidesAt(longer, l, c, name, target) <==> ProvidesAt(run, l, c, name, target)
      ensures ReplacesAt(longer, l, c, name) <==> ReplacesAt(run, l, c, name)
    {
      assert longer[..l] == run[..l];
    }
    assert longer[..|run|] == run;
    assert ProvidesAt(longer, |run|, c, name, target) <==> Provides(After(run), e, c, name, target);
    assert ReplacesAt(longer, |run|, c, name) <==> Replaces(After(run), e, c, name);
    if Provides(After(run), e, c, name, target) {
      assert LastProvided(longer, |run|, c, name, target);
    } else if j: nat :| LastProvided(run, j, c, name, target) {
      assert !Replaces(After(run), e, c, name) ==> LastProvided(longer, j, c, name, target);
    }
    if j: nat :| LastProvided(longer, j, c, name, target) {
      assert j < |run| ==> LastProvided(run, j, c, name, target);
    }
  }

  /** In every run: the client of a tunnel has a service under a name exactly if the tunnel
      opened with it or it was added, and the name was not added or removed since. */
  lemma {:induction false} ServicesMean(run: seq<Event>, c: Conn, name: string, target: Service)
    ensures Has(After(run).client.forward, c, name, target) <==>
      exists j: nat :: LastProvided(run, j, c, name, target)
  {
    if run != [] {
      var before, last := run[..|run| - 1], run[|run| - 1];
      assert run == before + [last];
      ServicesMean(before, c, name, target);
      HasStep(After(before), last, c, name, target);
      ProvidedLater(before, last, c, name, target);
    }
  }

  // ------------------------------------------------ which backends are open

  ghost predicate BeginsAt(run: seq<Event>, j: nat, b: Backend) {
    j < |run| && Begins(After(run[..j]), run[j], b)
  }

  predicate Begins(s: State, e: Event, b: Backend) {
    Enabled(s, e) && e.ConnectCompletes? && e.ok && e.b == b
  }

  ghost predicate EndsAt(run: seq<Event>, j: nat, b: Backend) {
    j < |run| && Ends(After(run[..j]), run[j], b)
  }

  predicate Ends(s: State, e: Event, b: Backend) {
    Enabled(s, e) && e == BackendCloses(b)
  }

  lemma BackendConnects(s: State, k: nat, ok: bool, d: Backend, written: bool, b: Backend)
    ensures var e, t := ConnectCompletes(k, ok, d, written), Step(s, ConnectCompletes(k, ok, d, written)).client;
      && (b in t.openBackends <==> Begins(s, e, b) || b in s.client.openBackends)
      && (b in t.links <==> Begins(s, e, b) || b in s.client.links)
  {
    if Enabled(s, ConnectCompletes(k, ok, d, written)) {
      if ok {
        assert Step(s, ConnectCompletes(k, ok, d, written)) == OnConnectSucceeds(s, k, d, written);
      } else {
        assert Step(s, ConnectCompletes(k, ok, d, written)) == OnConnectFails(s, k);
      }
    }
  }

  lemma BackendsQuiet(s: State, e: Event)
    requires !e.ConnectCompletes? && !e.BackendCloses?
    ensures Step(s, e).client.openBackends == s.client.openBackends && Step(s, e).client.links == s.client.links
  {
    if Enabled(s, e) && e.RequestArrives? {
      assert Do(s, e) == OnRequestArrives(s, e.c, e.ok);
    }
  }

  lemma BackendStep(s: State, e: Event, b: Backend)
    ensures var t := Step(s, e).client;
      && (b in t.openBackends <==> Begins(s, e, b) || (b in s.client.openBackends && !Ends(s, e, b)))
      && (b in t.links <==> Begins(s, e, b) || b in s.client.links)
  {
    if e.ConnectCompletes? {
      BackendConnects(s, e.k, e.ok, e.b, e.written, b);
    } else if !e.BackendCloses? {
      BackendsQuiet(s, e);
    }
  }

  lemma {:induction false} EndsLater(run: seq<Event>, e: Event, b: Backend)
    ensures (exists j: nat :: BeginsAt(run + [e], j, b)) <==>
      (exists j: nat :: BeginsAt(run, j, b)) || Begins(After(run), e, b)
    ensures (exists j: nat :: EndsAt(run + [e], j, b)) <==>
      (exists j: nat :: EndsAt(run, j, b)) || Ends(After(run), e, b)
  {
    forall j: nat | j < |run|
      ensures BeginsAt(run + [e], j, b) <==> BeginsAt(run, j, b)
      ensures EndsAt(run + [e], j, b) <==> EndsAt(run, j, b)
    {
      assert (run + [e])[..j] == run[..j];
    }
    assert (run + [e])[..|run|] == run;
    assert BeginsAt(run + [e], |run|, b) <==> Begins(After(run), e, b);
    assert EndsAt(run + [e], |run|, b) <==> Ends(After(run), e, b);
  }

  /** In every run: a backend is open exactly if a connect that opened it has completed and
      it has not closed. */
  lemma {:induction false} OpenMeans(run: seq<Event>, b: Backend)
    ensures b in After(run).client.links <==> exists j: nat :: BeginsAt(run, j, b)
    ensures b in After(run).client.openBackends <==>
      (exists j: nat :: BeginsAt(run, j, b)) && forall j: nat :: !EndsAt(run, j, b)
    ensures (exists j: nat :: EndsAt(run, j, b)) ==> b in After(run).client.links
  {
    if run != [] {
      var before, last := run[..|run| - 1], run[|run| - 1];
      assert run == before + [last];
      OpenMeans(before, b);
      BackendStep(After(before), last, b);
      EndsLater(before, last, b);
    }
  }
}
