/** A request does reach its service, and the answer its channel: a run from the empty state
    in which an HTTP request of a channel on the shared port is answered, and, if it asked
    for an upgrade, a chunk of the upgraded channel follows it to the same backend. */
module ForwardingRoundTrip {
  import opened Basics
  import opened Forwarding
  import ForwardingRaces

  /** Channel 0 asks service `name` for `x`; backend 9 answers `y`. */
  function AskAndAnswer(name: string, target: Service, x: Bytes, y: Bytes, upgrade: bool): seq<Event> {
    [TunnelOpens(0, 0, map[name := target]), PublicOpens(0, RoutePort), HttpRequest(0, 0, name, 1, x, upgrade),
     WriteCompletes(0, true), RequestArrives(0, true), ConnectCompletes(0, true, 9, true), BackendReads(9, y),
     ResponseArrives(0)]
  }

  // ------------------------------------------------ the states of the run

  ghost predicate Ready(s: State, name: string, target: Service, u: map<Public, WebSocket>) {
    && s.net.openConns == {0} && s.net.clientOf == map[0 := 0] && s.net.up == map[]
    && s.client.forward == map[0 := map[name := target]] && s.client.clientMapping == map[]
    && s.client.links == map[] && s.server.openPublics == {0} && s.server.upgraded == u
    && s.record.inputs == map[] && s.record.delivered == map[] && s.record.lost == {} && s.record.heard == map[]
  }

  ghost predicate Begun(s: State, name: string, target: Service) {
    && Ready(s, name, target, map[]) && s.client.connects == [] && s.net.outbound == map[] && s.net.listeners == map[]
    && s.net.down == map[] && s.record.owner == map[] && s.record.chunks == map[]
    && s.server.kind == map[0 := RoutePort]
  }

  ghost predicate Asked(s: State, name: string, target: Service, u: map<Public, WebSocket>, m: Message) {
    && Ready(s, name, target, u) && s.client.connects == [] && s.net.down == map[] && |At(s.record.chunks, 1)| == 1
    && At(s.net.outbound, 0) == [m] && At(s.net.listeners, 0) == [Some(Listener(1, 0))]
  }

  /** Nothing waits for a write, and the id is mapped to the channel. */
  ghost predicate IsMapped(s: State) {
    && At(s.net.outbound, 0) == [] && At(s.net.listeners, 0) == [] && |At(s.record.chunks, 1)| == 1
    && 1 in s.server.requestMapping && s.server.requestMapping[1] == 0
  }

  ghost predicate Travels(s: State, name: string, target: Service, u: map<Public, WebSocket>, m: Message) {
    Ready(s, name, target, u) && s.client.connects == [] && At(s.net.down, 0) == [m] && IsMapped(s)
  }

  ghost predicate Pending(s: State, name: string, target: Service, u: map<Public, WebSocket>, m: Message) {
    && Ready(s, name, target, u) && s.client.connects == [Connect(m, 0, target)] && At(s.net.down, 0) == []
    && IsMapped(s)
  }

  /** The backend is open, linked to the id and mapped under it, and has been given these
      messages. */
  ghost predicate Attached(s: State, target: Service, u: map<Public, WebSocket>, given: seq<Message>) {
    && s.client.links == map[9 := Link(1, 0, target)] && s.client.clientMapping == map[(0, 1) := 9]
    && 9 in s.client.openBackends && At(s.record.inputs, 9) == given && s.record.lost == {}
    && s.net.openConns == {0} && s.net.clientOf == map[0 := 0] && At(s.net.down, 0) == [] && IsMapped(s)
    && s.server.openPublics == {0} && s.server.upgraded == u
  }

  ghost predicate Awaits(s: State, up: seq<Message>, heard: nat) {
    At(s.net.up, 0) == up && s.record.delivered == map[] && |At(s.record.heard, 9)| == heard
  }

  // ------------------------------------------------ its steps

  lemma Begins(name: string, target: Service)
    ensures Begun(Step(Step(INIT, TunnelOpens(0, 0, map[name := target])), PublicOpens(0, RoutePort)), name, target)
  {
  }

  function Upgraded(upgrade: bool): map<Public, WebSocket> {
    if upgrade then map[0 := WebSocket(1, 0)] else map[]
  }

  lemma Asks(s: State, name: string, target: Service, x: Bytes, upgrade: bool)
    requires Begun(s, name, target)
    ensures Asked(Step(s, HttpRequest(0, 0, name, 1, x, upgrade)), name, target, Upgraded(upgrade),
      Request(1, x, Some(name), true, 0))
  {
    assert Step(s, HttpRequest(0, 0, name, 1, x, upgrade)) == OnHttpRequest(s, 0, 0, name, 1, x, upgrade);
  }

  lemma IsWritten(s: State, name: string, target: Service, u: map<Public, WebSocket>, m: Message)
    requires Asked(s, name, target, u, m)
    ensures Travels(Step(s, WriteCompletes(0, true)), name, target, u, m)
  {
    assert Step(s, WriteCompletes(0, true)) == OnWriteSucceeds(s, 0);
  }

  lemma IsRead(s: State, name: string, target: Service, u: map<Public, WebSocket>, x: Bytes)
    requires Travels(s, name, target, u, Request(1, x, Some(name), true, 0))
    ensures Pending(Step(s, RequestArrives(0, true)), name, target, u, Request(1, x, Some(name), true, 0))
  {
    assert Step(s, RequestArrives(0, true)) == OnRequestForService(s, 0);
  }

  lemma IsConnected(s: State, name: string, target: Service, u: map<Public, WebSocket>, m: Message)
    requires Pending(s, name, target, u, m) && m.id == 1
    ensures var t := Step(s, ConnectCompletes(0, true, 9, true)); Attached(t, target, u, [m]) && Awaits(t, [], 0)
  {
    assert Step(s, ConnectCompletes(0, true, 9, true)) == OnConnectSucceeds(s, 0, 9, true);
  }

  lemma Answers(s: State, target: Service, u: map<Public, WebSocket>, given: seq<Message>, y: Bytes)
    requires Attached(s, target, u, given) && Awaits(s, [], 0)
    ensures var t := Step(s, BackendReads(9, y)); Attached(t, target, u, given) && Awaits(t, [Response(1, y, 9, 0)], 1)
  {
    assert Step(s, BackendReads(9, y)) == OnBackendReads(s, 9, y);
  }

  lemma IsDelivered(s: State, target: Service, u: map<Public, WebSocket>, given: seq<Message>, r: Message)
    requires Attached(s, target, u, given) && Awaits(s, [r], 1) && r.id == 1
    ensures var t := Step(s, ResponseArrives(0)); Attached(t, target, u, given) && At(t.record.delivered, 0) == [r]
  {
    assert Step(s, ResponseArrives(0)) == OnResponseArrives(s, 0);
  }

  // ------------------------------------------------ the run

  lemma {:induction false} RunBegins(run: seq<Event>, name: string, target: Service)
    requires |run| >= 2 && run[0] == TunnelOpens(0, 0, map[name := target]) && run[1] == PublicOpens(0, RoutePort)
    ensures Begun(After(run[..2]), name, target)
  {
    assert run[..0] == [];
    ForwardingRaces.AfterNext(run, 0);
    ForwardingRaces.AfterNext(run, 1);
    Begins(name, target);
  }

  lemma {:induction false} RunAsks(run: seq<Event>, name: string, target: Service, x: Bytes, upgrade: bool)
    requires |run| >= 4 && Begun(After(run[..2]), name, target)
    requires run[2] == HttpRequest(0, 0, name, 1, x, upgrade) && run[3] == WriteCompletes(0, true)
    ensures Travels(After(run[..4]), name, target, Upgraded(upgrade), Request(1, x, Some(name), true, 0))
  {
    ForwardingRaces.AfterNext(run, 2);
    Asks(After(run[..2]), name, target, x, upgrade);
    ForwardingRaces.AfterNext(run, 3);
    IsWritten(After(run[..3]), name, target, Upgraded(upgrade), Request(1, x, Some(name), true, 0));
  }

  lemma {:induction false} RunReads(run: seq<Event>, name: string, target: Service, u: map<Public, WebSocket>, x: Bytes)
    requires |run| >= 5 && Travels(After(run[..4]), name, target, u, Request(1, x, Some(name), true, 0))
    requires run[4] == RequestArrives(0, true)
    ensures Pending(After(run[..5]), name, target, u, Request(1, x, Some(name), true, 0))
  {
    ForwardingRaces.AfterNext(run, 4);
    IsRead(After(run[..4]), name, target, u, x);
  }

  lemma {:induction false} RunConnects(run: seq<Event>, name: string, target: Service, u: map<Public, WebSocket>,
    m: Message)
    requires |run| >= 6 && Pending(After(run[..5]), name, target, u, m) && m.id == 1
    requires run[5] == ConnectCompletes(0, true, 9, true)
    ensures Attached(After(run[..6]), target, u, [m]) && Awaits(After(run[..6]), [], 0)
  {
    ForwardingRaces.AfterNext(run, 5);
    IsConnected(After(run[..5]), name, target, u, m);
  }

  lemma {:induction false} RunAnswers(run: seq<Event>, target: Service, u: map<Public, WebSocket>, given: seq<Message>,
    y: Bytes)
    requires |run| >= 7 && Attached(After(run[..6]), target, u, given) && Awaits(After(run[..6]), [], 0)
    requires run[6] == BackendReads(9, y)
    ensures Attached(After(run[..7]), target, u, given) && Awaits(After(run[..7]), [Response(1, y, 9, 0)], 1)
  {
    ForwardingRaces.AfterNext(run, 6);
    Answers(After(run[..6]), target, u, given, y);
  }

  lemma {:induction false} RunDelivers(run: seq<Event>, target: Service, u: map<Public, WebSocket>, given: seq<Message>,
    r: Message)
    requires |run| >= 8 && Attached(After(run[..7]), target, u, given) && Awaits(After(run[..7]), [r], 1) && r.id == 1
    requires run[7] == ResponseArrives(0)
    ensures Attached(After(run[..8]), target, u, given) && At(After(run[..8]).record.delivered, 0) == [r]
  {
    ForwardingRaces.AfterNext(run, 7);
    IsDelivered(After(run[..7]), target, u, given, r);
  }

  /** The run begins with these eight events. */
  ghost predicate AsksAndAnswers(run: seq<Event>, name: string, target: Service, x: Bytes, y: Bytes, upgrade: bool) {
    && |run| >= 8 && run[0] == TunnelOpens(0, 0, map[name := target]) && run[1] == PublicOpens(0, RoutePort)
    && run[2] == HttpRequest(0, 0, name, 1, x, upgrade) && run[3] == WriteCompletes(0, true)
    && run[4] == RequestArrives(0, true) && run[5] == ConnectCompletes(0, true, 9, true)
    && run[6] == BackendReads(9, y) && run[7] == ResponseArrives(0)
  }

  lemma {:induction false} RunToBackend(run: seq<Event>, name: string, target: Service, x: Bytes, y: Bytes,
    upgrade: bool)
    requires AsksAndAnswers(run, name, target, x, y, upgrade)
    ensures Attached(After(run[..6]), target, Upgraded(upgrade), [Request(1, x, Some(name), true, 0)])
    ensures Awaits(After(run[..6]), [], 0)
  {
    RunBegins(run, name, target);
    RunAsks(run, name, target, x, upgrade);
    RunReads(run, name, target, Upgraded(upgrade), x);
    RunConnects(run, name, target, Upgraded(upgrade), Request(1, x, Some(name), true, 0));
  }

  lemma {:induction false} RunToAnswer(run: seq<Event>, name: string, target: Service, x: Bytes, y: Bytes,
    upgrade: bool)
    requires AsksAndAnswers(run, name, target, x, y, upgrade)
    ensures Attached(After(run[..8]), target, Upgraded(upgrade), [Request(1, x, Some(name), true, 0)])
    ensures At(After(run[..8]).record.delivered, 0) == [Response(1, y, 9, 0)]
  {
    RunToBackend(run, name, target, x, y, upgrade);
    RunAnswers(run, target, Upgraded(upgrade), [Request(1, x, Some(name), true, 0)], y);
    RunDelivers(run, target, Upgraded(upgrade), [Request(1, x, Some(name), true, 0)], Response(1, y, 9, 0));
  }

  lemma {:induction false} EndsAnswered(run: seq<Event>, name: string, target: Service, x: Bytes, y: Bytes,
    upgrade: bool)
    requires AsksAndAnswers(run, name, target, x, y, upgrade) && |run| == 8
    ensures Attached(After(run), target, Upgraded(upgrade), [Request(1, x, Some(name), true, 0)])
    ensures At(After(run).record.delivered, 0) == [Response(1, y, 9, 0)]
  {
    RunToAnswer(run, name, target, x, y, upgrade);
    assert run[..8] == run;
  }

  /** Whatever the service, of either protocol, and whatever the bodies: the request is given
      to a backend at the service's address, the answer to the channel that asked, and
      nothing is lost. */
  lemma {:induction false} IsAnswered(name: string, target: Service, x: Bytes, y: Bytes, upgrade: bool)
    ensures var t := After(AskAndAnswer(name, target, x, y, upgrade));
      && 9 in t.client.links && t.client.links[9].target == target
      && At(t.record.inputs, 9) == [Request(1, x, Some(name), true, 0)]
      && At(t.record.delivered, 0) == [Response(1, y, 9, 0)] && t.record.lost == {}
  {
    EndsAnswered(AskAndAnswer(name, target, x, y, upgrade), name, target, x, y, upgrade);
  }

  // ------------------------------------------------ after the upgrade

  ghost predicate ChunkWaits(s: State, target: Service, given: seq<Message>, q: seq<Message>, r: seq<Message>) {
    && s.client.links == map[9 := Link(1, 0, target)] && s.client.clientMapping == map[(0, 1) := 9]
    && 9 in s.client.openBackends && At(s.record.inputs, 9) == given && s.record.lost == {}
    && s.net.openConns == {0} && s.net.clientOf == map[0 := 0] && At(s.net.outbound, 0) == q && At(s.net.down, 0) == r
    && |At(s.net.listeners, 0)| == |q| && forall k :: 0 <= k < |q| ==> At(s.net.listeners, 0)[k] == None
  }

  lemma ChunkIsSent(s: State, target: Service, given: seq<Message>, z: Bytes)
    requires Attached(s, target, Upgraded(true), given)
    ensures ChunkWaits(Step(s, WebSocketChunk(0, z)), target, given, [Request(1, z, None, false, 1)], [])
  {
    assert Step(s, WebSocketChunk(0, z)) == OnWebSocketChunk(s, WebSocket(1, 0), z);
  }

  lemma ChunkIsWritten(s: State, target: Service, given: seq<Message>, m: Message)
    requires ChunkWaits(s, target, given, [m], [])
    ensures ChunkWaits(Step(s, WriteCompletes(0, true)), target, given, [], [m])
  {
    assert Step(s, WriteCompletes(0, true)) == OnWriteSucceeds(s, 0);
  }

  lemma ChunkIsRead(s: State, target: Service, given: seq<Message>, m: Message)
    requires ChunkWaits(s, target, given, [], [m]) && m.id == 1
    ensures ChunkWaits(Step(s, RequestArrives(0, true)), target, given + [m], [], [])
  {
    assert Step(s, RequestArrives(0, true)) == OnRequestForBackend(s, 0, 9, true);
  }

  lemma {:induction false} ChunkTravels(run: seq<Event>, k: nat, target: Service, given: seq<Message>, z: Bytes)
    requires |run| >= k + 2 && Attached(After(run[..k]), target, Upgraded(true), given)
    requires run[k] == WebSocketChunk(0, z) && run[k + 1] == WriteCompletes(0, true)
    ensures ChunkWaits(After(run[..k + 2]), target, given, [], [Request(1, z, None, false, 1)])
  {
    ForwardingRaces.AfterNext(run, k);
    ChunkIsSent(After(run[..k]), target, given, z);
    ForwardingRaces.AfterNext(run, k + 1);
    ChunkIsWritten(After(run[..k + 1]), target, given, Request(1, z, None, false, 1));
  }

  lemma {:induction false} ChunkArrives(run: seq<Event>, k: nat, target: Service, given: seq<Message>, m: Message)
    requires |run| > k && ChunkWaits(After(run[..k]), target, given, [], [m]) && m.id == 1
    requires run[k] == RequestArrives(0, true)
    ensures ChunkWaits(After(run[..k + 1]), target, given + [m], [], [])
  {
    ForwardingRaces.AfterNext(run, k);
    ChunkIsRead(After(run[..k]), target, given, m);
  }

  /** A chunk that follows an answered request which asked for an upgrade. */
  function Follows(name: string, target: Service, x: Bytes, y: Bytes, z: Bytes): seq<Event> {
    AskAndAnswer(name, target, x, y, true) + [WebSocketChunk(0, z), WriteCompletes(0, true), RequestArrives(0, true)]
  }

  lemma {:induction false} RunToChunk(run: seq<Event>, name: string, target: Service, x: Bytes, y: Bytes, z: Bytes)
    requires AsksAndAnswers(run, name, target, x, y, true) && |run| >= 10
    requires run[8] == WebSocketChunk(0, z) && run[9] == WriteCompletes(0, true)
    ensures ChunkWaits(After(run[..10]), target, [Request(1, x, Some(name), true, 0)], [],
      [Request(1, z, None, false, 1)])
  {
    RunToAnswer(run, name, target, x, y, true);
    ChunkTravels(run, 8, target, [Request(1, x, Some(name), true, 0)], z);
  }

  lemma {:induction false} EndsFollowed(run: seq<Event>, target: Service, m: Message, n: Message)
    requires |run| == 11 && ChunkWaits(After(run[..10]), target, [m], [], [n]) && n.id == 1
    requires run[10] == RequestArrives(0, true)
    ensures ChunkWaits(After(run), target, [m, n], [], [])
  {
    ChunkArrives(run, 10, target, [m], n);
    assert run[..11] == run && [m] + [n] == [m, n];
  }

  /** It is given to the backend of the request, behind the request and without a service. */
  lemma {:induction false} ChunkFollows(name: string, target: Service, x: Bytes, y: Bytes, z: Bytes)
    ensures var t := After(Follows(name, target, x, y, z));
      && At(t.record.inputs, 9) == [Request(1, x, Some(name), true, 0), Request(1, z, None, false, 1)]
      && t.record.lost == {}
  {
    var run := Follows(name, target, x, y, z);
    RunToChunk(run, name, target, x, y, z);
    EndsFollowed(run, target, Request(1, x, Some(name), true, 0), Request(1, z, None, false, 1));
  }
}
