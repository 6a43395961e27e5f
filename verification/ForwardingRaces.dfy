/** A race does happen: a run in which two chunks of one TCP connection arrive before the
    first connect has completed. */
module ForwardingRaces {
  import opened Basics
  import opened Forwarding
  import opened ForwardingOrder
  import opened ForwardingTheorems

  /** Two chunks of channel 0 reach the client one right after the other. */
  function TwoChunks(name: string, target: Service, x: Bytes, y: Bytes): seq<Event> {
    [TunnelOpens(0, 0, map[name := target]), PublicOpens(0, TcpPort(0, name)),
     TcpChunk(0, 7, x), TcpChunk(0, 7, y), WriteCompletes(0, true), WriteCompletes(0, true),
     RequestArrives(0, true), RequestArrives(0, true)]
  }

  /** The states a run goes through. */
  ghost predicate Visits(states: seq<State>, run: seq<Event>) {
    && |states| == |run| + 1
    && forall k {:trigger Step(states[k], run[k])} :: 0 <= k < |run| ==> states[k + 1] == Step(states[k], run[k])
  }

  lemma {:induction false} AfterNext(run: seq<Event>, k: nat)
    requires k < |run|
    ensures After(run[..k + 1]) == Step(After(run[..k]), run[k])
  {
    assert run[..k + 1][..k] == run[..k];
  }

  lemma {:induction false} VisitedBy(run: seq<Event>) returns (states: seq<State>)
    ensures Visits(states, run) && forall k :: 0 <= k <= |run| ==> states[k] == After(run[..k])
  {
    states := seq(|run| + 1, k requires 0 <= k <= |run| => After(run[..k]));
    forall k | 0 <= k < |run| ensures states[k + 1] == Step(states[k], run[k]) {
      AfterNext(run, k);
    }
  }

  // ------------------------------------------------ the states of the run

  ghost predicate Connected(s: State, name: string, target: Service) {
    && s.net.openConns == {0} && s.net.clientOf == map[0 := 0]
    && s.client == Clients(map[0 := map[name := target]], map[], [], map[], {})
  }

  ghost predicate Opened(s: State, name: string, target: Service) {
    && Connected(s, name, target)
    && s.server == Server(map[0 := TcpPort(0, name)], {0}, map[], map[], map[])
    && s.net.outbound == map[] && s.net.listeners == map[] && s.net.down == map[]
    && s.record.owner == map[] && s.record.chunks == map[]
  }

  ghost predicate Written(s: State, name: string, target: Service, q: seq<Message>, x: Bytes) {
    && Connected(s, name, target)
    && s.server.kind == map[0 := TcpPort(0, name)] && s.server.openPublics == {0} && s.server.tcpFlag == map[0 := 7]
    && At(s.net.outbound, 0) == q && |At(s.net.listeners, 0)| == |q| && s.net.down == map[]
    && (forall k :: 0 <= k < |q| ==> At(s.net.listeners, 0)[k] == None)
    && At(s.record.chunks, 7) == [x]
  }

  ghost predicate Travels(s: State, name: string, target: Service, q: seq<Message>, r: seq<Message>) {
    && Connected(s, name, target) && At(s.net.outbound, 0) == q && At(s.net.down, 0) == r
    && |At(s.net.listeners, 0)| == |q| && (forall k :: 0 <= k < |q| ==> At(s.net.listeners, 0)[k] == None)
  }

  // ------------------------------------------------ its steps

  lemma Opens(name: string, target: Service)
    ensures Opened(Step(Step(INIT, TunnelOpens(0, 0, map[name := target])), PublicOpens(0, TcpPort(0, name))),
      name, target)
  {
  }

  lemma FirstChunk(s: State, name: string, target: Service, x: Bytes)
    requires Opened(s, name, target)
    ensures Written(Step(s, TcpChunk(0, 7, x)), name, target, [Request(7, x, Some(name), false, 0)], x)
  {
  }

  lemma SecondChunk(s: State, name: string, target: Service, x: Bytes, y: Bytes)
    requires Written(s, name, target, [Request(7, x, Some(name), false, 0)], x)
    ensures Travels(Step(s, TcpChunk(0, 7, y)), name, target,
      [Request(7, x, Some(name), false, 0), Request(7, y, Some(name), false, 1)], [])
  {
    var t := Step(s, TcpChunk(0, 7, y));
    assert t == OnTcpChunk(s, 0, 7, y);
  }

  lemma {:induction false} OneTravels(s: State, name: string, target: Service, q: seq<Message>, r: seq<Message>)
    requires Travels(s, name, target, q, r) && q != []
    ensures Travels(Step(s, WriteCompletes(0, true)), name, target, q[1..], r + [q[0]])
  {
    var t := Step(s, WriteCompletes(0, true));
    assert t == OnWriteSucceeds(s, 0);
    assert At(t.net.listeners, 0) == At(s.net.listeners, 0)[1..];
  }

  lemma OneConnects(s: State, name: string, target: Service, a: Message, b: Message)
    requires Travels(s, name, target, [], [a, b]) && target.tcp
    requires a.Request? && b.Request? && a.id == b.id && a.service == Some(name) && b.service == Some(name)
    ensures var t := Step(s, RequestArrives(0, true));
      && IsRace(t, RequestArrives(0, true), b.id)
      && t.client.links == map[]
  {
    var t := Step(s, RequestArrives(0, true));
    assert t == OnRequestForService(s, 0);
    assert t.client.connects == [Connect(a, 0, target)] && At(t.net.down, 0) == [b];
    assert t.client.connects[0].request.id == b.id;
  }

  lemma BothOpen(states: seq<State>, name: string, target: Service, x: Bytes, y: Bytes)
    requires Visits(states, TwoChunks(name, target, x, y)) && states[0] == INIT
    ensures Opened(states[2], name, target)
  {
    var run := TwoChunks(name, target, x, y);
    assert states[1] == Step(states[0], run[0]) && states[2] == Step(states[1], run[1]);
    Opens(name, target);
  }

  lemma BothWritten(states: seq<State>, name: string, target: Service, x: Bytes, y: Bytes)
    requires Visits(states, TwoChunks(name, target, x, y)) && states[0] == INIT
    ensures Travels(states[4], name, target,
      [Request(7, x, Some(name), false, 0), Request(7, y, Some(name), false, 1)], [])
  {
    var run := TwoChunks(name, target, x, y);
    BothOpen(states, name, target, x, y);
    assert states[3] == Step(states[2], run[2]);
    FirstChunk(states[2], name, target, x);
    assert states[4] == Step(states[3], run[3]);
    SecondChunk(states[3], name, target, x, y);
  }

  lemma {:induction false} NextTravels(states: seq<State>, run: seq<Event>, k: nat, name: string, target: Service,
    q: seq<Message>, r: seq<Message>)
    requires Visits(states, run) && k < |run| && run[k] == WriteCompletes(0, true) && q != []
    requires Travels(states[k], name, target, q, r)
    ensures Travels(states[k + 1], name, target, q[1..], r + [q[0]])
  {
    assert states[k + 1] == Step(states[k], run[k]);
    OneTravels(states[k], name, target, q, r);
  }

  lemma BothTravel(states: seq<State>, name: string, target: Service, x: Bytes, y: Bytes)
    requires Visits(states, TwoChunks(name, target, x, y)) && states[0] == INIT
    ensures Travels(states[6], name, target, [],
      [Request(7, x, Some(name), false, 0), Request(7, y, Some(name), false, 1)])
  {
    var run := TwoChunks(name, target, x, y);
    var a, b := Request(7, x, Some(name), false, 0), Request(7, y, Some(name), false, 1);
    BothWritten(states, name, target, x, y);
    NextTravels(states, run, 4, name, target, [a, b], []);
    NextTravels(states, run, 5, name, target, [b], [a]);
  }

  lemma LastRaces(states: seq<State>, name: string, target: Service, x: Bytes, y: Bytes)
    requires Visits(states, TwoChunks(name, target, x, y)) && states[0] == INIT && target.tcp
    ensures IsRace(states[7], RequestArrives(0, true), 7)
    ensures states[7].client.links == map[]
  {
    var run := TwoChunks(name, target, x, y);
    BothTravel(states, name, target, x, y);
    assert states[7] == Step(states[6], run[6]);
    OneConnects(states[6], name, target, Request(7, x, Some(name), false, 0), Request(7, y, Some(name), false, 1));
  }

  lemma LinksKept(s: State)
    requires s.client.links == map[]
    ensures Step(s, RequestArrives(0, true)).client.links == map[]
  {
  }

  /** Whatever the service, its address and the chunks are: the last event of this run
      starts a connect while another one of its id is pending. */
  lemma RaceHappens(name: string, target: Service, x: Bytes, y: Bytes)
    requires target.tcp
    ensures var run := TwoChunks(name, target, x, y);
      RaceAt(run, |run| - 1, 7) && After(run).client.links == map[]
  {
    var run := TwoChunks(name, target, x, y);
    var states := VisitedBy(run);
    assert states[0] == After(run[..0]) && run[..0] == [];
    LastRaces(states, name, target, x, y);
    assert states[7] == After(run[..7]);
    assert states[8] == Step(states[7], run[7]) && states[8] == After(run[..8]) && run[..8] == run;
    LinksKept(states[7]);
  }

  /** So whatever the service and the chunks are, some run gives them to backends in the
      wrong order. */
  lemma OrderBreaks(name: string, target: Service, x: Bytes, y: Bytes)
    requires target.tcp
    ensures exists k: nat, l: nat ::
      var t := After(TwoChunks(name, target, x, y) + [ConnectCompletes(l, true, 0, true),
        ConnectCompletes(k, true, 1, true)]);
      !Increasing(Given(At(t.record.openings, 7), t.record.inputs))
  {
    RaceHappens(name, target, x, y);
    RaceIsFatal(TwoChunks(name, target, x, y), 7, 0, 1);
  }
}
