/** What stays behind in the server's `REQUEST_MAPPING` when a public channel has closed. */
module ForwardingLeftovers {
  import opened Basics
  import opened Forwarding
  import opened ForwardingSafety
  import opened ForwardingConservation
  import opened ForwardingTheorems
  import ForwardingRaces

  /** Event `j` inserted the mapping of `i`: a TCP chunk before its write, or the listener
      of an HTTP request's write. */
  predicate Inserts(s: State, e: Event, i: Id)
  {
    && Enabled(s, e)
    && ((e.TcpChunk? && TcpId(s, e.p, e.newId) == i)
        || (e.WriteCompletes? && e.ok && At(s.net.listeners, e.c)[0].Some?
          && At(s.net.listeners, e.c)[0].value.id == i))
  }

  /** It did so when the channel of `i` was no longer open. */
  ghost predicate InsertsLate(s: State, e: Event, i: Id) {
    Inserts(s, e, i) && i in s.record.owner && s.record.owner[i].pub !in s.server.openPublics
  }

  ghost predicate LateAt(run: seq<Event>, j: nat, i: Id) {
    j < |run| && InsertsLate(After(run[..j]), run[j], i)
  }

  ghost predicate Late(run: seq<Event>, i: Id) {
    exists j: nat :: LateAt(run, j, i)
  }

  /** While a channel is open, its ids that were inserted are mapped; when it has closed,
      the one it closed with is left only if it was inserted late, and the others stay. */
  ghost predicate Left(s: State, i: Id, late: bool)
    requires i in s.record.owner
  {
    var p := s.record.owner[i].pub;
    && (late ==> p !in s.server.openPublics)
    && (i in s.server.requestMapping <==>
          i in s.record.inserted && (p in s.server.openPublics || ClosingId(s.server, p) != Some(i) || late))
  }

  /** The events that look at, or change, the server's tables. */
  predicate AtServer(e: Event) {
    e.PublicOpens? || e.PublicCloses? || e.HttpRequest? || e.TcpChunk? || e.WriteCompletes?
  }

  lemma ServerStays(s: State, e: Event)
    requires !AtServer(e)
    ensures Step(s, e).server == s.server && Step(s, e).record.inserted == s.record.inserted
  {
    if e.ConnectCompletes? {
      ConnectStays(s, e.k, e.ok, e.b, e.written);
    } else if e.RequestArrives? {
      RequestStays(s, e.c, e.ok);
    }
  }

  lemma ConnectStays(s: State, k: nat, ok: bool, b: Backend, written: bool)
    ensures var t := Step(s, ConnectCompletes(k, ok, b, written));
      t.server == s.server && t.record.inserted == s.record.inserted
  {
    if Enabled(s, ConnectCompletes(k, ok, b, written)) {
      if ok {
        assert Step(s, ConnectCompletes(k, ok, b, written)) == OnConnectSucceeds(s, k, b, written);
      } else {
        assert Step(s, ConnectCompletes(k, ok, b, written)) == OnConnectFails(s, k);
      }
    }
  }

  lemma RequestStays(s: State, c: Conn, ok: bool)
    ensures var t := Step(s, RequestArrives(c, ok));
      t.server == s.server && t.record.inserted == s.record.inserted
  {
    if Enabled(s, RequestArrives(c, ok)) {
      assert Step(s, RequestArrives(c, ok)) == OnRequestArrives(s, c, ok);
      InsertsNothing(s, c, ok);
    }
  }

  lemma InsertsNothing(s: State, c: Conn, ok: bool)
    requires c in s.net.clientOf && At(s.net.down, c) != []
    ensures OnRequestArrives(s, c, ok).record.inserted == s.record.inserted
  {
    var key := (s.net.clientOf[c], At(s.net.down, c)[0].id);
    if key in s.client.clientMapping {
      assert OnRequestArrives(s, c, ok) == OnRequestForBackend(s, c, s.client.clientMapping[key], ok);
    } else if Opens(s, c, At(s.net.down, c)[0]) {
      assert OnRequestArrives(s, c, ok) == OnRequestForService(s, c);
    } else {
      assert OnRequestArrives(s, c, ok) == OnRequestDropped(s, c);
    }
  }

  /** A write that completes touches two of the tables. */
  lemma WriteStep(s: State, c: Conn, ok: bool)
    ensures var e, t := WriteCompletes(c, ok), Step(s, WriteCompletes(c, ok));
      && t.server == s.server.(requestMapping := t.server.requestMapping)
      && (forall i: Id :: i in t.record.inserted <==> i in s.record.inserted || Inserts(s, e, i))
      && (forall i: Id :: i in t.server.requestMapping <==> i in s.server.requestMapping || Inserts(s, e, i))
  {
    if Enabled(s, WriteCompletes(c, ok)) {
      if ok {
        assert Step(s, WriteCompletes(c, ok)) == OnWriteSucceeds(s, c);
      } else {
        assert Step(s, WriteCompletes(c, ok)) == OnWriteFails(s, c);
      }
    }
  }

  lemma InsertedStep(s: State, e: Event, i: Id)
    ensures i in Step(s, e).record.inserted <==> i in s.record.inserted || Inserts(s, e, i)
  {
    if !AtServer(e) {
      ServerStays(s, e);
    } else if e.WriteCompletes? {
      WriteStep(s, e.c, e.ok);
    }
  }

  lemma MappedStep(s: State, e: Event, i: Id)
    ensures i in Step(s, e).server.requestMapping <==>
      || Inserts(s, e, i)
      || (i in s.server.requestMapping && !(Enabled(s, e) && e.PublicCloses? && ClosingId(s.server, e.p) == Some(i)))
  {
    if !AtServer(e) {
      ServerStays(s, e);
    } else if e.WriteCompletes? {
      WriteStep(s, e.c, e.ok);
    }
  }

  /** An open channel closes only by its own event, and a closed one never opens again. */
  lemma ChannelStep(s: State, e: Event, p: Public)
    requires p in s.server.kind
    ensures p in Step(s, e).server.openPublics
      <==> p in s.server.openPublics && !(Enabled(s, e) && e == PublicCloses(p))
  {
    if !AtServer(e) {
      ServerStays(s, e);
    } else if e.WriteCompletes? {
      WriteStep(s, e.c, e.ok);
    }
  }

  /** The id a channel closes with is settled when it closes. */
  lemma ClosingStep(s: State, e: Event, p: Public)
    requires p !in s.server.openPublics || e.PublicCloses?
    ensures ClosingId(Step(s, e).server, p) == ClosingId(s.server, p)
  {
    if !AtServer(e) {
      ServerStays(s, e);
    } else if e.WriteCompletes? {
      WriteStep(s, e.c, e.ok);
    }
  }

  lemma {:induction false} LateStep(run: seq<Event>, e: Event, i: Id)
    ensures Late(run + [e], i) <==> Late(run, i) || InsertsLate(After(run), e, i)
  {
    var longer := run + [e];
    forall j: nat | j < |run| ensures LateAt(longer, j, i) <==> LateAt(run, j, i) {
      assert longer[..j] == run[..j];
    }
    assert longer[..|run|] == run;
    assert LateAt(longer, |run|, i) <==> InsertsLate(After(run), e, i);
  }

  lemma {:induction false} LateOwned(run: seq<Event>, i: Id)
    requires Late(run, i)
    ensures i in After(run).record.owner
  {
    var j: nat :| LateAt(run, j, i);
    assert run == run[..j] + run[j..];
    OwnerForGood(run[..j], run[j..], i);
  }

  /** Only the channel of an id closes with it. */
  lemma ClosesOwn(s: State, p: Public, i: Id)
    requires Safe(s) && ClosingId(s.server, p) == Some(i)
    ensures i in s.record.owner && s.record.owner[i].pub == p
  {
  }

  lemma LeftStep(s: State, e: Event, i: Id, late: bool)
    requires Safe(s) && i in s.record.owner && Left(s, i, late)
    ensures i in Step(s, e).record.owner && Left(Step(s, e), i, late || InsertsLate(s, e, i))
  {
    OwnerStays(s, e, i);
    InsertedStep(s, e, i);
    MappedStep(s, e, i);
    ChannelStep(s, e, s.record.owner[i].pub);
    if s.record.owner[i].pub !in s.server.openPublics || e.PublicCloses? {
      ClosingStep(s, e, s.record.owner[i].pub);
    }
    if Enabled(s, e) && e.PublicCloses? && ClosingId(s.server, e.p) == Some(i) {
      ClosesOwn(s, e.p, i);
    }
  }

  lemma LeftNew(s: State, e: Event, i: Id)
    requires Safe(s) && Present(s) && i !in s.record.owner && i in Step(s, e).record.owner
    ensures Left(Step(s, e), i, false)
  {
    OwnerIsNew(s, e, i);
    InsertedStep(s, e, i);
    MappedStep(s, e, i);
  }

  lemma {:induction false} LateForNew(run: seq<Event>, e: Event, i: Id)
    requires i !in After(run).record.owner
    ensures !Late(run + [e], i)
  {
    LateStep(run, e, i);
    if Late(run, i) {
      LateOwned(run, i);
    }
  }

  lemma LeftNext(s: State, e: Event, i: Id, late: bool)
    requires Invariant(s) && i in Step(s, e).record.owner
    requires if i in s.record.owner then Left(s, i, late) else !late
    ensures Left(Step(s, e), i, late || InsertsLate(s, e, i))
  {
    if i in s.record.owner {
      LeftStep(s, e, i, late);
    } else {
      LeftNew(s, e, i);
    }
  }

  /** What is left of a public channel, exactly: in every run, an id whose channel has
      closed is still mapped if and only if its mapping was inserted, and it is not the id
      the channel closed with or was inserted when the channel was no longer open. */
  lemma {:induction false} Leftovers(run: seq<Event>, s: State, i: Id)
    requires s == After(run) && i in s.record.owner
    ensures Left(s, i, Late(run, i))
  {
    var before, last := run[..|run| - 1], run[|run| - 1];
    var r := After(before);
    assert run == before + [last];
    EveryRun(before);
    LateStep(before, last, i);
    if i in r.record.owner {
      Leftovers(before, r, i);
    } else {
      LateForNew(before, last, i);
    }
    LeftNext(r, last, i, Late(before, i));
  }

  // ------------------------------------------------ what was inserted

  ghost predicate InsertsAt(run: seq<Event>, j: nat, i: Id) {
    j < |run| && Inserts(After(run[..j]), run[j], i)
  }

  /** `inserted` is what its name says. */
  lemma {:induction false} InsertedMeans(run: seq<Event>, i: Id)
    ensures i in After(run).record.inserted <==> exists j: nat :: InsertsAt(run, j, i)
  {
    if run != [] {
      var before, last := run[..|run| - 1], run[|run| - 1];
      assert run == before + [last];
      InsertedMeans(before, i);
      InsertedStep(After(before), last, i);
      forall j: nat | j < |before| ensures InsertsAt(run, j, i) <==> InsertsAt(before, j, i) {
        assert run[..j] == before[..j];
      }
      assert InsertsAt(run, |before|, i) <==> Inserts(After(before), last, i);
    }
  }

  // ------------------------------------------------ both kinds of leftovers happen

  /** A channel closes while the write of its only request is under way. */
  function ClosesEarly(name: string, x: Bytes): seq<Event> {
    [TunnelOpens(0, 0, map[]), PublicOpens(0, RoutePort), HttpRequest(0, 0, name, 1, x, false),
     PublicCloses(0), WriteCompletes(0, true)]
  }

  /** A channel sends two requests and closes when both are written. */
  function SendsTwo(name: string, x: Bytes, y: Bytes): seq<Event> {
    [TunnelOpens(0, 0, map[]), PublicOpens(0, RoutePort), HttpRequest(0, 0, name, 1, x, false),
     WriteCompletes(0, true), HttpRequest(0, 0, name, 2, y, false), WriteCompletes(0, true), PublicCloses(0)]
  }

  /** The ids that are mapped lead to the one channel; a listener waits for the write of
      each request that the tunnel has taken. */
  ghost predicate Serves(s: State, name: string, open: set<Public>, mapped: set<Id>, sent: set<Id>, q: seq<Id>) {
    && s.net.openConns == {0} && s.net.clientOf == map[0 := 0]
    && s.server.kind == map[0 := RoutePort] && s.server.openPublics == open && s.server.upgraded == map[]
    && s.server.requestMapping == (map i: Id | i in mapped :: 0)
    && s.record.owner == (map i: Id | i in sent :: Owner(0, 0, name))
    && |At(s.net.outbound, 0)| == |At(s.net.listeners, 0)| == |q|
    && forall k :: 0 <= k < |q| ==> At(s.net.listeners, 0)[k] == Some(Listener(q[k], 0))
  }

  lemma ServesFirst(name: string)
    ensures Serves(Step(Step(INIT, TunnelOpens(0, 0, map[])), PublicOpens(0, RoutePort)), name, {0}, {}, {}, [])
  {
  }

  lemma ServesRequest(s: State, name: string, mapped: set<Id>, sent: set<Id>, id: Id, x: Bytes)
    requires Serves(s, name, {0}, mapped, sent, []) && id !in sent
    ensures var t := Step(s, HttpRequest(0, 0, name, id, x, false));
      Serves(t, name, {0}, mapped, sent + {id}, [id]) && ClosingId(t.server, 0) == Some(id)
  {
    assert Step(s, HttpRequest(0, 0, name, id, x, false)) == OnHttpRequest(s, 0, 0, name, id, x, false);
  }

  lemma ServesWrite(s: State, name: string, open: set<Public>, mapped: set<Id>, sent: set<Id>, id: Id)
    requires Serves(s, name, open, mapped, sent, [id]) && id in sent
    ensures Inserts(s, WriteCompletes(0, true), id)
    ensures var t := Step(s, WriteCompletes(0, true));
      && Serves(t, name, open, mapped + {id}, sent, []) && t.server.tcpFlag == s.server.tcpFlag
  {
    assert At(s.net.listeners, 0)[0] == Some(Listener(id, 0));
    assert Step(s, WriteCompletes(0, true)) == OnWriteSucceeds(s, 0);
  }

  lemma ServesClose(s: State, name: string, mapped: set<Id>, sent: set<Id>, q: seq<Id>, id: Id)
    requires Serves(s, name, {0}, mapped, sent, q) && ClosingId(s.server, 0) == Some(id)
    ensures Serves(Step(s, PublicCloses(0)), name, {}, mapped - {id}, sent, q)
  {
    assert Step(s, PublicCloses(0)) == OnPublicCloses(s, 0);
  }

  lemma {:induction false} Begins(run: seq<Event>, name: string, x: Bytes)
    requires |run| >= 3 && run[0] == TunnelOpens(0, 0, map[]) && run[1] == PublicOpens(0, RoutePort)
    requires run[2] == HttpRequest(0, 0, name, 1, x, false)
    ensures Serves(After(run[..3]), name, {0}, {}, {1}, [1]) && ClosingId(After(run[..3]).server, 0) == Some(1)
  {
    assert run[..0] == [];
    ForwardingRaces.AfterNext(run, 0);
    ForwardingRaces.AfterNext(run, 1);
    ForwardingRaces.AfterNext(run, 2);
    ServesFirst(name);
    ServesRequest(After(run[..2]), name, {}, {}, 1, x);
  }

  lemma {:induction false} NextWrite(run: seq<Event>, k: nat, name: string, open: set<Public>, mapped: set<Id>,
    sent: set<Id>, id: Id)
    requires k < |run| && run[k] == WriteCompletes(0, true)
    requires Serves(After(run[..k]), name, open, mapped, sent, [id]) && id in sent
    ensures InsertsAt(run, k, id) && Serves(After(run[..k + 1]), name, open, mapped + {id}, sent, [])
    ensures After(run[..k + 1]).server.tcpFlag == After(run[..k]).server.tcpFlag
  {
    ForwardingRaces.AfterNext(run, k);
    ServesWrite(After(run[..k]), name, open, mapped, sent, id);
  }

  lemma {:induction false} NextRequest(run: seq<Event>, k: nat, name: string, mapped: set<Id>, sent: set<Id>, id: Id,
    x: Bytes)
    requires k < |run| && run[k] == HttpRequest(0, 0, name, id, x, false)
    requires Serves(After(run[..k]), name, {0}, mapped, sent, []) && id !in sent
    ensures Serves(After(run[..k + 1]), name, {0}, mapped, sent + {id}, [id])
    ensures ClosingId(After(run[..k + 1]).server, 0) == Some(id)
  {
    ForwardingRaces.AfterNext(run, k);
    ServesRequest(After(run[..k]), name, mapped, sent, id, x);
  }

  lemma {:induction false} NextClose(run: seq<Event>, k: nat, name: string, mapped: set<Id>, sent: set<Id>,
    q: seq<Id>, id: Id)
    requires k < |run| && run[k] == PublicCloses(0)
    requires Serves(After(run[..k]), name, {0}, mapped, sent, q) && ClosingId(After(run[..k]).server, 0) == Some(id)
    ensures Serves(After(run[..k + 1]), name, {}, mapped - {id}, sent, q)
  {
    ForwardingRaces.AfterNext(run, k);
    ServesClose(After(run[..k]), name, mapped, sent, q, id);
  }

  /** The listener inserts the mapping after its channel has closed, and nothing is left
      to remove it. */
  lemma {:induction false} LateStays(name: string, x: Bytes)
    ensures var run, s := ClosesEarly(name, x), After(ClosesEarly(name, x)).server;
      s.openPublics == {} && s.requestMapping == map[1 := 0] && LateAt(run, 4, 1)
  {
    var run := ClosesEarly(name, x);
    Begins(run, name, x);
    NextClose(run, 3, name, {}, {1}, [1], 1);
    NextWrite(run, 4, name, {}, {}, {1}, 1);
    assert run[..5] == run && {} + {1} == {1};
  }

  lemma {:induction false} FirstWritten(run: seq<Event>, name: string, x: Bytes)
    requires |run| >= 4 && run[0] == TunnelOpens(0, 0, map[]) && run[1] == PublicOpens(0, RoutePort)
    requires run[2] == HttpRequest(0, 0, name, 1, x, false) && run[3] == WriteCompletes(0, true)
    ensures InsertsAt(run, 3, 1) && 0 in After(run[..3]).server.openPublics
    ensures Serves(After(run[..4]), name, {0}, {1}, {1}, [])
  {
    Begins(run, name, x);
    NextWrite(run, 3, name, {0}, {}, {1}, 1);
    assert {} + {1} == {1};
  }

  lemma {:induction false} SecondWritten(run: seq<Event>, name: string, y: Bytes)
    requires |run| >= 6 && Serves(After(run[..4]), name, {0}, {1}, {1}, [])
    requires run[4] == HttpRequest(0, 0, name, 2, y, false) && run[5] == WriteCompletes(0, true)
    ensures Serves(After(run[..6]), name, {0}, {1, 2}, {1, 2}, []) && ClosingId(After(run[..6]).server, 0) == Some(2)
  {
    NextRequest(run, 4, name, {1}, {1}, 2, y);
    assert {1} + {2} == {1, 2};
    NextWrite(run, 5, name, {0}, {1}, {1, 2}, 2);
  }

  lemma {:induction false} BothClosed(run: seq<Event>, name: string)
    requires |run| == 7 && Serves(After(run[..6]), name, {0}, {1, 2}, {1, 2}, []) && run[6] == PublicCloses(0)
    requires ClosingId(After(run[..6]).server, 0) == Some(2)
    ensures After(run).server.openPublics == {} && After(run).server.requestMapping == map[1 := 0]
  {
    NextClose(run, 6, name, {1, 2}, {1, 2}, [], 2);
    assert run[..7] == run && {1, 2} - {2} == {1};
  }

  /** The first request was mapped while its channel was open; when the channel closes with
      the second one, the mapping of the first stays. */
  lemma {:induction false} EarlierStays(name: string, x: Bytes, y: Bytes)
    ensures var run, s := SendsTwo(name, x, y), After(SendsTwo(name, x, y)).server;
      && s.openPublics == {} && s.requestMapping == map[1 := 0]
      && InsertsAt(run, 3, 1) && 0 in After(run[..3]).server.openPublics
  {
    var run := SendsTwo(name, x, y);
    FirstWritten(run, name, x);
    SecondWritten(run, name, y);
    BothClosed(run, name);
  }
}
