/** The blocking wait of the client: callers that register or cancel a service and wait
    for the reply, and the event loop that completes them through `PROMISE_MAP`.  Callers
    run at the same time as the loop, so one step is one operation on shared state. */
module Waiting {
  import opened Basics

  type Id = nat

  datatype End = Completed | TimedOut | Interrupted

  /** How far a caller has come: its promise is put, its message is written and it waits,
      the wait is over, it has returned. */
  datatype Phase = Put | Waits | Over(end: End) | Returned(end: End)

  /** How far the loop has come with the message it reads. */
  datatype Loop = Idle | Applied(id: Id) | Removed(id: Id, found: bool)

  /** `promises` are the keys of `PROMISE_MAP`, `succeeded` the completed promises.
      `applied` records the messages whose effect on the client's tables has been
      applied; every id is generated once. */
  datatype State = State(
    phase: map<Id, Phase>,
    promises: set<Id>,
    succeeded: set<Id>,
    outbox: seq<Id>,
    inFlight: seq<Id>,
    loop: Loop,
    applied: set<Id>,
    generated: set<Id>)

  datatype Event =
    | CallerPuts(id: Id)
    | CallerWrites(id: Id, ok: bool)
    | ServerAnswers(replies: bool)
    | OtherArrives(id: Id)
    | LoopApplies
    | LoopRemoves
    | LoopCompletes
    | CallerWakes(id: Id)
    | CallerTimesOut(id: Id)
    | CallerIsInterrupted(id: Id)
    | CallerRemoves(id: Id)

  const INIT := State(map[], {}, {}, [], [], Idle, {}, {})

  predicate Enabled(s: State, e: Event) {
    match e
    case CallerPuts(id) => id !in s.generated
    case CallerWrites(id, _) => id in s.phase && s.phase[id] == Put
    case ServerAnswers(_) => s.outbox != []
    case OtherArrives(id) => id !in s.generated
    case LoopApplies => s.loop.Idle? && s.inFlight != []
    case LoopRemoves => s.loop.Applied?
    case LoopCompletes => s.loop.Removed?
    case CallerWakes(id) => id in s.phase && s.phase[id] == Waits && id in s.succeeded
    case CallerTimesOut(id) => id in s.phase && s.phase[id] == Waits
    case CallerIsInterrupted(id) => id in s.phase && s.phase[id] == Waits
    case CallerRemoves(id) => id in s.phase && s.phase[id].Over?
  }

  function Do(s: State, e: Event): State
    requires Enabled(s, e)
  {
    match e
    case CallerPuts(id) =>
      s.(phase := s.phase[id := Put], promises := s.promises + {id}, generated := s.generated + {id})
    case CallerWrites(id, ok) =>
      s.(phase := s.phase[id := Waits], outbox := if ok then s.outbox + [id] else s.outbox)
    case ServerAnswers(replies) =>
      s.(outbox := s.outbox[1..], inFlight := if replies then s.inFlight + [s.outbox[0]] else s.inFlight)
    case OtherArrives(id) => s.(inFlight := s.inFlight + [id], generated := s.generated + {id})
    case LoopApplies =>
      s.(loop := Applied(s.inFlight[0]), applied := s.applied + {s.inFlight[0]}, inFlight := s.inFlight[1..])
    case LoopRemoves => s.(loop := Removed(s.loop.id, s.loop.id in s.promises), promises := s.promises - {s.loop.id})
    case LoopCompletes =>
      s.(loop := Idle, succeeded := if s.loop.found then s.succeeded + {s.loop.id} else s.succeeded)
    case CallerWakes(id) => s.(phase := s.phase[id := Over(Completed)])
    case CallerTimesOut(id) => s.(phase := s.phase[id := Over(TimedOut)])
    case CallerIsInterrupted(id) => s.(phase := s.phase[id := Returned(Interrupted)])
    case CallerRemoves(id) => s.(phase := s.phase[id := Returned(s.phase[id].end)], promises := s.promises - {id})
  }

  function Step(s: State, e: Event): State {
    if Enabled(s, e) then Do(s, e) else s
  }

  function After(run: seq<Event>): State {
    if run == [] then INIT else Step(After(run[..|run| - 1]), run[|run| - 1])
  }

  /** The loop has dealt with a message altogether. */
  predicate Handled(s: State, id: Id) {
    id in s.applied && !(s.loop.Applied? && s.loop.id == id) && !(s.loop.Removed? && s.loop.id == id)
  }

  /** The messages on their way: replies first, then what the server has not read. */
  function Line(s: State): seq<Id> {
    s.inFlight + s.outbox
  }

  // ------------------------------------------------ the invariant, per id

  ghost predicate Consistent(s: State, id: Id) {
    && (id in s.phase || id in s.promises || id in s.applied || id in Line(s) ==> id in s.generated)
    && (id in Line(s) ==> id !in s.applied)
    && (id in s.promises || id in s.succeeded ==> id in s.phase)
    && (s.loop.Applied? && s.loop.id == id ==> id in s.applied && id !in s.succeeded)
    && (s.loop.Removed? && s.loop.id == id ==> id in s.applied && id !in s.promises && (s.loop.found ==> id in s.phase))
    && (id in s.succeeded ==> id in s.applied)
    && (id in s.phase && s.phase[id] == Put ==> id in s.promises && id !in s.applied && id !in Line(s))
    && (id in s.phase && (s.phase[id] == Waits || s.phase[id] == Returned(Interrupted) || s.phase[id].Over?) ==>
      Kept(s, id))
    && (id in s.phase && s.phase[id] == Returned(Completed) ==> id in s.succeeded)
    && (id in s.phase && s.phase[id] == Over(Completed) ==> id in s.succeeded)
    && (id in s.phase ==> s.phase[id] != Over(Interrupted))
    && (id in s.phase && s.phase[id].Returned? && s.phase[id].end != Interrupted ==> id !in s.promises)
  }

  /** The promise of a caller that has not removed it: in the map until the loop takes it
      out, found by the loop, and then completed. */
  ghost predicate Kept(s: State, id: Id) {
    && (id in s.promises <==> id !in s.applied || (s.loop.Applied? && s.loop.id == id))
    && (s.loop.Removed? && s.loop.id == id ==> s.loop.found)
    && (Handled(s, id) <==> id in s.succeeded)
  }

  lemma {:induction false} LineRemoves(a: seq<Id>, x: Id, b: seq<Id>)
    requires NoDuplicates(a + [x] + b)
    ensures NoDuplicates(a + b) && x !in a + b && forall id :: id in a + b ==> id in a + [x] + b
  {
    var q := a + [x] + b;
    forall i, j | 0 <= i < j < |a + b| ensures (a + b)[i] != (a + b)[j] {
      assert q[if i < |a| then i else i + 1] != q[if j < |a| then j else j + 1];
    }
    forall i | 0 <= i < |a + b| ensures (a + b)[i] != x && (a + b)[i] in q {
      assert q[if i < |a| then i else i + 1] == (a + b)[i] && q[|a|] == x;
    }
  }

  lemma {:induction false} LineInserts(a: seq<Id>, x: Id, b: seq<Id>)
    requires NoDuplicates(a + b) && x !in a + b
    ensures NoDuplicates(a + [x] + b) && forall id :: id in a + [x] + b <==> id == x || id in a + b
  {
    var q := a + [x] + b;
    forall i | 0 <= i < |q| && i != |a| ensures q[i] in a + b {
      assert q[i] == (a + b)[if i < |a| then i else i - 1];
    }
    forall i, j | 0 <= i < j < |q| ensures q[i] != q[j] {
      if i != |a| && j != |a| {
        assert (a + b)[if i < |a| then i else i - 1] != (a + b)[if j < |a| then j else j - 1];
      }
    }
    forall id | id in a + b ensures id in q {
      var k :| 0 <= k < |a + b| && (a + b)[k] == id;
      assert q[if k < |a| then k else k + 1] == id;
    }
    assert q[|a|] == x;
  }

  /** What a step does to the messages on their way. */
  lemma LineStep(s: State, e: Event)
    requires NoDuplicates(Line(s)) && Enabled(s, e)
    requires e.OtherArrives? || e.CallerWrites? ==> e.id !in Line(s)
    ensures NoDuplicates(Line(Do(s, e)))
    ensures forall id :: id in Line(Do(s, e)) ==>
      id in Line(s) || (e.OtherArrives? && id == e.id) || (e.CallerWrites? && id == e.id)
    ensures e.LoopApplies? ==> s.inFlight[0] in Line(s) && s.inFlight[0] !in Line(Do(s, e))
  {
    var t := Do(s, e);
    if e.CallerWrites? && e.ok {
      LineInserts(Line(s), e.id, []);
      assert Line(t) == Line(s) + [e.id] + [] && Line(s) + [] == Line(s);
    } else if e.OtherArrives? {
      LineInserts(s.inFlight, e.id, s.outbox);
      assert Line(t) == s.inFlight + [e.id] + s.outbox;
    } else if e.ServerAnswers? {
      assert Line(s) == s.inFlight + [s.outbox[0]] + s.outbox[1..];
      LineRemoves(s.inFlight, s.outbox[0], s.outbox[1..]);
    } else if e.LoopApplies? {
      assert Line(s) == [] + [s.inFlight[0]] + (s.inFlight[1..] + s.outbox);
      assert Line(s)[0] == s.inFlight[0];
      LineRemoves([], s.inFlight[0], s.inFlight[1..] + s.outbox);
      assert Line(t) == [] + (s.inFlight[1..] + s.outbox);
    }
  }

  ghost predicate Sound(s: State) {
    NoDuplicates(Line(s)) && forall id: nat {:trigger Consistent(s, id)} :: Consistent(s, id)
  }

  lemma {:induction false} ConsistentStep(s: State, e: Event, id: Id)
    requires Sound(s) && Enabled(s, e)
    requires forall i :: i in Line(Do(s, e)) ==>
      i in Line(s) || (e.OtherArrives? && i == e.id) || (e.CallerWrites? && i == e.id)
    requires e.LoopApplies? ==> s.inFlight[0] in Line(s) && s.inFlight[0] !in Line(Do(s, e))
    ensures Consistent(Do(s, e), id)
  {
    assert Consistent(s, id);
    if e.LoopApplies? {
      assert Consistent(s, s.inFlight[0]);
    }
  }

  /** In every run the invariant holds for every id. */
  lemma {:induction false} EveryRun(run: seq<Event>)
    ensures Sound(After(run))
  {
    if run == [] {
      forall id: nat ensures Consistent(INIT, id) {
      }
    } else {
      var s, e := After(run[..|run| - 1]), run[|run| - 1];
      EveryRun(run[..|run| - 1]);
      if Enabled(s, e) {
        if e.OtherArrives? || e.CallerWrites? {
          assert Consistent(s, e.id);
        }
        LineStep(s, e);
        forall id: nat ensures Consistent(Do(s, e), id) {
          ConsistentStep(s, e, id);
        }
      }
    }
  }

  // ------------------------------------------------ what a caller can rely on

  /** Event `j` applied the effect of the message with this id. */
  ghost predicate AppliesAt(run: seq<Event>, j: nat, id: Id) {
    j < |run| && Applies(After(run[..j]), run[j], id)
  }

  /** Event `j` completed the promise put under this id. */
  ghost predicate CompletesAt(run: seq<Event>, j: nat, id: Id) {
    j < |run| && run[j].LoopCompletes? && Enabled(After(run[..j]), run[j]) && After(run[..j]).loop == Removed(id, true)
  }

  /** The event applies the effect of the message with this id. */
  predicate Applies(s: State, e: Event, id: Id) {
    e.LoopApplies? && Enabled(s, e) && s.inFlight[0] == id
  }

  lemma AppliedStep(s: State, e: Event, id: Id)
    ensures id in Step(s, e).applied <==> id in s.applied || Applies(s, e, id)
  {
  }

  /** `applied` is what its name says. */
  lemma {:induction false} AppliedMeans(run: seq<Event>, id: Id)
    ensures id in After(run).applied <==> exists j: nat :: AppliesAt(run, j, id)
  {
    if run != [] {
      var before, last := run[..|run| - 1], run[|run| - 1];
      AppliedMeans(before, id);
      AppliedStep(After(before), last, id);
      forall j: nat | j < |before| ensures AppliesAt(run, j, id) <==> AppliesAt(before, j, id) {
        assert run[..j] == before[..j];
      }
      assert AppliesAt(run, |before|, id) <==> Applies(After(before), last, id);
    }
  }

  /** A promise is completed only by a message with its own id, and only after the effect
      of that message was applied. */
  lemma {:induction false} CompletedByOwnReply(run: seq<Event>, id: Id)
    requires id in After(run).succeeded
    ensures exists i: nat, j: nat :: i < j && AppliesAt(run, i, id) && CompletesAt(run, j, id)
  {
    var before, last := run[..|run| - 1], run[|run| - 1];
    var s := After(before);
    if id in s.succeeded {
      CompletedByOwnReply(before, id);
      var i: nat, j: nat :| i < j && AppliesAt(before, i, id) && CompletesAt(before, j, id);
      assert run[..i] == before[..i] && run[..j] == before[..j];
      assert AppliesAt(run, i, id) && CompletesAt(run, j, id);
    } else {
      EveryRun(before);
      assert Consistent(s, id);
      AppliedMeans(before, id);
      var i: nat :| AppliesAt(before, i, id);
      assert run[..i] == before[..i];
      assert AppliesAt(run, i, id) && CompletesAt(run, |before|, id);
    }
  }

  /** A caller that still waits misses no reply: once the loop is done with a message of
      its id it can wake, and until the loop takes the promise out it is there to find. */
  lemma {:induction false} NoLostWakeUp(run: seq<Event>, id: Id)
    requires id in After(run).phase && After(run).phase[id] == Waits
    ensures var s := After(run);
      && (Handled(s, id) <==> Enabled(s, CallerWakes(id)))
      && (id !in s.applied || s.loop == Applied(id) ==> id in s.promises)
      && (s.loop.Removed? && s.loop.id == id ==> s.loop.found)
  {
    EveryRun(run);
    assert Consistent(After(run), id);
  }

  /** Event `j` wrote the caller's message to the tunnel. */
  ghost predicate WritesAt(run: seq<Event>, j: nat, id: Id) {
    j < |run| && Writes(After(run[..j]), run[j], id)
  }

  predicate Writes(s: State, e: Event, id: Id) {
    Enabled(s, e) && e == CallerWrites(id, true)
  }

  /** Event `j` was the server's reading of it, which it answered or left unanswered. */
  ghost predicate ServesAt(run: seq<Event>, j: nat, id: Id, replies: bool) {
    j < |run| && Serves(After(run[..j]), run[j], id, replies)
  }

  predicate Serves(s: State, e: Event, id: Id, replies: bool) {
    s.outbox != [] && s.outbox[0] == id && e == ServerAnswers(replies)
  }

  lemma InFlightStep(s: State, e: Event, id: Id)
    requires NoDuplicates(Line(s))
    ensures Serves(s, e, id, true) ==> id in Step(s, e).inFlight
    ensures id in s.inFlight ==> id in Step(s, e).inFlight || Applies(s, e, id)
  {
    if Serves(s, e, id, true) {
      assert Step(s, e).inFlight == s.inFlight + [id];
      assert (s.inFlight + [id])[|s.inFlight|] == id;
    }
  }

  lemma OutboxStep(s: State, e: Event, id: Id)
    ensures Writes(s, e, id) ==> id in Step(s, e).outbox
    ensures id in s.outbox ==> id in Step(s, e).outbox || Serves(s, e, id, true) || Serves(s, e, id, false)
  {
    if Writes(s, e, id) {
      assert Step(s, e).outbox == s.outbox + [id];
      assert (s.outbox + [id])[|s.outbox|] == id;
    } else if id in s.outbox && e.ServerAnswers? {
      assert s.outbox == [s.outbox[0]] + s.outbox[1..];
    }
  }

  lemma {:induction false} ServedLater(run: seq<Event>, e: Event, j: nat, id: Id, replies: bool)
    ensures ServesAt(run + [e], j, id, replies) <==>
      if j == |run| then Serves(After(run), e, id, replies) else ServesAt(run, j, id, replies)
    ensures WritesAt(run + [e], j, id) <==> if j == |run| then Writes(After(run), e, id) else WritesAt(run, j, id)
  {
    if j < |run| {
      assert (run + [e])[..j] == run[..j];
    } else if j == |run| {
      assert (run + [e])[..j] == run;
    }
  }

  /** An answer is in flight until the loop has applied it. */
  lemma {:induction false} AnswerIsKept(run: seq<Event>, j: nat, id: Id)
    requires ServesAt(run, j, id, true)
    ensures id in After(run).inFlight || id in After(run).applied
    decreases |run|
  {
    var before, last := run[..|run| - 1], run[|run| - 1];
    assert run == before + [last];
    EveryRun(before);
    ServedLater(before, last, j, id, true);
    InFlightStep(After(before), last, id);
    AppliedStep(After(before), last, id);
    if j < |before| {
      AnswerIsKept(before, j, id);
    }
  }

  /** A written message waits for the server until the server reads it. */
  lemma {:induction false} MessageIsKept(run: seq<Event>, j: nat, id: Id)
    requires WritesAt(run, j, id)
    ensures id in After(run).outbox || exists k: nat, replies :: ServesAt(run, k, id, replies)
    decreases |run|
  {
    var before, last := run[..|run| - 1], run[|run| - 1];
    assert run == before + [last];
    ServedLater(before, last, j, id, true);
    OutboxStep(After(before), last, id);
    if j < |before| {
      MessageIsKept(before, j, id);
      if k: nat, replies :| ServesAt(before, k, id, replies) {
        ServedLater(before, last, k, id, replies);
        assert ServesAt(run, k, id, replies);
      } else {
        ServedLater(before, last, |before|, id, true);
        ServedLater(before, last, |before|, id, false);
        assert ServesAt(run, |before|, id, true) || ServesAt(run, |before|, id, false) || id in After(run).outbox;
      }
    }
  }

  /** Nothing disappears while a caller waits whose message was written: the message waits
      for the server, or the server left it unanswered, or its answer is in flight, or the
      loop holds it, or the caller can wake. */
  lemma {:induction false} NothingIsLost(run: seq<Event>, j: nat, id: Id)
    requires WritesAt(run, j, id) && id in After(run).phase && After(run).phase[id] == Waits
    ensures var s := After(run);
      || id in s.outbox || (exists k: nat :: ServesAt(run, k, id, false)) || id in s.inFlight
      || s.loop == Applied(id) || s.loop == Removed(id, true) || Enabled(s, CallerWakes(id))
  {
    MessageIsKept(run, j, id);
    if k: nat :| ServesAt(run, k, id, true) {
      AnswerIsHeard(run, k, id);
    }
  }

  /** If the server answered the message of a caller that still waits, the answer is in
      flight, or the loop holds it, or the caller can wake. */
  lemma {:induction false} AnswerIsHeard(run: seq<Event>, j: nat, id: Id)
    requires ServesAt(run, j, id, true) && id in After(run).phase && After(run).phase[id] == Waits
    ensures var s := After(run);
      id in s.inFlight || s.loop == Applied(id) || s.loop == Removed(id, true) || Enabled(s, CallerWakes(id))
  {
    AnswerIsKept(run, j, id);
    EveryRun(run);
    assert Consistent(After(run), id);
  }

  // ------------------------------------------------ the loop wakes who waits

  /** What the loop does with one message. */
  const READ_ONE := [LoopApplies, LoopRemoves, LoopCompletes]

  lemma {:induction false} AfterOne(run: seq<Event>, e: Event)
    ensures After(run + [e]) == Step(After(run), e)
  {
    assert (run + [e])[..|run|] == run;
  }

  lemma {:induction false} ReadsOne(run: seq<Event>)
    requires After(run).loop.Idle? && After(run).inFlight != []
    ensures var s, t := After(run), After(run + READ_ONE);
      && t.loop.Idle? && t.inFlight == s.inFlight[1..] && t.phase == s.phase
      && t.applied == s.applied + {s.inFlight[0]}
  {
    AfterOne(run, LoopApplies);
    AfterOne(run + [LoopApplies], LoopRemoves);
    AfterOne(run + [LoopApplies] + [LoopRemoves], LoopCompletes);
    assert run + [LoopApplies] + [LoopRemoves] + [LoopCompletes] == run + READ_ONE;
  }

  /** The rest of what the loop does with the message it holds. */
  function Rest(l: Loop): seq<Event> {
    match l
    case Idle => []
    case Applied(_) => [LoopRemoves, LoopCompletes]
    case Removed(_, _) => [LoopCompletes]
  }

  lemma {:induction false} FinishesOne(run: seq<Event>)
    ensures var s, t := After(run), After(run + Rest(After(run).loop));
      t.loop.Idle? && t.inFlight == s.inFlight && t.phase == s.phase && t.applied == s.applied
  {
    var s := After(run);
    match s.loop
    case Idle => assert run + [] == run;
    case Applied(_) =>
      AfterOne(run, LoopRemoves);
      AfterOne(run + [LoopRemoves], LoopCompletes);
      assert run + [LoopRemoves] + [LoopCompletes] == run + [LoopRemoves, LoopCompletes];
    case Removed(_, _) => AfterOne(run, LoopCompletes);
  }

  predicate OnlyLoop(q: seq<Event>) {
    forall k :: 0 <= k < |q| ==> q[k].LoopApplies? || q[k].LoopRemoves? || q[k].LoopCompletes?
  }

  /** The loop alone, as long as it takes, brings the caller to where it can wake. */
  lemma {:induction false} ReadsUpTo(run: seq<Event>, id: Id) returns (more: seq<Event>)
    requires id in After(run).phase && After(run).phase[id] == Waits && After(run).loop.Idle?
    requires id in After(run).inFlight || id in After(run).applied
    ensures OnlyLoop(more) && Enabled(After(run + more), CallerWakes(id))
    decreases |After(run).inFlight|
  {
    EveryRun(run);
    assert Consistent(After(run), id);
    if id in After(run).applied {
      more := [];
      assert run + more == run;
    } else {
      ReadsOne(run);
      var rest := ReadsUpTo(run + READ_ONE, id);
      more := READ_ONE + rest;
      assert run + more == run + READ_ONE + rest;
    }
  }

  /** Every caller whose message was answered can be woken: from any state of any run the
      event loop alone gets there. */
  lemma {:induction false} AnswerWakes(run: seq<Event>, j: nat, id: Id) returns (more: seq<Event>)
    requires ServesAt(run, j, id, true) && id in After(run).phase && After(run).phase[id] == Waits
    ensures OnlyLoop(more) && Enabled(After(run + more), CallerWakes(id))
  {
    AnswerIsKept(run, j, id);
    FinishesOne(run);
    var rest := ReadsUpTo(run + Rest(After(run).loop), id);
    more := Rest(After(run).loop) + rest;
    assert run + more == run + Rest(After(run).loop) + rest;
  }

  /** While the message of a waiting caller, or its reply, is on its way, the promise is
      there: it was put before the message was written. */
  lemma {:induction false} PutBeforeWritten(run: seq<Event>, id: Id)
    requires id in After(run).phase && After(run).phase[id] == Waits && id in Line(After(run))
    ensures id in After(run).promises
  {
    EveryRun(run);
    assert Consistent(After(run), id);
  }

  /** A caller that returned as completed was completed. */
  lemma {:induction false} CompletedMeans(run: seq<Event>, id: Id)
    requires id in After(run).phase && After(run).phase[id] == Returned(Completed)
    ensures id in After(run).succeeded
  {
    EveryRun(run);
    assert Consistent(After(run), id);
  }

  lemma {:induction false} ReturnedForGood(run: seq<Event>, more: seq<Event>, id: Id)
    requires id in After(run).phase && After(run).phase[id].Returned?
    ensures id in After(run + more).phase && After(run + more).phase[id] == After(run).phase[id]
  {
    if more == [] {
      assert run + more == run;
    } else {
      var front := more[..|more| - 1];
      ReturnedForGood(run, front, id);
      assert (run + more)[..|run + more| - 1] == run + front;
      EveryRun(run + front);
      assert Consistent(After(run + front), id);
    }
  }

  /** After a return, at any later time: nothing remains of a wait that was not
      interrupted, and of one that was, the promise remains until a reply takes it out. */
  lemma {:induction false} WhatRemains(run: seq<Event>, more: seq<Event>, id: Id)
    requires id in After(run).phase && After(run).phase[id].Returned?
    ensures var s := After(run + more);
      if After(run).phase[id].end.Interrupted? then id in s.promises <==> id !in s.applied || s.loop == Applied(id)
      else id !in s.promises
  {
    ReturnedForGood(run, more, id);
    EveryRun(run + more);
    assert Consistent(After(run + more), id);
  }

  /** A caller that is interrupted while it waits. */
  function InterruptedWait(id: Id, ok: bool): seq<Event> {
    [CallerPuts(id), CallerWrites(id, ok), CallerIsInterrupted(id)]
  }

  lemma {:induction false} AfterNext(run: seq<Event>, k: nat)
    requires k < |run|
    ensures After(run[..k + 1]) == Step(After(run[..k]), run[k])
  {
    assert run[..k + 1][..k] == run[..k];
  }

  /** It happens: the wait returns and its promise is left. */
  lemma {:induction false} InterruptedRemains(id: Id, ok: bool)
    ensures var s := After(InterruptedWait(id, ok));
      && id in s.phase && s.phase[id] == Returned(Interrupted) && id in s.promises
      && s.outbox == (if ok then [id] else []) && s.inFlight == [] && s.applied == {}
  {
    var run := InterruptedWait(id, ok);
    assert run[..0] == [] && run[..3] == run;
    AfterNext(run, 0);
    AfterNext(run, 1);
    AfterNext(run, 2);
  }

  /** The promise of a caller that has returned, for which no message is on its way. */
  ghost predicate Abandoned(s: State, id: Id) {
    && id in s.promises && id in s.phase && s.phase[id].Returned? && id in s.generated
    && id !in s.inFlight && id !in s.outbox && id !in s.applied
  }

  lemma AbandonedStep(s: State, e: Event, id: Id)
    requires Sound(s) && Abandoned(s, id)
    ensures Abandoned(Step(s, e), id)
  {
    assert Consistent(s, id);
  }

  lemma {:induction false} AbandonedForGood(run: seq<Event>, more: seq<Event>, id: Id)
    requires Abandoned(After(run), id)
    ensures Abandoned(After(run + more), id)
  {
    if more == [] {
      assert run + more == run;
    } else {
      var front := more[..|more| - 1];
      AbandonedForGood(run, front, id);
      assert (run + more)[..|run + more| - 1] == run + front;
      EveryRun(run + front);
      AbandonedStep(After(run + front), more[|more| - 1], id);
    }
  }

  /** If moreover the write had failed, nothing ever takes the promise out. */
  lemma {:induction false} InterruptedForGood(id: Id, more: seq<Event>)
    ensures id in After(InterruptedWait(id, false) + more).promises
  {
    InterruptedRemains(id, false);
    EveryRun(InterruptedWait(id, false));
    assert Consistent(After(InterruptedWait(id, false)), id);
    AbandonedForGood(InterruptedWait(id, false), more, id);
  }
}
