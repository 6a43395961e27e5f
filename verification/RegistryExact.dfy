/** When a channel's list is exactly the inverse of the route table, and what goes wrong
    when it is not, in runs of whole handlers. */
module RegistryExact {
  import opened Basics
  import opened Messages
  import opened Registry
  import opened RegistryAtomic

  /** Whole handlers, one at a time. */
  datatype Action =
    | Connected(ch: Channel)
    | Registered(ch: Channel, id: nat, reg: Register, found: Found)
    | Cancelled(ch: Channel, id: nat, reg: Register)
    | Disconnected(ch: Channel)

  /** The tables and the channels that are, and were, connected. */
  datatype World = World(tables: Tables, live: set<Channel>, past: set<Channel>)

  const EMPTY := World(INIT.tables, {}, {})

  function Act(c: Config, w: World, a: Action): World {
    match a
    case Connected(ch) => if ch in w.live || ch in w.past then w else w.(live := w.live + {ch})
    case Registered(ch, id, reg, f) =>
      if ch !in w.live then w
      else w.(tables := if reg.newServerPort then RegisterNewPort(w.tables, ch, id, reg, f)
                        else RegisterDefaultPort(c, w.tables, ch, id, reg, f))
    case Cancelled(ch, id, reg) => if ch !in w.live then w else w.(tables := CancelRegister(w.tables, ch, id, reg))
    case Disconnected(ch) =>
      if ch !in w.live then w else World(Disconnect(w.tables, ch), w.live - {ch}, w.past + {ch})
  }

  function Perform(c: Config, run: seq<Action>): World {
    if run == [] then EMPTY else Act(c, Perform(c, run[..|run| - 1]), run[|run| - 1])
  }

  /** The list of a channel is what the route table says of it. */
  ghost predicate Inverse(route: map<string, Channel>, names: map<Channel, seq<string>>, ch: Channel) {
    && (forall n :: n in At(names, ch) <==> n in route && route[n] == ch)
    && NoDuplicates(At(names, ch))
  }

  ghost predicate AllInverse(w: World) {
    && (forall ch: nat {:trigger Inverse(w.tables.route, w.tables.names, ch)} :: ch in w.live ==>
      Inverse(w.tables.route, w.tables.names, ch))
    && (forall ch: nat :: ch !in w.live && ch !in w.past ==> At(w.tables.names, ch) == [])
    && (forall n :: n in w.tables.route ==> w.tables.route[n] in w.live)
  }

  lemma {:induction false} InverseRegisters(t: Tables, ch: Channel, name: string, d: Channel)
    requires Inverse(t.route, t.names, d) && name !in t.route
    ensures Inverse(t.route[name := ch], Push(t.names, ch, name), d)
  {
    if d == ch {
      assert name !in At(t.names, ch);
    }
  }

  lemma InverseDisconnects(t: Tables, ch: Channel, d: Channel)
    requires Inverse(t.route, t.names, ch) && Inverse(t.route, t.names, d) && d != ch
    ensures Inverse(Disconnect(t, ch).route, Disconnect(t, ch).names, d)
  {
  }

  lemma InverseStep(c: Config, w: World, a: Action)
    requires AllInverse(w) && !a.Cancelled?
    ensures AllInverse(Act(c, w, a))
  {
    var u := Act(c, w, a);
    match a
    case Connected(ch) =>
      forall d: nat | d in u.live ensures Inverse(u.tables.route, u.tables.names, d) {
        assert d in w.live ==> Inverse(w.tables.route, w.tables.names, d);
      }
    case Registered(ch, id, reg, f) =>
      forall d: nat | d in u.live ensures Inverse(u.tables.route, u.tables.names, d) {
        assert Inverse(w.tables.route, w.tables.names, d);
        if ch in w.live && !reg.newServerPort && reg.name !in w.tables.route {
          InverseRegisters(w.tables, ch, reg.name, d);
        }
      }
    case Disconnected(ch) =>
      forall d: nat | d in u.live ensures Inverse(u.tables.route, u.tables.names, d) {
        assert Inverse(w.tables.route, w.tables.names, d);
        if ch in w.live {
          assert Inverse(w.tables.route, w.tables.names, ch);
          InverseDisconnects(w.tables, ch, d);
        }
      }
      if ch in w.live {
        assert Inverse(w.tables.route, w.tables.names, ch);
      }
  }

  ghost predicate CancelFree(run: seq<Action>) {
    forall k :: 0 <= k < |run| ==> !run[k].Cancelled?
  }

  /** Without cancels, in every run of whole handlers: a connected channel's list holds
      exactly the names routed to it, each once. */
  lemma {:induction false} ExactInverse(c: Config, run: seq<Action>)
    requires CancelFree(run)
    ensures AllInverse(Perform(c, run))
  {
    if run != [] {
      ExactInverse(c, run[..|run| - 1]);
      InverseStep(c, Perform(c, run[..|run| - 1]), run[|run| - 1]);
    }
  }

  /** Without cancels, a disconnect in a run of whole handlers removes exactly the routes of
      its channel. */
  lemma {:induction false} DisconnectIsExact(c: Config, run: seq<Action>, ch: Channel)
    requires CancelFree(run) && ch in Perform(c, run).live
    ensures var t := Perform(c, run).tables;
      Disconnect(t, ch).route == map n | n in t.route && t.route[n] != ch :: t.route[n]
  {
    ExactInverse(c, run);
    var t := Perform(c, run).tables;
    assert Inverse(t.route, t.names, ch);
  }

  // ------------------------------------------------ what the lists hold with cancels

  /** Event `j` of a run routed name `n` to `ch`. */
  ghost predicate RegistersAt(c: Config, run: seq<Action>, j: nat, ch: Channel, n: string) {
    j < |run| && Routes(Perform(c, run[..j]), run[j], ch, n)
  }

  predicate Routes(w: World, a: Action, ch: Channel, n: string) {
    && a.Registered? && a.ch == ch && ch in w.live && !a.reg.newServerPort && a.reg.name == n && n !in w.tables.route
  }

  lemma ListStep(c: Config, w: World, a: Action, ch: Channel, n: string)
    ensures n in At(Act(c, w, a).tables.names, ch) <==> n in At(w.tables.names, ch) || Routes(w, a, ch, n)
  {
    if a.Registered? && a.ch in w.live {
      if a.reg.newServerPort {
        assert Act(c, w, a).tables == RegisterNewPort(w.tables, a.ch, a.id, a.reg, a.found);
      } else {
        assert Act(c, w, a).tables == RegisterDefaultPort(c, w.tables, a.ch, a.id, a.reg, a.found);
      }
    }
  }

  lemma {:induction false} RegistersLater(c: Config, run: seq<Action>, a: Action, ch: Channel, n: string)
    ensures (exists j: nat :: RegistersAt(c, run + [a], j, ch, n))
      <==> (exists j: nat :: RegistersAt(c, run, j, ch, n)) || Routes(Perform(c, run), a, ch, n)
  {
    forall j: nat | j < |run| ensures RegistersAt(c, run + [a], j, ch, n) <==> RegistersAt(c, run, j, ch, n) {
      assert (run + [a])[..j] == run[..j];
    }
    assert (run + [a])[..|run|] == run;
    assert RegistersAt(c, run + [a], |run|, ch, n) <==> Routes(Perform(c, run), a, ch, n);
  }

  /** In every run of whole handlers, cancels included: a channel's list holds exactly the
      names that were routed to it at some time. */
  lemma {:induction false} ListsAreHistory(c: Config, run: seq<Action>, ch: Channel, n: string)
    ensures n in At(Perform(c, run).tables.names, ch) <==> exists j: nat :: RegistersAt(c, run, j, ch, n)
  {
    if run != [] {
      var before, last := run[..|run| - 1], run[|run| - 1];
      assert run == before + [last];
      ListsAreHistory(c, before, ch, n);
      ListStep(c, Perform(c, before), last, ch, n);
      RegistersLater(c, before, last, ch, n);
    }
  }

  /** In every run of whole handlers: a disconnect takes a route of another channel if and
      only if that very name was routed to the disconnecting channel earlier in the run. */
  lemma {:induction false} DisconnectHarms(c: Config, run: seq<Action>, ch: Channel, n: string)
    requires n in Perform(c, run).tables.route && Perform(c, run).tables.route[n] != ch
    ensures n !in Disconnect(Perform(c, run).tables, ch).route <==> exists j: nat :: RegistersAt(c, run, j, ch, n)
  {
    ListsAreHistory(c, run, ch, n);
  }

  /** Event `k` took name `n` from the live channel `ch`: a cancel of the name, by any
      channel, or the disconnect of another channel that the name was once routed to. */
  ghost predicate TakenAt(c: Config, run: seq<Action>, k: nat, ch: Channel, n: string) {
    && k < |run| && n in Perform(c, run[..k]).tables.route && Perform(c, run[..k]).tables.route[n] == ch
    && ((run[k].Cancelled? && run[k].reg.name == n)
        || (run[k].Disconnected? && run[k].ch != ch && run[k].ch in Perform(c, run[..k]).live
            && exists i: nat :: RegistersAt(c, run[..k], i, run[k].ch, n)))
  }

  /** A registration takes no route away. */
  lemma RegisterKeeps(c: Config, w: World, a: Action, n: string)
    requires a.Registered? && n in w.tables.route
    ensures n in Act(c, w, a).tables.route && Act(c, w, a).tables.route[n] == w.tables.route[n]
  {
    if a.ch in w.live {
      if a.reg.newServerPort {
        assert Act(c, w, a).tables == RegisterNewPort(w.tables, a.ch, a.id, a.reg, a.found);
      } else {
        assert Act(c, w, a).tables == RegisterDefaultPort(c, w.tables, a.ch, a.id, a.reg, a.found);
      }
    }
  }

  lemma CancelKeeps(c: Config, w: World, a: Action, n: string)
    requires a.Cancelled? && n in w.tables.route && n != a.reg.name
    ensures n in Act(c, w, a).tables.route && Act(c, w, a).tables.route[n] == w.tables.route[n]
  {
    if a.ch in w.live {
      assert Act(c, w, a).tables == CancelRegister(w.tables, a.ch, a.id, a.reg);
    }
  }

  /** What can take a route from a channel that stays live. */
  lemma RouteStep(c: Config, w: World, a: Action, ch: Channel, n: string)
    requires ch in Act(c, w, a).live && n in w.tables.route && w.tables.route[n] == ch
    requires n !in Act(c, w, a).tables.route || Act(c, w, a).tables.route[n] != ch
    ensures (a.Cancelled? && a.reg.name == n)
      || (a.Disconnected? && a.ch != ch && a.ch in w.live && n in At(w.tables.names, a.ch))
  {
    if a.Registered? {
      RegisterKeeps(c, w, a, n);
    } else if a.Cancelled? && a.reg.name != n {
      CancelKeeps(c, w, a, n);
    }
  }

  /** A channel that was live stays known, and a channel that is past never comes back. */
  lemma {:induction false} SeenStays(c: Config, run: seq<Action>, j: nat, ch: Channel)
    requires j <= |run| && ch in Perform(c, run[..j]).live
    ensures ch in Perform(c, run).live || ch in Perform(c, run).past
  {
    if j == |run| {
      assert run[..j] == run;
    } else {
      var before := run[..|run| - 1];
      assert before[..j] == run[..j];
      SeenStays(c, before, j, ch);
    }
  }

  /** A live channel that no longer has a name it was once given lost it, in a run of whole
      handlers, to such an event. */
  lemma {:induction false} WhoTookIt(c: Config, run: seq<Action>, j: nat, ch: Channel, n: string)
    requires RegistersAt(c, run, j, ch, n) && ch in Perform(c, run).live
    requires n !in Perform(c, run).tables.route || Perform(c, run).tables.route[n] != ch
    ensures exists k: nat :: j < k && TakenAt(c, run, k, ch, n)
    decreases |run|
  {
    var before, last := run[..|run| - 1], run[|run| - 1];
    var w := Perform(c, before);
    if j < |before| {
      assert before[..j] == run[..j];
      SeenStays(c, before, j, ch);
      if n in w.tables.route && w.tables.route[n] == ch {
        RouteStep(c, w, last, ch, n);
        ListsAreHistory(c, before, last.ch, n);
        assert TakenAt(c, run, |before|, ch, n);
      } else {
        WhoTookIt(c, before, j, ch, n);
        var k: nat :| j < k && TakenAt(c, before, k, ch, n);
        assert before[..k] == run[..k];
        assert TakenAt(c, run, k, ch, n);
      }
    }
  }

  /** The first time this happens to a name it is a cancel: in a run of whole handlers
      without a cancel of the name, no disconnect takes its route from another live
      channel. */
  lemma {:induction false} HarmNeedsCancel(c: Config, run: seq<Action>, j: nat, ch: Channel, n: string)
    requires RegistersAt(c, run, j, ch, n) && ch in Perform(c, run).live
    requires n !in Perform(c, run).tables.route || Perform(c, run).tables.route[n] != ch
    ensures exists k: nat :: k < |run| && run[k].Cancelled? && run[k].reg.name == n
    decreases |run|
  {
    WhoTookIt(c, run, j, ch, n);
    var k: nat :| j < k && TakenAt(c, run, k, ch, n);
    if run[k].Disconnected? {
      var i: nat :| RegistersAt(c, run[..k], i, run[k].ch, n);
      HarmNeedsCancel(c, run[..k], i, run[k].ch, n);
      var l: nat :| l < k && run[..k][l].Cancelled? && run[..k][l].reg.name == n;
      assert run[l] == run[..k][l];
    }
  }

  lemma {:induction false} PerformAppends(c: Config, run: seq<Action>, a: Action)
    ensures Perform(c, run + [a]) == Act(c, Perform(c, run), a)
  {
    assert (run + [a])[..|run|] == run;
  }

  lemma {:induction false} PerformFour(c: Config, a: seq<Action>)
    requires |a| == 5
    ensures Perform(c, a[..4]) == Act(c, Act(c, Act(c, Act(c, EMPTY, a[0]), a[1]), a[2]), a[3])
  {
    PerformAppends(c, [], a[0]);
    PerformAppends(c, a[..1], a[1]);
    PerformAppends(c, a[..2], a[2]);
    PerformAppends(c, a[..3], a[3]);
    assert [] + [a[0]] == a[..1] && a[..1] + [a[1]] == a[..2] && a[..2] + [a[2]] == a[..3];
    assert a[..3] + [a[3]] == a[..4];
  }

  lemma {:induction false} PerformFive(c: Config, a: seq<Action>)
    requires |a| == 5
    ensures Perform(c, a) == Act(c, Act(c, Act(c, Act(c, Act(c, EMPTY, a[0]), a[1]), a[2]), a[3]), a[4])
  {
    PerformFour(c, a);
    PerformAppends(c, a[..4], a[4]);
    assert a[..4] + [a[4]] == a;
  }

  /** With cancels it happens: a channel's name is cancelled and taken by another
      channel, and the first channel's disconnect takes the route away. */
  lemma {:induction false} CancelledNameIsLost(c: Config, id: nat, reg: Register, f: Found)
    requires !reg.newServerPort
    ensures var run := [Connected(0), Connected(1), Registered(0, id, reg, f), Cancelled(1, id, reg),
      Registered(1, id, reg, f)];
      var w := Perform(c, run);
      && reg.name in w.tables.route && w.tables.route[reg.name] == 1 && 1 in w.live
      && reg.name !in Disconnect(w.tables, 0).route
  {
    PerformFive(c, [Connected(0), Connected(1), Registered(0, id, reg, f), Cancelled(1, id, reg),
      Registered(1, id, reg, f)]);
    var t2 := RegisterDefaultPort(c, INIT.tables, 0, id, reg, f);
    var t3 := CancelRegister(t2, 1, id, reg);
    var t4 := RegisterDefaultPort(c, t3, 1, id, reg, f);
    assert At(t4.names, 0) == [reg.name] && t4.route[reg.name] == 1;
    assert At(t4.names, 0)[0] == reg.name;
  }

  /** Three channels use a name after each other; only the first one's is cancelled. */
  function Relay(id: nat, reg: Register, f: Found): seq<Action> {
    [Connected(0), Connected(1), Connected(2), Registered(0, id, reg, f), Cancelled(0, id, reg),
     Registered(1, id, reg, f), Disconnected(0), Registered(2, id, reg, f)]
  }

  lemma {:induction false} PerformNext(c: Config, run: seq<Action>, k: nat)
    requires k < |run|
    ensures Perform(c, run[..k + 1]) == Act(c, Perform(c, run[..k]), run[k])
  {
    assert run[..k + 1][..k] == run[..k];
  }

  /** The name is free when the second channel registers it. */
  ghost predicate Freed(w: World, name: string) {
    && w.live == {0, 1, 2} && w.past == {} && w.tables.route == map[]
    && At(w.tables.names, 0) == [name] && At(w.tables.names, 1) == []
  }

  lemma {:induction false} RelayBegins(c: Config, id: nat, reg: Register, f: Found, w: World)
    requires !reg.newServerPort && w == World(INIT.tables, {0, 1, 2}, {})
    ensures Freed(Act(c, Act(c, w, Registered(0, id, reg, f)), Cancelled(0, id, reg)), reg.name)
  {
    var w1 := Act(c, w, Registered(0, id, reg, f));
    assert w1.tables.route == map[reg.name := 0] && At(w1.tables.names, 0) == [reg.name];
  }

  /** The first channel's disconnect takes the second one's route; the third channel gets
      the name, and the second one's list still has it. */
  lemma {:induction false} RelayEnds(c: Config, id: nat, reg: Register, f: Found, w: World)
    requires !reg.newServerPort && Freed(w, reg.name)
    ensures var u := Act(c, Act(c, Act(c, w, Registered(1, id, reg, f)), Disconnected(0)), Registered(2, id, reg, f));
      && u.live == {1, 2} && reg.name in u.tables.route && u.tables.route[reg.name] == 2
      && At(u.tables.names, 1) == [reg.name]
  {
    var w3 := Act(c, w, Registered(1, id, reg, f));
    assert w3.tables.route == map[reg.name := 1] && At(w3.tables.names, 1) == [reg.name];
    var w4 := Act(c, w3, Disconnected(0));
    assert At(w3.tables.names, 0)[0] == reg.name;
    assert w4.tables.route == map[] && w4.tables.names == w3.tables.names;
  }

  lemma {:induction false} RelayFrees(c: Config, id: nat, reg: Register, f: Found)
    requires !reg.newServerPort
    ensures Freed(Perform(c, Relay(id, reg, f)[..5]), reg.name)
  {
    var run := Relay(id, reg, f);
    assert run[..0] == [];
    PerformNext(c, run, 0);
    PerformNext(c, run, 1);
    PerformNext(c, run, 2);
    assert Perform(c, run[..3]) == World(INIT.tables, {0, 1, 2}, {});
    PerformNext(c, run, 3);
    PerformNext(c, run, 4);
    RelayBegins(c, id, reg, f, Perform(c, run[..3]));
  }

  /** The last three events of a run of eight. */
  lemma {:induction false} LastThree(c: Config, run: seq<Action>, w: World)
    requires |run| == 8 && w == Perform(c, run[..5])
    ensures Perform(c, run) == Act(c, Act(c, Act(c, w, run[5]), run[6]), run[7])
  {
    PerformNext(c, run, 5);
    PerformNext(c, run, 6);
    PerformNext(c, run, 7);
    assert run[..8] == run;
  }

  /** A channel whose list has a name takes its route from whoever has it now. */
  lemma Takes(t: Tables, ch: Channel, n: string)
    requires At(t.names, ch) == [n]
    ensures n !in Disconnect(t, ch).route
  {
    assert At(t.names, ch)[0] == n;
  }

  lemma {:induction false} RegistersFreed(c: Config, run: seq<Action>, id: nat, reg: Register, f: Found)
    requires |run| > 5 && run[5] == Registered(1, id, reg, f) && !reg.newServerPort
    requires Freed(Perform(c, run[..5]), reg.name)
    ensures RegistersAt(c, run, 5, 1, reg.name)
  {
  }

  /** One harm makes the next, also with whole handlers: the second channel's disconnect
      takes the third one's route, although the name was not cancelled after the second
      channel registered it. */
  lemma {:induction false} HarmWithoutCancelSince(c: Config, id: nat, reg: Register, f: Found)
    requires !reg.newServerPort
    ensures var run := Relay(id, reg, f);
      var w := Perform(c, run);
      && 1 in w.live && RegistersAt(c, run, 5, 1, reg.name) && (forall k :: 5 < k < |run| ==> !run[k].Cancelled?)
      && reg.name in w.tables.route && w.tables.route[reg.name] == 2
      && reg.name !in Disconnect(w.tables, 1).route
  {
    var run := Relay(id, reg, f);
    var w := Perform(c, run[..5]);
    RelayFrees(c, id, reg, f);
    RegistersFreed(c, run, id, reg, f);
    LastThree(c, run, w);
    RelayEnds(c, id, reg, f, w);
    Takes(Perform(c, run).tables, 1, reg.name);
  }

  // ------------------------------------------------ cancelling a listener

  /** The boots of a list that were registered under a name. */
  ghost predicate Named(boots: map<BootId, Boot>, q: seq<BootId>, name: string, b: BootId) {
    b in q && b in boots && boots[b].name == name
  }

  lemma {:induction false} FirstNamedIs(boots: map<BootId, Boot>, q: seq<BootId>, name: string)
    ensures match FirstNamed(boots, q, name)
      case Some(b) => Named(boots, q, name, b)
      case None => forall b :: !Named(boots, q, name, b)
  {
    if q != [] {
      FirstNamedIs(boots, q[1..], name);
      forall b ensures Named(boots, q, name, b) ==> b == q[0] || Named(boots, q[1..], name, b) {
      }
    }
  }

  /** A cancel stops the first boot of the name in the channel's list if nobody has the
      name routed, and nothing otherwise; so it leaves nothing of that name listening
      exactly when no other boot of the list listens under it. */
  lemma {:induction false} CancelStopsListener(t: Tables, ch: Channel, id: nat, reg: Register)
    ensures var u, first := CancelRegister(t, ch, id, reg), FirstNamed(t.boots, At(t.bootsOf, ch), reg.name);
      (forall b :: Named(u.boots, At(u.bootsOf, ch), reg.name, b) ==> !u.boots[b].listening)
      <==> (forall b :: Named(t.boots, At(t.bootsOf, ch), reg.name, b) && (reg.name in t.route || first != Some(b)) ==>
              !t.boots[b].listening)
  {
    var u, first := CancelRegister(t, ch, id, reg), FirstNamed(t.boots, At(t.bootsOf, ch), reg.name);
    FirstNamedIs(t.boots, At(t.bootsOf, ch), reg.name);
    forall b ensures Named(u.boots, At(u.bootsOf, ch), reg.name, b)
      <==> Named(t.boots, At(t.bootsOf, ch), reg.name, b) {
    }
    if forall b :: Named(u.boots, At(u.bootsOf, ch), reg.name, b) ==> !u.boots[b].listening {
      forall b | Named(t.boots, At(t.bootsOf, ch), reg.name, b) && (reg.name in t.route || first != Some(b))
        ensures !t.boots[b].listening {
        assert Named(u.boots, At(u.bootsOf, ch), reg.name, b);
      }
    }
  }

  /** A cancel takes routes from other channels exactly if it names one of theirs, and
      then that one only. */
  lemma {:induction false} CancelTakesRoute(t: Tables, ch: Channel, id: nat, reg: Register, n: string)
    requires n in t.route && t.route[n] != ch
    ensures var u := CancelRegister(t, ch, id, reg);
      if n == reg.name then n !in u.route && u.boots == t.boots && u.dynamicBoot == t.dynamicBoot
      else n in u.route && u.route[n] == t.route[n]
  {
    var u := CancelRegister(t, ch, id, reg);
    if reg.name in t.route {
      assert u.route == t.route - {reg.name} && u.boots == t.boots;
    } else {
      assert u.route == t.route;
    }
  }

  /** It happens: two channels use one name, the first on an own port, the second on the
      default port; when the first cancels, the second loses its route and the first goes
      on listening. */
  lemma {:induction false} CancelHitsOther(c: Config, id: nat, reg: Register, a: BootId, f: Found)
    requires reg.newServerPort
    ensures var shared := reg.(newServerPort := false);
      var run := [Connected(0), Connected(1), Registered(0, id, reg, Found(true, false, true, a)),
                  Registered(1, id, shared, f), Cancelled(0, id, reg)];
      var t, u := Perform(c, run[..4]).tables, Perform(c, run).tables;
      && reg.name in t.route && t.route[reg.name] == 1 && reg.name !in u.route
      && a in u.boots && u.boots[a].owner == 0 && u.boots[a].listening
  {
    var shared := reg.(newServerPort := false);
    var run := [Connected(0), Connected(1), Registered(0, id, reg, Found(true, false, true, a)),
                Registered(1, id, shared, f), Cancelled(0, id, reg)];
    PerformFive(c, run);
    assert Perform(c, run) == Act(c, Perform(c, run[..4]), run[4]);
    var w2 := Act(c, Act(c, EMPTY, run[0]), run[1]);
    var w3 := Act(c, w2, run[2]);
    assert w2 == World(INIT.tables, {0, 1}, {});
    assert w3.tables.boots == map[a := Boot(reg.newPort, reg.name, 0, reg.protocol, true)] && w3.tables.route == map[];
    PerformFour(c, run);
    assert Perform(c, run[..4]) == Act(c, w3, run[3]);
  }

  /** A service that is registered, cancelled, registered and cancelled again on its own
      port goes on listening, and the index no longer knows it. */
  lemma {:induction false} SecondCancelLeavesListener(c: Config, id: nat, reg: Register, a: BootId, b: BootId)
    requires reg.newServerPort && a != b
    ensures var run := [Connected(0), Registered(0, id, reg, Found(true, false, true, a)), Cancelled(0, id, reg),
                        Registered(0, id, reg, Found(true, false, true, b)), Cancelled(0, id, reg)];
      var t := Perform(c, run).tables;
      b in t.boots && t.boots[b].listening && t.boots[b].port == reg.newPort && reg.newPort !in t.dynamicBoot
  {
    PerformFive(c, [Connected(0), Registered(0, id, reg, Found(true, false, true, a)), Cancelled(0, id, reg),
                    Registered(0, id, reg, Found(true, false, true, b)), Cancelled(0, id, reg)]);
    SecondCancel(id, reg, a, b);
  }

  lemma {:induction false} SecondCancel(id: nat, reg: Register, a: BootId, b: BootId)
    requires reg.newServerPort && a != b
    ensures var t1 := RegisterNewPort(INIT.tables, 0, id, reg, Found(true, false, true, a));
      var t2 := CancelRegister(t1, 0, id, reg);
      var t3 := RegisterNewPort(t2, 0, id, reg, Found(true, false, true, b));
      var t := CancelRegister(t3, 0, id, reg);
      b in t.boots && t.boots[b].listening && t.boots[b].port == reg.newPort && reg.newPort !in t.dynamicBoot
  {
    var t1 := RegisterNewPort(INIT.tables, 0, id, reg, Found(true, false, true, a));
    assert At(t1.bootsOf, 0) == [a] && t1.boots == map[a := Boot(reg.newPort, reg.name, 0, reg.protocol, true)];
    assert FirstNamed(t1.boots, [a], reg.name) == Some(a);
    var t2 := CancelRegister(t1, 0, id, reg);
    assert t2.boots == map[a := Boot(reg.newPort, reg.name, 0, reg.protocol, false)] && t2.dynamicBoot == map[];
    var t3 := RegisterNewPort(t2, 0, id, reg, Found(true, false, true, b));
    assert At(t3.bootsOf, 0) == [a, b] && t3.boots == t2.boots[b := Boot(reg.newPort, reg.name, 0, reg.protocol, true)];
    assert FirstNamed(t3.boots, [a, b], reg.name) == Some(a);
  }
}
