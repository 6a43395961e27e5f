/** What the client believes of its registrations against what the server holds. */
module SessionProofs {
  import opened Basics
  import opened Messages
  import Registry
  import RegistryAtomic
  import RegistryReplies
  import opened Session

  // ------------------------------------------------ messages are well formed

  ghost predicate Sound(w: Setting, s: State) {
    && (forall n :: n in s.forward ==> s.forward[n].name == n && (n in w.own ==> !s.forward[n].newServerPort))
    && (forall k :: 0 <= k < |s.outbox| ==> SoundMessage(w, s.outbox[k]))
    && s.received <= |At(s.tables.replies, w.ch)|
    && (!s.connected ==> s.states == map[] && s.received == |At(s.tables.replies, w.ch)|)
  }

  ghost predicate SoundMessage(w: Setting, m: SysMessage) {
    && (m.command == REGISTER || m.command == CANCEL_REGISTER) && m.register.Some?
    && (m.command == REGISTER && m.register.value.name in w.own ==> !m.register.value.newServerPort)
  }

  /** What each of the three handlers does to the routes and to the replies. */
  lemma HandleCases(w: Setting, t: Registry.Tables, m: SysMessage, f: Registry.Found)
    requires SoundMessage(w, m)
    ensures var u, n := Handle(w, t, m, f), m.register.value.name;
      && (m.command == REGISTER && m.register.value.newServerPort ==> u.route == t.route)
      && (m.command == REGISTER && !m.register.value.newServerPort ==>
        u.route == if n in t.route then t.route else t.route[n := w.ch])
      && (m.command == CANCEL_REGISTER ==> u.route == t.route - {n})
  {
    var reg := m.register.value;
    if m.command == CANCEL_REGISTER {
      assert Handle(w, t, m, f) == RegistryAtomic.CancelRegister(t, w.ch, m.id, reg);
      if reg.name !in t.route {
        assert t.route - {reg.name} == t.route;
      }
    } else if reg.newServerPort {
      assert Handle(w, t, m, f) == RegistryAtomic.RegisterNewPort(t, w.ch, m.id, reg, f);
    } else {
      assert Handle(w, t, m, f) == RegistryAtomic.RegisterDefaultPort(w.config, t, w.ch, m.id, reg, f);
    }
  }

  /** A handler answers at most once, about the name and with the command it was given. */
  ghost predicate AnswersOnce(q: seq<SysMessage>, r: seq<SysMessage>, m: SysMessage) {
    r == q || (|r| == |q| + 1 && r[..|q|] == q && m.register.Some?
      && Concerns(r[|q|], m.command, m.register.value.name))
  }

  lemma {:induction false} AnswersOne(q: seq<SysMessage>, r: SysMessage, m: SysMessage)
    requires m.register.Some? && Concerns(r, m.command, m.register.value.name)
    ensures AnswersOnce(q, q + [r], m)
  {
    assert (q + [r])[..|q|] == q;
  }

  lemma {:induction false} NewPortReplies(t: Registry.Tables, ch: nat, id: nat, reg: Register, f: Registry.Found,
    m: SysMessage)
    requires m.command == REGISTER && m.register == Some(reg)
    ensures AnswersOnce(At(t.replies, ch), At(RegistryAtomic.RegisterNewPort(t, ch, id, reg, f).replies, ch), m)
  {
    AnswersOne(At(t.replies, ch), Registry.RegisterReply(id, reg, 1), m);
    AnswersOne(At(t.replies, ch), Registry.RegisterReply(id, reg, 2), m);
  }

  lemma HandleReplies(w: Setting, t: Registry.Tables, m: SysMessage, f: Registry.Found)
    ensures AnswersOnce(At(t.replies, w.ch), At(Handle(w, t, m, f).replies, w.ch), m)
  {
    if m.register.Some? {
      var reg := m.register.value;
      if m.command == CANCEL_REGISTER {
        assert Handle(w, t, m, f) == RegistryAtomic.CancelRegister(t, w.ch, m.id, reg);
        AnswersOne(At(t.replies, w.ch), Registry.Echo(m.id, reg), m);
      } else if m.command == REGISTER && reg.newServerPort {
        NewPortReplies(t, w.ch, m.id, reg, f, m);
      } else if m.command == REGISTER {
        assert Handle(w, t, m, f) == RegistryAtomic.RegisterDefaultPort(w.config, t, w.ch, m.id, reg, f);
        AnswersOne(At(t.replies, w.ch), Registry.RegisterReply(m.id, reg, 0), m);
        AnswersOne(At(t.replies, w.ch), Registry.RegisterReply(m.id, reg.(newPort := w.config.httpPort), 1), m);
      }
    }
  }

  /** The answer to a registration on an own port: 2 exactly if the port is in the index,
      1 exactly if a boot was started, and none if it could not be. */
  lemma OwnPortAnswers(t: Registry.Tables, ch: nat, id: nat, reg: Register, f: Registry.Found)
    ensures var u := RegistryAtomic.RegisterNewPort(t, ch, id, reg, f);
      At(u.replies, ch) == At(t.replies, ch)
        + (if reg.newPort in t.dynamicBoot then [SysMessage(id, REGISTER, "", 2, Some(reg))]
           else if f.newBoot !in t.boots && f.newBoot in u.boots then [SysMessage(id, REGISTER, "", 1, Some(reg))]
           else [])
  {
  }

  /** Every answer carries the id, the command and the data of the message, with the HTTP
      port in it when a default-port registration succeeds; so the caller that waits under
      this id is the one that is completed. */
  lemma HandleAnswers(w: Setting, t: Registry.Tables, m: SysMessage, f: Registry.Found)
    ensures var q, u := At(t.replies, w.ch), Handle(w, t, m, f);
      var r := At(u.replies, w.ch);
      && (m.register.None? || (m.command != REGISTER && m.command != CANCEL_REGISTER) ==> r == q)
      && (m.register.Some? && m.command == CANCEL_REGISTER ==>
            r == q + [SysMessage(m.id, CANCEL_REGISTER, "", 0, m.register)])
      && (m.register.Some? && m.command == REGISTER && !m.register.value.newServerPort ==>
            r == q + [if m.register.value.name in t.route then SysMessage(m.id, REGISTER, "", 0, m.register)
                      else SysMessage(m.id, REGISTER, "", 1,
                        Some(m.register.value.(newPort := w.config.httpPort)))])
      && (m.register.Some? && m.command == REGISTER && m.register.value.newServerPort ==>
            r == q + (if m.register.value.newPort in t.dynamicBoot then [SysMessage(m.id, REGISTER, "", 2, m.register)]
                      else if f.newBoot !in t.boots && f.newBoot in u.boots
                        then [SysMessage(m.id, REGISTER, "", 1, m.register)]
                      else []))
  {
    if m.register.Some? {
      OwnPortAnswers(t, w.ch, m.id, m.register.value, f);
      RegistryReplies.DefaultPortMeans(w.config, t, w.ch, m.id, m.register.value, f);
      RegistryReplies.CancelAnswers(t, w.ch, m.id, m.register.value);
    }
  }

  lemma SoundStep(w: Setting, s: State, e: Event)
    requires Sound(w, s)
    requires e.AddsMapping? && e.reg.name in w.own ==> !e.reg.newServerPort
    ensures Sound(w, Step(w, s, e))
  {
    if Enabled(w, s, e) && e.ServerHandles? {
      HandleReplies(w, s.tables, s.outbox[0], e.found);
    }
  }

  // ------------------------------------------------ draining

  lemma {:induction false} DrainedAppends(states: map<string, Info>, q: seq<SysMessage>, m: SysMessage)
    ensures Drained(states, q + [m]) == Receive(Drained(states, q), m)
    decreases |q|
  {
    if q == [] {
      assert [] + [m] == [m];
    } else {
      assert (q + [m])[1..] == q[1..] + [m];
      DrainedAppends(Receive(states, q[0]), q[1..], m);
    }
  }

  /** For one name: the server routes it here exactly if it was registered since it was
      last cancelled, the drained client knows it exactly then, and holds it for
      successfully registered exactly if it was registered once. */
  ghost predicate Agrees(w: Setting, s: State, n: string) {
    var k, d := Since(s.handled, n), Drained(s.states, InFlight(w, s));
    && (n in s.tables.route <==> k > 0)
    && (n in s.tables.route ==> s.tables.route[n] == w.ch)
    && (n in d <==> k > 0)
    && (n in d ==> d[n].state == if k == 1 then 1 else 0)
  }

  lemma {:induction false} SinceAppends(handled: seq<SysMessage>, m: SysMessage, n: string)
    ensures Since(handled + [m], n) ==
      if Concerns(m, CANCEL_REGISTER, n) then 0 else if Concerns(m, REGISTER, n) then Since(handled, n) + 1
        else Since(handled, n)
  {
    assert (handled + [m])[..|handled|] == handled;
  }

  /** The server's handling of one message, seen from one name of this connection. */
  lemma {:induction false} HandleOwn(w: Setting, t: Registry.Tables, m: SysMessage, f: Registry.Found, n: string)
    requires SoundMessage(w, m) && n in w.own && (n in t.route ==> t.route[n] == w.ch)
    ensures var u := Handle(w, t, m, f);
      && (n in u.route <==> Concerns(m, REGISTER, n) || (n in t.route && !Concerns(m, CANCEL_REGISTER, n)))
      && (n in u.route ==> u.route[n] == w.ch)
  {
    HandleCases(w, t, m, f);
  }

  lemma {:induction false} HandleAnswersOwn(w: Setting, t: Registry.Tables, m: SysMessage, f: Registry.Found, n: string)
    requires SoundMessage(w, m) && n in w.own && m.register.value.name == n
    ensures exists r ::
      && At(Handle(w, t, m, f).replies, w.ch) == At(t.replies, w.ch) + [r] && Concerns(r, m.command, n)
      && (m.command == REGISTER ==> r.state == if n in t.route then 0 else 1)
  {
    var reg := m.register.value;
    var r := if m.command == CANCEL_REGISTER then Registry.Echo(m.id, reg)
      else if n in t.route then Registry.RegisterReply(m.id, reg, 0)
      else Registry.RegisterReply(m.id, reg.(newPort := w.config.httpPort), 1);
    assert At(Handle(w, t, m, f).replies, w.ch) == At(t.replies, w.ch) + [r];
  }

  lemma {:induction false} DrainedLonger(w: Setting, s: State, t: State, n: string)
    requires t.states == s.states && t.received == s.received <= |At(s.tables.replies, w.ch)|
    requires var q, r := At(s.tables.replies, w.ch), At(t.tables.replies, w.ch);
      r == q || (|r| == |q| + 1 && r[..|q|] == q)
    ensures var q, r := At(s.tables.replies, w.ch), At(t.tables.replies, w.ch);
      Drained(t.states, InFlight(w, t)) ==
        if |r| == |q| + 1 then Receive(Drained(s.states, InFlight(w, s)), r[|q|]) else Drained(s.states, InFlight(w, s))
  {
    var q, r := At(s.tables.replies, w.ch), At(t.tables.replies, w.ch);
    if |r| == |q| + 1 {
      SliceAppends(q, r, s.received);
      DrainedAppends(s.states, InFlight(w, s), r[|q|]);
    }
  }

  /** What one reply does to one name of `stateMap`. */
  lemma ReceiveOne(d: map<string, Info>, r: SysMessage, n: string)
    requires r.register.Some? && (r.command == REGISTER || r.command == CANCEL_REGISTER)
    ensures var e := Receive(d, r);
      && (r.register.value.name != n ==> (n in e <==> n in d) && (n in e ==> e[n] == d[n]))
      && (Concerns(r, REGISTER, n) ==> n in e && e[n].state == if r.state == 1 then 1 else 0)
      && (Concerns(r, CANCEL_REGISTER, n) ==> n !in e)
  {
  }

  lemma {:induction false} AgreesHandlesOther(w: Setting, s: State, f: Registry.Found, n: string)
    requires Sound(w, s) && n in w.own && Agrees(w, s, n) && Enabled(w, s, ServerHandles(f))
    requires SoundMessage(w, s.outbox[0]) && s.outbox[0].register.value.name != n
    ensures Agrees(w, Do(w, s, ServerHandles(f)), n)
  {
    var m, t := s.outbox[0], Do(w, s, ServerHandles(f));
    var q, r := At(s.tables.replies, w.ch), At(t.tables.replies, w.ch);
    HandleOwn(w, s.tables, m, f, n);
    HandleReplies(w, s.tables, m, f);
    DrainedLonger(w, s, t, n);
    SinceAppends(s.handled, m, n);
    if r != q {
      ReceiveOne(Drained(s.states, InFlight(w, s)), r[|q|], n);
    }
  }

  lemma {:induction false} AgreesHandlesOwn(w: Setting, s: State, f: Registry.Found, n: string)
    requires Sound(w, s) && n in w.own && Agrees(w, s, n) && Enabled(w, s, ServerHandles(f))
    requires SoundMessage(w, s.outbox[0]) && s.outbox[0].register.value.name == n
    ensures Agrees(w, Do(w, s, ServerHandles(f)), n)
  {
    var m, t := s.outbox[0], Do(w, s, ServerHandles(f));
    HandleOwn(w, s.tables, m, f, n);
    HandleAnswersOwn(w, s.tables, m, f, n);
    var r :| At(t.tables.replies, w.ch) == At(s.tables.replies, w.ch) + [r] && Concerns(r, m.command, n)
      && (m.command == REGISTER ==> r.state == if n in s.tables.route then 0 else 1);
    DrainedLonger(w, s, t, n);
    ReceiveOne(Drained(s.states, InFlight(w, s)), r, n);
    SinceAppends(s.handled, m, n);
  }

  lemma {:induction false} AgreesHandles(w: Setting, s: State, f: Registry.Found, n: string)
    requires Sound(w, s) && n in w.own && Agrees(w, s, n) && Enabled(w, s, ServerHandles(f))
    ensures Agrees(w, Do(w, s, ServerHandles(f)), n)
  {
    assert SoundMessage(w, s.outbox[0]);
    if s.outbox[0].register.value.name == n {
      AgreesHandlesOwn(w, s, f, n);
    } else {
      AgreesHandlesOther(w, s, f, n);
    }
  }

  lemma {:induction false} AgreesReceives(w: Setting, s: State, n: string)
    requires Sound(w, s) && Agrees(w, s, n) && Enabled(w, s, ClientReceives)
    ensures Agrees(w, Do(w, s, ClientReceives), n)
  {
    var q, t := InFlight(w, s), Do(w, s, ClientReceives);
    assert InFlight(w, t) == q[1..];
  }

  lemma {:induction false} AgreesStep(w: Setting, s: State, e: Event, n: string)
    requires Sound(w, s) && n in w.own && Agrees(w, s, n) && Step(w, s, e).connected
    ensures Agrees(w, Step(w, s, e), n)
  {
    if Enabled(w, s, e) {
      if e.ServerHandles? {
        AgreesHandles(w, s, e.found, n);
      } else if e.ClientReceives? {
        AgreesReceives(w, s, n);
      } else {
        assert InFlight(w, Do(w, s, e)) == InFlight(w, s);
      }
    }
  }

  lemma {:induction false} EverySound(w: Setting, start: State, run: seq<Event>)
    requires Fresh(w, start) && Proper(w, run)
    ensures Sound(w, After(w, start, run))
  {
    if run != [] {
      EverySound(w, start, run[..|run| - 1]);
      SoundStep(w, After(w, start, run[..|run| - 1]), run[|run| - 1]);
    }
  }

  lemma StaysClosed(w: Setting, s: State, e: Event)
    requires Step(w, s, e).connected
    ensures s.connected
  {
  }

  /** While the connection is open, in every run of registrations, re-registrations and
      cancels, the server and the drained client agree on every own name. */
  lemma {:induction false} DrainedViewsAgree(w: Setting, start: State, run: seq<Event>, n: string)
    requires Fresh(w, start) && Proper(w, run) && n in w.own && After(w, start, run).connected
    ensures Agrees(w, After(w, start, run), n)
  {
    if run == [] {
      assert InFlight(w, start) == [];
    } else {
      var before, last := run[..|run| - 1], run[|run| - 1];
      EverySound(w, start, before);
      StaysClosed(w, After(w, start, before), last);
      DrainedViewsAgree(w, start, before, n);
      AgreesStep(w, After(w, start, before), last, n);
    }
  }

  /** Open or closed: what the drained client takes for registered is routed here. */
  lemma {:induction false} BelievedIsRouted(w: Setting, start: State, run: seq<Event>, n: string)
    requires Fresh(w, start) && Proper(w, run) && n in w.own
    ensures var s := After(w, start, run); var d := Drained(s.states, InFlight(w, s));
      n in d && d[n].state == 1 ==> n in s.tables.route && s.tables.route[n] == w.ch
  {
    EverySound(w, start, run);
    var s := After(w, start, run);
    if s.connected {
      DrainedViewsAgree(w, start, run, n);
    }
  }

  lemma ClosedStays(w: Setting, s: State, e: Event)
    requires !s.connected
    ensures !Step(w, s, e).connected
  {
  }

  /** Once the connection has closed, the client takes nothing for registered any more,
      whatever was in flight and whatever happens later. */
  lemma {:induction false} ClosedKnowsNothing(w: Setting, start: State, run: seq<Event>, more: seq<Event>)
    requires Fresh(w, start) && Proper(w, run + more) && !After(w, start, run).connected
    ensures var s := After(w, start, run + more); !s.connected && Drained(s.states, InFlight(w, s)) == map[]
  {
    if more == [] {
      assert run + more == run;
    } else {
      var front := more[..|more| - 1];
      assert (run + more)[..|run + more| - 1] == run + front;
      ClosedKnowsNothing(w, start, run, front);
      ClosedStays(w, After(w, start, run + front), more[|more| - 1]);
    }
    EverySound(w, start, run + more);
  }

  // ------------------------------------------------ after the connection

  /** A name that is routed here is in this connection's list. */
  ghost predicate Listed(w: Setting, t: Registry.Tables, n: string) {
    n in t.route && t.route[n] == w.ch ==> n in At(t.names, w.ch)
  }

  lemma NewPortKeeps(t: Registry.Tables, ch: nat, id: nat, reg: Register, f: Registry.Found)
    ensures var u := RegistryAtomic.RegisterNewPort(t, ch, id, reg, f); u.route == t.route && u.names == t.names
  {
  }

  lemma ListedHandles(w: Setting, t: Registry.Tables, m: SysMessage, f: Registry.Found, n: string)
    requires Listed(w, t, n)
    ensures Listed(w, Handle(w, t, m, f), n)
  {
    if m.register.Some? && m.command == CANCEL_REGISTER {
      assert Handle(w, t, m, f) == RegistryAtomic.CancelRegister(t, w.ch, m.id, m.register.value);
    } else if m.register.Some? && m.command == REGISTER && m.register.value.newServerPort {
      assert Handle(w, t, m, f) == RegistryAtomic.RegisterNewPort(t, w.ch, m.id, m.register.value, f);
      NewPortKeeps(t, w.ch, m.id, m.register.value, f);
    } else if m.register.Some? && m.command == REGISTER {
      assert Handle(w, t, m, f) == RegistryAtomic.RegisterDefaultPort(w.config, t, w.ch, m.id, m.register.value, f);
      RegistryReplies.DefaultPortMeans(w.config, t, w.ch, m.id, m.register.value, f);
    }
  }

  lemma ListedStep(w: Setting, s: State, e: Event, n: string)
    requires Listed(w, s.tables, n) && n in w.own
    ensures Listed(w, Step(w, s, e).tables, n)
  {
    if Enabled(w, s, e) && e.ServerHandles? {
      ListedHandles(w, s.tables, s.outbox[0], e.found, n);
    }
  }

  lemma {:induction false} ListedRun(w: Setting, start: State, run: seq<Event>, n: string)
    requires Fresh(w, start) && n in w.own
    ensures Listed(w, After(w, start, run).tables, n)
  {
    if run != [] {
      ListedRun(w, start, run[..|run| - 1], n);
      ListedStep(w, After(w, start, run[..|run| - 1]), run[|run| - 1], n);
    }
  }

  /** Closed, and nothing is routed here. */
  ghost predicate Unrouted(w: Setting, s: State, n: string) {
    !s.connected && !(n in s.tables.route && s.tables.route[n] == w.ch)
  }

  lemma UnroutedStep(w: Setting, s: State, e: Event, n: string)
    requires Unrouted(w, s, n) && n in w.own
    ensures Unrouted(w, Step(w, s, e), n)
  {
  }

  /** Once the server has processed the disconnect of a closed connection, none of its own
      names is routed to it, at any later time. */
  lemma {:induction false} DisconnectUnroutes(w: Setting, start: State, run: seq<Event>, more: seq<Event>, n: string)
    requires Fresh(w, start) && n in w.own && !After(w, start, run).connected
    ensures Unrouted(w, After(w, start, run + [ServerDisconnects] + more), n)
  {
    var through := run + [ServerDisconnects];
    if more == [] {
      assert through + more == through && through[..|run|] == run;
      ListedRun(w, start, run, n);
    } else {
      var front := more[..|more| - 1];
      DisconnectUnroutes(w, start, run, front, n);
      assert (through + more)[..|through + more| - 1] == through + front;
      UnroutedStep(w, After(w, start, through + front), more[|more| - 1], n);
    }
  }

  // ------------------------------------------------ routed and forgotten

  ghost predicate Holds(q: seq<SysMessage>, command: Command, n: string) {
    exists k :: 0 <= k < |q| && Concerns(q[k], command, n)
  }

  /** A cancel of the name, or the reply to one, is still on its way. */
  ghost predicate Outstanding(w: Setting, s: State, n: string) {
    Holds(s.outbox, CANCEL_REGISTER, n) || Holds(InFlight(w, s), CANCEL_REGISTER, n)
  }

  /** A registration of the name that is sent while one of its cancels is on its way. */
  ghost predicate IsHasty(w: Setting, s: State, e: Event, n: string) {
    && Enabled(w, s, e) && Outstanding(w, s, n)
    && ((e.AddsMapping? && e.reg.name == n) || (e.Registers? && e.name == n && n in s.forward))
  }

  ghost predicate HastyAt(w: Setting, start: State, run: seq<Event>, j: nat, n: string) {
    j < |run| && IsHasty(w, After(w, start, run[..j]), run[j], n)
  }

  /** The client knows every own name that the server routes here or is about to. */
  ghost predicate Known(w: Setting, s: State, n: string) {
    && (n in s.tables.route || Holds(s.outbox, REGISTER, n) ==> n in s.forward)
    && (Holds(InFlight(w, s), CANCEL_REGISTER, n) ==> n !in s.tables.route && !Holds(s.outbox, REGISTER, n))
    && (forall i, j :: 0 <= i < j < |s.outbox| && Concerns(s.outbox[i], CANCEL_REGISTER, n) ==>
      !Concerns(s.outbox[j], REGISTER, n))
  }

  lemma {:induction false} HoldsAppends(q: seq<SysMessage>, m: SysMessage, command: Command, n: string)
    ensures Holds(q + [m], command, n) <==> Holds(q, command, n) || Concerns(m, command, n)
  {
    assert (q + [m])[|q|] == m;
    if Holds(q, command, n) {
      var k :| 0 <= k < |q| && Concerns(q[k], command, n);
      assert (q + [m])[k] == q[k];
    }
  }

  lemma {:induction false} HoldsFirst(q: seq<SysMessage>, command: Command, n: string)
    requires q != []
    ensures Holds(q, command, n) <==> Concerns(q[0], command, n) || Holds(q[1..], command, n)
  {
    if Holds(q, command, n) && !Concerns(q[0], command, n) {
      var k :| 0 <= k < |q| && Concerns(q[k], command, n);
      assert q[1..][k - 1] == q[k];
    }
    if Holds(q[1..], command, n) {
      var k :| 0 <= k < |q[1..]| && Concerns(q[1..][k], command, n);
      assert q[k + 1] == q[1..][k];
    }
  }

  lemma {:induction false} SliceAppends(q: seq<SysMessage>, r: seq<SysMessage>, n: nat)
    requires n <= |q| && |r| == |q| + 1 && r[..|q|] == q
    ensures r[n..] == q[n..] + [r[|q|]]
  {
    assert r == q + [r[|q|]];
  }

  /** Handling a message keeps what is in flight, and adds at most its reply. */
  lemma {:induction false} FlightAfterHandling(w: Setting, s: State, f: Registry.Found, n: string)
    requires Sound(w, s) && n in w.own && Enabled(w, s, ServerHandles(f))
    ensures var t := Do(w, s, ServerHandles(f));
      Holds(InFlight(w, t), CANCEL_REGISTER, n)
        == (Holds(InFlight(w, s), CANCEL_REGISTER, n) || Concerns(s.outbox[0], CANCEL_REGISTER, n))
  {
    var m, t := s.outbox[0], Do(w, s, ServerHandles(f));
    var q, r := At(s.tables.replies, w.ch), At(t.tables.replies, w.ch);
    assert SoundMessage(w, m);
    HandleReplies(w, s.tables, m, f);
    if m.register.value.name == n {
      HandleAnswersOwn(w, s.tables, m, f, n);
    }
    if r != q {
      SliceAppends(q, r, s.received);
      HoldsAppends(InFlight(w, s), r[|q|], CANCEL_REGISTER, n);
    }
  }

  lemma {:induction false} KnownHandles(w: Setting, s: State, f: Registry.Found, n: string)
    requires Sound(w, s) && n in w.own && Agrees(w, s, n) && Known(w, s, n) && Enabled(w, s, ServerHandles(f))
    ensures Known(w, Do(w, s, ServerHandles(f)), n)
  {
    var m := s.outbox[0];
    assert SoundMessage(w, m);
    HandleOwn(w, s.tables, m, f, n);
    FlightAfterHandling(w, s, f, n);
    HoldsFirst(s.outbox, REGISTER, n);
  }

  lemma {:induction false} KnownReceives(w: Setting, s: State, n: string)
    requires Sound(w, s) && Known(w, s, n) && Enabled(w, s, ClientReceives)
    ensures Known(w, Do(w, s, ClientReceives), n)
  {
    var q, t := InFlight(w, s), Do(w, s, ClientReceives);
    assert InFlight(w, t) == q[1..];
    HoldsFirst(q, CANCEL_REGISTER, n);
  }

  lemma {:induction false} KnownSends(w: Setting, s: State, t: State, m: SysMessage, n: string)
    requires Known(w, s, n) && t.outbox == s.outbox + [m] && t.tables == s.tables && t.received == s.received
    requires (n in s.forward ==> n in t.forward)
      && (Concerns(m, REGISTER, n) ==> n in t.forward && !Outstanding(w, s, n))
    ensures Known(w, t, n)
  {
    HoldsAppends(s.outbox, m, REGISTER, n);
    assert InFlight(w, t) == InFlight(w, s);
    forall i, j | 0 <= i < j < |t.outbox| && Concerns(t.outbox[i], CANCEL_REGISTER, n)
      ensures !Concerns(t.outbox[j], REGISTER, n) {
      assert Concerns(s.outbox[i], CANCEL_REGISTER, n);
    }
  }

  lemma {:induction false} KnownStep(w: Setting, s: State, e: Event, n: string)
    requires Sound(w, s) && n in w.own && Agrees(w, s, n) && Known(w, s, n) && Step(w, s, e).connected
      && !IsHasty(w, s, e, n)
    ensures Known(w, Step(w, s, e), n)
  {
    if Enabled(w, s, e) {
      var t := Do(w, s, e);
      if e.ServerHandles? {
        KnownHandles(w, s, e.found, n);
      } else if e.ClientReceives? {
        KnownReceives(w, s, n);
      } else if e.OthersAct? {
        assert InFlight(w, t) == InFlight(w, s);
      } else if e.Registers? && e.name !in s.forward {
        assert InFlight(w, t) == InFlight(w, s);
      } else {
        KnownSends(w, s, t, t.outbox[|s.outbox|], n);
      }
    }
  }

  /** Without hasty registrations, every own name the server routes here is one the
      client can serve. */
  lemma {:induction false} RoutedIsKnown(w: Setting, start: State, run: seq<Event>, n: string)
    requires Fresh(w, start) && Proper(w, run) && n in w.own && After(w, start, run).connected
    requires forall j: nat :: !HastyAt(w, start, run, j, n)
    ensures Known(w, After(w, start, run), n)
  {
    if run == [] {
      assert InFlight(w, start) == [];
    } else {
      var before, last := run[..|run| - 1], run[|run| - 1];
      var s := After(w, start, before);
      EverySound(w, start, before);
      StaysClosed(w, s, last);
      forall j: nat ensures !HastyAt(w, start, before, j, n) {
        assert j < |before| ==> run[..j] == before[..j];
        assert !HastyAt(w, start, run, j, n);
      }
      RoutedIsKnown(w, start, before, n);
      DrainedViewsAgree(w, start, before, n);
      assert !HastyAt(w, start, run, |before|, n);
      KnownStep(w, s, last, n);
    }
  }

  // ------------------------------------------------ a hasty registration is fatal

  /** The server handles all it was sent, then the client reads all replies. */
  function ServerSettles(w: Setting, s: State, f: Registry.Found): (t: State)
    requires s.connected
    ensures t.connected && t.outbox == []
    decreases |s.outbox|
  {
    if s.outbox == [] then s else ServerSettles(w, Do(w, s, ServerHandles(f)), f)
  }

  function ClientSettles(w: Setting, s: State): (t: State)
    requires s.connected
    ensures t.outbox == s.outbox && InFlight(w, t) == []
    decreases |InFlight(w, s)|
  {
    if InFlight(w, s) == [] then s else ClientSettles(w, Do(w, s, ClientReceives))
  }

  lemma {:induction false} ServerSettlesLast(w: Setting, s: State, f: Registry.Found, n: string)
    requires Sound(w, s) && s.connected && n in w.own && (n in s.tables.route ==> s.tables.route[n] == w.ch)
    requires if s.outbox == [] then n in s.tables.route else Concerns(s.outbox[|s.outbox| - 1], REGISTER, n)
    ensures var t := ServerSettles(w, s, f);
      && Sound(w, t) && t.connected && t.outbox == [] && n in t.tables.route && t.forward == s.forward
      && (Outstanding(w, s, n) ==> Holds(InFlight(w, t), CANCEL_REGISTER, n))
    decreases |s.outbox|
  {
    if s.outbox != [] {
      var m, u := s.outbox[0], Do(w, s, ServerHandles(f));
      assert SoundMessage(w, m);
      SoundStep(w, s, ServerHandles(f));
      HandleOwn(w, s.tables, m, f, n);
      FlightAfterHandling(w, s, f, n);
      HoldsFirst(s.outbox, CANCEL_REGISTER, n);
      ServerSettlesLast(w, u, f, n);
    }
  }

  lemma {:induction false} ClientSettlesForgets(w: Setting, s: State, n: string)
    requires Sound(w, s) && s.connected && (Holds(InFlight(w, s), CANCEL_REGISTER, n) || n !in s.forward)
    ensures var t := ClientSettles(w, s); t.tables == s.tables && t.connected && InFlight(w, t) == [] && n !in t.forward
    decreases |InFlight(w, s)|
  {
    if InFlight(w, s) != [] {
      var q, u := InFlight(w, s), Do(w, s, ClientReceives);
      assert InFlight(w, u) == q[1..];
      HoldsFirst(q, CANCEL_REGISTER, n);
      SoundStep(w, s, ClientReceives);
      ClientSettlesForgets(w, u, n);
    }
  }

  lemma {:induction false} HastySettles(w: Setting, s: State, e: Event, n: string, f: Registry.Found)
    requires Sound(w, s) && n in w.own && Agrees(w, s, n) && IsHasty(w, s, e, n) && Sound(w, Do(w, s, e))
    ensures var t := ClientSettles(w, ServerSettles(w, Do(w, s, e), f)); n in t.tables.route && n !in t.forward
  {
    var t := Do(w, s, e);
    HoldsAppends(s.outbox, t.outbox[|s.outbox|], CANCEL_REGISTER, n);
    assert InFlight(w, t) == InFlight(w, s);
    ServerSettlesLast(w, t, f, n);
    ClientSettlesForgets(w, ServerSettles(w, t, f), n);
  }

  /** After a hasty registration, once everything sent has been handled and every reply
      has been read, the server routes the name to a client that no longer knows it: the
      condition of `RoutedIsKnown` cannot be relaxed. */
  lemma {:induction false} HastyIsFatal(w: Setting, start: State, run: seq<Event>, n: string, f: Registry.Found)
    requires Fresh(w, start) && Proper(w, run) && n in w.own && run != [] && HastyAt(w, start, run, |run| - 1, n)
    ensures var s := After(w, start, run);
      s.connected && (var t := ClientSettles(w, ServerSettles(w, s, f));
        t.outbox == [] && InFlight(w, t) == [] && n in t.tables.route && n !in t.forward)
  {
    var before := run[..|run| - 1];
    EverySound(w, start, before);
    EverySound(w, start, run);
    DrainedViewsAgree(w, start, before, n);
    HastySettles(w, After(w, start, before), run[|run| - 1], n, f);
  }

  lemma {:induction false} AfterAppends(w: Setting, start: State, run: seq<Event>, e: Event)
    ensures After(w, start, run + [e]) == Step(w, After(w, start, run), e)
  {
    assert (run + [e])[..|run|] == run;
  }

  lemma {:induction false} FirstAdd(w: Setting, s: State, id: nat, reg: Register)
    requires s.connected && s.outbox == [] && reg.name !in s.forward
    ensures var m, c := RegisterMessage(id, reg), CancelMessage(id, reg.name);
      var t := Step(w, Step(w, Step(w, s, AddsMapping(id, reg)), Cancels(id, reg.name)), Cancels(id, reg.name));
      && t.outbox == [m, c, c] && t.tables == s.tables && t.received == s.received && t.connected
      && t.forward == s.forward[reg.name := reg]
  {
    var a := Step(w, s, AddsMapping(id, reg));
    assert a.outbox == [RegisterMessage(id, reg)];
    var b := Step(w, a, Cancels(id, reg.name));
    assert b.outbox == [RegisterMessage(id, reg), CancelMessage(id, reg.name)];
  }

  lemma {:induction false} RegisterHandled(w: Setting, s: State, id: nat, reg: Register, f: Registry.Found)
    requires s.connected && s.outbox != [] && s.outbox[0] == RegisterMessage(id, reg) && !reg.newServerPort
    ensures var q, t := At(s.tables.replies, w.ch), Step(w, s, ServerHandles(f));
      && t.outbox == s.outbox[1..] && t.forward == s.forward && t.connected && t.received == s.received
      && exists r :: At(t.tables.replies, w.ch) == q + [r] && r.command == REGISTER
  {
    var t := Step(w, s, ServerHandles(f));
    assert t.tables == RegistryAtomic.RegisterDefaultPort(w.config, s.tables, w.ch, id, reg, f);
    var r := if reg.name in s.tables.route then Registry.RegisterReply(id, reg, 0)
      else Registry.RegisterReply(id, reg.(newPort := w.config.httpPort), 1);
    assert At(t.tables.replies, w.ch) == At(s.tables.replies, w.ch) + [r];
  }

  lemma {:induction false} CancelHandled(w: Setting, s: State, id: nat, name: string, f: Registry.Found)
    requires s.connected && s.outbox != [] && s.outbox[0] == CancelMessage(id, name)
    ensures var q, t := At(s.tables.replies, w.ch), Step(w, s, ServerHandles(f));
      && t.outbox == s.outbox[1..] && t.forward == s.forward && t.connected && t.received == s.received
      && exists r :: At(t.tables.replies, w.ch) == q + [r] && Concerns(r, CANCEL_REGISTER, name)
  {
    var t, reg := Step(w, s, ServerHandles(f)), CancelMessage(id, name).register.value;
    assert t.tables == RegistryAtomic.CancelRegister(s.tables, w.ch, id, reg);
    assert At(t.tables.replies, w.ch) == At(s.tables.replies, w.ch) + [Registry.Echo(id, reg)];
  }

  /** The server handles the registration and the first cancel. */
  lemma {:induction false} TwoHandled(w: Setting, s: State, id: nat, reg: Register, f: Registry.Found)
    requires s.connected && s.received == |At(s.tables.replies, w.ch)| && !reg.newServerPort
    requires s.outbox == [RegisterMessage(id, reg), CancelMessage(id, reg.name), CancelMessage(id, reg.name)]
    ensures var t := Step(w, Step(w, s, ServerHandles(f)), ServerHandles(f));
      && t.outbox == [CancelMessage(id, reg.name)] && t.forward == s.forward && t.connected
      && t.received == s.received && |At(t.tables.replies, w.ch)| == s.received + 2
      && At(t.tables.replies, w.ch)[s.received].command == REGISTER
      && Concerns(At(t.tables.replies, w.ch)[s.received + 1], CANCEL_REGISTER, reg.name)
  {
    RegisterHandled(w, s, id, reg, f);
    CancelHandled(w, Step(w, s, ServerHandles(f)), id, reg.name, f);
  }

  /** The client reads both replies. */
  lemma {:induction false} TwoRead(w: Setting, s: State, name: string)
    requires s.connected && |At(s.tables.replies, w.ch)| == s.received + 2
    requires At(s.tables.replies, w.ch)[s.received].command == REGISTER
    requires Concerns(At(s.tables.replies, w.ch)[s.received + 1], CANCEL_REGISTER, name)
    ensures var t := Step(w, Step(w, s, ClientReceives), ClientReceives);
      t.outbox == s.outbox && t.connected && name !in t.forward
  {
    var q := At(s.tables.replies, w.ch);
    assert InFlight(w, s)[0] == q[s.received];
    var u := Step(w, s, ClientReceives);
    assert InFlight(w, u)[0] == q[s.received + 1];
  }

  /** Add, cancel twice, both handled and read but for the second cancel, and add again. */
  function AddedTooSoon(id: nat, reg: Register, f: Registry.Found): seq<Event> {
    [AddsMapping(id, reg), Cancels(id, reg.name), Cancels(id, reg.name), ServerHandles(f), ServerHandles(f),
     ClientReceives, ClientReceives, AddsMapping(id, reg)]
  }

  lemma {:induction false} AfterSeven(w: Setting, start: State, run: seq<Event>)
    requires |run| >= 7
    ensures var s3 := Step(w, Step(w, Step(w, start, run[0]), run[1]), run[2]);
      After(w, start, run[..7]) == Step(w, Step(w, Step(w, Step(w, s3, run[3]), run[4]), run[5]), run[6])
  {
    var s0, s1, s2 := After(w, start, run[..0]), After(w, start, run[..1]), After(w, start, run[..2]);
    assert run[..0] == [] && run[..0] + [run[0]] == run[..1] && run[..1] + [run[1]] == run[..2];
    assert run[..2] + [run[2]] == run[..3] && run[..3] + [run[3]] == run[..4] && run[..4] + [run[4]] == run[..5];
    assert run[..5] + [run[5]] == run[..6] && run[..6] + [run[6]] == run[..7];
    AfterAppends(w, start, run[..0], run[0]);
    AfterAppends(w, start, run[..1], run[1]);
    AfterAppends(w, start, run[..2], run[2]);
    AfterAppends(w, start, run[..3], run[3]);
    AfterAppends(w, start, run[..4], run[4]);
    AfterAppends(w, start, run[..5], run[5]);
    AfterAppends(w, start, run[..6], run[6]);
  }

  /** One cancel is left on its way, and the name is forgotten. */
  ghost predicate CancelLeft(s: State, id: nat, name: string) {
    s.connected && s.outbox == [CancelMessage(id, name)] && name !in s.forward
  }

  lemma {:induction false} SevenSteps(w: Setting, start: State, id: nat, reg: Register, f: Registry.Found,
    run: seq<Event>)
    requires run == AddedTooSoon(id, reg, f)
    requires start.connected && start.outbox == [] && start.received == |At(start.tables.replies, w.ch)|
    requires !reg.newServerPort && reg.name !in start.forward
    ensures CancelLeft(After(w, start, run[..7]), id, reg.name)
  {
    AfterSeven(w, start, run);
    FirstAdd(w, start, id, reg);
    var s3 := Step(w, Step(w, Step(w, start, run[0]), run[1]), run[2]);
    TwoHandled(w, s3, id, reg, f);
    TwoRead(w, Step(w, Step(w, s3, run[3]), run[4]), reg.name);
  }

  lemma TooSoon(w: Setting, s: State, id: nat, reg: Register)
    requires CancelLeft(s, id, reg.name)
    ensures IsHasty(w, s, AddsMapping(id, reg), reg.name)
  {
    assert Concerns(s.outbox[0], CANCEL_REGISTER, reg.name);
  }

  /** Such runs exist, from any fresh start and for any own name, and they need no retry:
      the last event adds the service again while its second cancel is on its way. */
  lemma {:induction false} HastyHappens(w: Setting, start: State, id: nat, reg: Register, f: Registry.Found)
    requires Fresh(w, start) && reg.name in w.own && !reg.newServerPort && reg.name !in start.forward
    ensures var run := AddedTooSoon(id, reg, f); Proper(w, run) && HastyAt(w, start, run, |run| - 1, reg.name)
  {
    var run := AddedTooSoon(id, reg, f);
    SevenSteps(w, start, id, reg, f, run);
    TooSoon(w, After(w, start, run[..7]), id, reg);
  }
}
