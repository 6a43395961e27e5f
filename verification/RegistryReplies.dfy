/** What the server answers: every reply belongs to one message of its channel and carries
    that message's id, which is what a waiting client relies on. */
module RegistryReplies {
  import opened Basics
  import opened Messages
  import opened Registry
  import opened RegistryAtomic
  import opened RegistrySafety

  // ------------------------------------------------ any interleaving

  /** The reply answers the message: the gate's answer to a token or to anything else, or
      the answer of the registration's handler, with the id, the command and the register
      data of the message, and the HTTP port in it when the default port was given. */
  ghost predicate AnswersTo(c: Config, m: SysMessage, r: SysMessage) {
    if r.command == AUTH then
      if m.command == AUTH then m.token == c.token && r == SysMessage(0, AUTH, "", 1, None)
      else r == SysMessage(0, AUTH, "", 0, None)
    else
      && m.register.Some? && r.id == m.id && r.command == m.command && r.token == ""
      && (m.command == REGISTER || m.command == CANCEL_REGISTER)
      && (if m.command == REGISTER && !m.register.value.newServerPort && r.state == 1
          then r.register == Some(m.register.value.(newPort := c.httpPort)) else r.register == m.register)
      && r.state in (if m.command == CANCEL_REGISTER then {0} else if m.register.value.newServerPort then {1, 2}
        else {0, 1})
  }

  /** The replies answer messages out of a list, in its order and each at most once. */
  ghost predicate Answered(c: Config, q: seq<SysMessage>, asked: seq<SysMessage>)
    decreases |asked|
  {
    if asked == [] then q == []
    else
      var before := asked[..|asked| - 1];
      || Answered(c, q, before)
      || (q != [] && AnswersTo(c, asked[|asked| - 1], q[|q| - 1]) && Answered(c, q[..|q| - 1], before))
  }

  lemma {:induction false} AsksMore(c: Config, q: seq<SysMessage>, asked: seq<SysMessage>, m: SysMessage)
    requires Answered(c, q, asked)
    ensures Answered(c, q, asked + [m])
    ensures forall r :: AnswersTo(c, m, r) ==> Answered(c, q + [r], asked + [m])
  {
    assert (asked + [m])[..|asked|] == asked;
    forall r | AnswersTo(c, m, r) ensures Answered(c, q + [r], asked + [m]) {
      assert (q + [r])[..|q|] == q;
    }
  }

  /** The messages read from a channel so far. */
  ghost function Asked(c: Config, run: seq<Event>, ch: Channel): seq<SysMessage> {
    if run == [] then []
    else Asked(c, run[..|run| - 1], ch) + Reads(After(c, run[..|run| - 1]), run[|run| - 1], ch)
  }

  function Reads(s: State, e: Event, ch: Channel): seq<SysMessage> {
    if Enabled(s, e) && e.Receives? && e.ch == ch then [e.m] else []
  }

  predicate Resting(h: Handler) {
    h.Idle? || Dropping(h)
  }

  /** The handler runs for this message. */
  predicate RunsFor(h: Handler, m: SysMessage)
    requires !Resting(h)
  {
    && m.register == Some(h.reg) && m.id == h.id
    && m.command == (if h.CancelGet? || h.CancelRoute? || h.CancelKey? || h.CancelStop? then CANCEL_REGISTER
      else REGISTER)
    && (m.command == REGISTER ==> (h.reg.newServerPort <==> !h.RouteGet? && !h.RoutePut? && !h.NameAdd?))
  }

  /** The last message is being handled, or everything has been. */
  ghost predicate UpToDate(c: Config, handlers: Handlers, replies: map<Channel, seq<SysMessage>>, ch: Channel,
    asked: seq<SysMessage>)
  {
    if ch !in handlers then At(replies, ch) == [] && asked == []
    else if Resting(handlers[ch]) then Answered(c, At(replies, ch), asked)
    else
      && asked != [] && RunsFor(handlers[ch], asked[|asked| - 1])
      && Answered(c, At(replies, ch), asked[..|asked| - 1])
  }

  /** What one operation answers, answers the message it is run for. */
  lemma OperationAnswers(c: Config, t: Tables, ch: Channel, h: Handler, f: Found, m: SysMessage)
    requires !Resting(h) && RunsFor(h, m)
    ensures var h', r := Next(t, ch, h, f), Answer(c, t, ch, h, f);
      && !Dropping(h')
      && (r.Some? ==> h'.Idle? && AnswersTo(c, m, r.value))
      && (!h'.Idle? ==> RunsFor(h', m))
  {
  }

  lemma OperateReplies(c: Config, s: State, ch: Channel, f: Found)
    requires Enabled(s, Advances(ch, f))
    ensures var h, t := s.handler[ch], Step(c, s, Advances(ch, f));
      && t.handler == s.handler[ch := Next(s.tables, ch, h, f)]
      && t.tables.replies == Sent(s.tables.replies, ch, Answer(c, s.tables, ch, h, f))
  {
  }

  lemma DroppingIsSilent(c: Config, t: Tables, ch: Channel, h: Handler, f: Found)
    requires Dropping(h)
    ensures Dropping(Next(t, ch, h, f)) && Answer(c, t, ch, h, f) == None
  {
  }

  lemma AdvancesOwn(c: Config, s: State, ch: Channel, f: Found, asked: seq<SysMessage>)
    requires Enabled(s, Advances(ch, f)) && UpToDate(c, s.handler, s.tables.replies, ch, asked)
    ensures var t := Step(c, s, Advances(ch, f)); UpToDate(c, t.handler, t.tables.replies, ch, asked)
  {
    var h := s.handler[ch];
    OperateReplies(c, s, ch, f);
    if Dropping(h) {
      DroppingIsSilent(c, s.tables, ch, h, f);
    } else {
      var before, m := asked[..|asked| - 1], asked[|asked| - 1];
      assert asked == before + [m];
      OperationAnswers(c, s.tables, ch, h, f, m);
      AsksMore(c, At(s.tables.replies, ch), before, m);
    }
  }

  lemma ReceivesOwn(c: Config, s: State, ch: Channel, m: SysMessage, asked: seq<SysMessage>)
    requires Enabled(s, Receives(ch, m)) && UpToDate(c, s.handler, s.tables.replies, ch, asked)
    ensures var t := Step(c, s, Receives(ch, m)); UpToDate(c, t.handler, t.tables.replies, ch, asked + [m])
  {
    AsksMore(c, At(s.tables.replies, ch), asked, m);
    assert Step(c, s, Receives(ch, m)) == OnReceives(c, s, ch, m);
    assert (asked + [m])[..|asked|] == asked;
  }

  lemma OtherReplies(c: Config, s: State, e: Event, ch: Channel)
    requires e.ch != ch
    ensures var t := Step(c, s, e);
      && At(t.tables.replies, ch) == At(s.tables.replies, ch)
      && (ch in t.handler <==> ch in s.handler) && (ch in s.handler ==> t.handler[ch] == s.handler[ch])
  {
    if Enabled(s, e) && e.Receives? {
      assert Step(c, s, e) == OnReceives(c, s, e.ch, e.m);
    } else if Enabled(s, e) && e.Advances? {
      OperateReplies(c, s, e.ch, e.found);
    }
  }

  lemma UpToDateStep(c: Config, s: State, e: Event, ch: Channel, asked: seq<SysMessage>)
    requires UpToDate(c, s.handler, s.tables.replies, ch, asked)
    ensures var t := Step(c, s, e); UpToDate(c, t.handler, t.tables.replies, ch, asked + Reads(s, e, ch))
  {
    assert asked + [] == asked;
    if e.ch != ch {
      OtherReplies(c, s, e, ch);
    } else if Enabled(s, e) && e.Advances? {
      AdvancesOwn(c, s, ch, e.found, asked);
    } else if Enabled(s, e) && e.Receives? {
      ReceivesOwn(c, s, ch, e.m, asked);
    }
  }

  lemma {:induction false} UpToDateRun(c: Config, run: seq<Event>, ch: Channel)
    ensures UpToDate(c, After(c, run).handler, After(c, run).tables.replies, ch, Asked(c, run, ch))
  {
    if run != [] {
      UpToDateRun(c, run[..|run| - 1], ch);
      UpToDateStep(c, After(c, run[..|run| - 1]), run[|run| - 1], ch, Asked(c, run[..|run| - 1], ch));
    }
  }

  /** In every interleaving: the replies to a channel answer messages that were read from
      it, in the order in which these were read and each at most once. */
  lemma {:induction false} RepliesAnswer(c: Config, run: seq<Event>, ch: Channel)
    ensures Answered(c, At(After(c, run).tables.replies, ch), Asked(c, run, ch))
  {
    UpToDateRun(c, run, ch);
    var h, asked := After(c, run).handler, Asked(c, run, ch);
    if ch in h && !Resting(h[ch]) {
      assert asked == asked[..|asked| - 1] + [asked[|asked| - 1]];
      AsksMore(c, At(After(c, run).tables.replies, ch), asked[..|asked| - 1], asked[|asked| - 1]);
    }
  }

  // ------------------------------------------------ what each message brings about

  /** The gate: a message of a channel that has passed goes on; otherwise the token passes
      and is answered, any other token is ignored, and anything else is refused. */
  lemma GateMeans(c: Config, s: State, ch: Channel, m: SysMessage)
    requires Enabled(s, Receives(ch, m))
    ensures var t := Step(c, s, Receives(ch, m));
      && t.tables == s.tables.(replies := t.tables.replies)
      && At(t.tables.replies, ch) == At(s.tables.replies, ch)
           + (if ch in s.authed then []
              else if m.command != AUTH then [SysMessage(0, AUTH, "", 0, None)]
              else if m.token == c.token then [SysMessage(0, AUTH, "", 1, None)] else [])
      && t.authed == (if m.command == AUTH && m.token == c.token then s.authed + {ch} else s.authed)
      && (ch !in s.authed || m.register.None? || (m.command != REGISTER && m.command != CANCEL_REGISTER) ==>
            t.handler == s.handler)
  {
    var t := Step(c, s, Receives(ch, m));
    assert t == OnReceives(c, s, ch, m);
    if ch in s.authed {
      assert s.authed + {ch} == s.authed;
    }
    assert s.handler[ch := Idle] == s.handler;
  }

  /** A handler that is not interrupted comes to its end with these tables. */
  ghost predicate EndsWith(c: Config, t: Tables, ch: Channel, h: Handler, f: Found, u: Tables) {
    exists n: nat :: Alone(c, t, ch, h, f, n) == (u, Idle)
  }

  /** Which handler runs for a message with data that passed the gate, and to what end. */
  lemma MessageAlone(c: Config, t: Tables, ch: Channel, id: nat, reg: Register, token: string, state: int, f: Found)
    ensures EndsWith(c, t, ch, Dispatch(SysMessage(id, REGISTER, token, state, Some(reg))), f,
      if reg.newServerPort then RegisterNewPort(t, ch, id, reg, f) else RegisterDefaultPort(c, t, ch, id, reg, f))
    ensures EndsWith(c, t, ch, Dispatch(SysMessage(id, CANCEL_REGISTER, token, state, Some(reg))), f,
      CancelRegister(t, ch, id, reg))
  {
    AloneCancel(c, t, ch, id, reg, f);
    if reg.newServerPort {
      AloneNewPort(c, t, ch, id, reg, f);
    } else {
      AloneDefaultPort(c, t, ch, id, reg, f);
    }
  }

  /** On the default port: a free name is routed and listed; for a taken one its holder is
      closed exactly if it is inactive or not writable. */
  lemma DefaultPortMeans(c: Config, t: Tables, ch: Channel, id: nat, reg: Register, f: Found)
    ensures var u, taken := RegisterDefaultPort(c, t, ch, id, reg, f), reg.name in t.route;
      && At(u.replies, ch) == At(t.replies, ch) + [if taken then SysMessage(id, REGISTER, "", 0, Some(reg))
                                                   else SysMessage(id, REGISTER, "", 1,
                                                     Some(reg.(newPort := c.httpPort)))]
      && u.route == (if taken then t.route else t.route[reg.name := ch])
      && At(u.names, ch) == At(t.names, ch) + (if taken then [] else [reg.name])
      && u.closing == (if taken && (!f.active || !f.writable) then t.closing + {t.route[reg.name]} else t.closing)
      && u.dynamicBoot == t.dynamicBoot && u.boots == t.boots && u.bootsOf == t.bootsOf
      && forall d :: d != ch ==> At(u.replies, d) == At(t.replies, d) && At(u.names, d) == At(t.names, d)
  {
  }

  /** The boot of a port that is taken: it leaves the index, stops listening and its owner is
      closed exactly if the owner is inactive or writable. */
  lemma TakenPortMeans(t: Tables, ch: Channel, id: nat, reg: Register, f: Found)
    requires reg.newPort in t.dynamicBoot && t.dynamicBoot[reg.newPort] in t.boots
    requires t.boots[t.dynamicBoot[reg.newPort]].port == reg.newPort
    ensures var u, b := RegisterNewPort(t, ch, id, reg, f), t.dynamicBoot[reg.newPort];
      && At(u.replies, ch) == At(t.replies, ch) + [SysMessage(id, REGISTER, "", 2, Some(reg))]
      && (if !f.active || f.writable then
            && u.dynamicBoot == t.dynamicBoot - {reg.newPort} && u.closing == t.closing + {t.boots[b].owner}
            && b in u.boots && !u.boots[b].listening
            && forall d :: d in t.boots && d != b ==> d in u.boots && u.boots[d] == t.boots[d]
          else u.dynamicBoot == t.dynamicBoot && u.closing == t.closing && u.boots == t.boots)
      && u.route == t.route && u.bootsOf == t.bootsOf && u.boots.Keys == t.boots.Keys
  {
  }

  /** A port that is not in the index: if nothing listens on it and it can be bound, a new
      boot listens there, is indexed and listed, and the answer is 1; otherwise nothing
      changes and nothing is answered. */
  lemma FreePortMeans(t: Tables, ch: Channel, id: nat, reg: Register, f: Found)
    requires reg.newPort !in t.dynamicBoot && f.newBoot !in t.boots
    ensures var u, b := RegisterNewPort(t, ch, id, reg, f), f.newBoot;
      if f.bindable && (forall d :: d in t.boots && t.boots[d].port == reg.newPort ==> !t.boots[d].listening) then
        && At(u.replies, ch) == At(t.replies, ch) + [SysMessage(id, REGISTER, "", 1, Some(reg))]
        && u.dynamicBoot == t.dynamicBoot[reg.newPort := b] && At(u.bootsOf, ch) == At(t.bootsOf, ch) + [b]
        && u.boots == t.boots[b := Boot(reg.newPort, reg.name, ch, reg.protocol, true)]
        && u.route == t.route && u.closing == t.closing
      else u == t
  {
  }

  /** A cancel is answered with what it asked, whatever it found. */
  lemma CancelAnswers(t: Tables, ch: Channel, id: nat, reg: Register)
    ensures var u := CancelRegister(t, ch, id, reg);
      && At(u.replies, ch) == At(t.replies, ch) + [SysMessage(id, CANCEL_REGISTER, "", 0, Some(reg))]
      && u.names == t.names && u.bootsOf == t.bootsOf && u.closing == t.closing
      && forall d :: d != ch ==> At(u.replies, d) == At(t.replies, d)
  {
  }
}
