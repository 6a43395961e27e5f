/** What every interleaving of single table operations keeps: no route and no listener
    outlives its client, and the listener index is sound. */
module RegistrySafety {
  import opened Basics
  import opened Messages
  import opened Registry

  type Handlers = map<Channel, Handler>

  // ------------------------------------------------ routes

  /** The channel a route points to will still drop it when it disconnects: the name is
      in its list at a place the drop loop has not passed, or about to be added. */
  ghost predicate NameHeld(q: seq<string>, h: Handler, n: string) {
    match h
    case Gone => false
    case DropKey(_) => false
    case DropStop(_) => false
    case DropName(k) => exists j :: k <= j < |q| && q[j] == n
    case NameAdd(_, reg) => n in q || reg.name == n
    case _ => n in q
  }

  ghost predicate Routed(route: map<string, Channel>, names: map<Channel, seq<string>>, handlers: Handlers) {
    forall n :: n in route ==> route[n] in handlers && NameHeld(At(names, route[n]), handlers[route[n]], n)
  }

  /** A channel's own step: its route entries stay accounted for. */
  lemma RoutedOperates(t: Tables, ch: Channel, f: Found, handlers: Handlers)
    requires Routed(t.route, t.names, handlers) && ch in handlers
    ensures var h := handlers[ch];
      Routed(RouteAfter(t, ch, h), NamesAfter(t, ch, h), handlers[ch := Next(t, ch, h, f)])
  {
    var h := handlers[ch];
    var route', h' := RouteAfter(t, ch, h), Next(t, ch, h, f);
    forall n | n in route'
      ensures route'[n] in handlers && NameHeld(At(NamesAfter(t, ch, h), route'[n]), handlers[ch := h'][route'[n]], n) {
      if h.RoutePut? && n == h.reg.name {
      } else {
        assert n in t.route && t.route[n] == route'[n];
        assert NameHeld(At(t.names, t.route[n]), handlers[t.route[n]], n);
        if h.DropName? && t.route[n] == ch {
          var j :| h.k <= j < |At(t.names, ch)| && At(t.names, ch)[j] == n;
        }
      }
    }
  }

  // ------------------------------------------------ boots

  type Boots = map<BootId, Boot>
  type Lists = map<Channel, seq<BootId>>
  type Index = map<int, BootId>

  /** A boot whose creator has not published it yet. */
  predicate IsNew(boots: Boots, handlers: Handlers, b: BootId)
    requires b in boots
  {
    boots[b].owner in handlers && handlers[boots[b].owner].BootPut? && handlers[boots[b].owner].b == b
  }

  ghost predicate Known(boots: Boots, handlers: Handlers, b: BootId) {
    b in boots && !IsNew(boots, handlers, b)
  }

  /** The owner of a listening boot will still stop it when it disconnects. */
  ghost predicate BootHeld(q: seq<BootId>, h: Handler, b: BootId) {
    match h
    case Gone => false
    case DropKey(k) => exists j :: k <= j < |q| && q[j] == b
    case DropStop(k) => exists j :: k <= j < |q| && q[j] == b
    case BootPut(_, _, d) => b in q || b == d
    case BootAdd(_, _, d) => b in q || b == d
    case _ => b in q
  }

  ghost predicate Held(boots: Boots, lists: Lists, handlers: Handlers) {
    forall b {:trigger boots[b]} :: b in boots && boots[b].listening ==>
      boots[b].owner in handlers && BootHeld(At(lists, boots[b].owner), handlers[boots[b].owner], b)
  }

  /** Every entry of the index is a published boot that listens on the port it is filed
      under. */
  ghost predicate Indexed(index: Index, boots: Boots, handlers: Handlers) {
    forall p {:trigger index[p]} :: p in index ==>
      Known(boots, handlers, index[p]) && boots[index[p]].port == p && boots[index[p]].listening
  }

  ghost predicate Listed(lists: Lists, boots: Boots, handlers: Handlers) {
    forall c: nat, k {:trigger At(lists, c)[k]} :: 0 <= k < |At(lists, c)| ==>
      Known(boots, handlers, At(lists, c)[k]) && boots[At(lists, c)[k]].owner == c
  }

  ghost predicate NotIndexed(index: Index, b: BootId) {
    forall p {:trigger index[p]} :: p in index ==> index[p] != b
  }

  /** What a handler in the middle of its work relies on. */
  ghost predicate Sound(index: Index, boots: Boots, lists: Lists, handlers: Handlers, ch: Channel, h: Handler) {
    match h
    case BootPut(_, reg, b) => b in boots && boots[b].owner == ch && boots[b].listening && boots[b].port == reg.newPort
    case BootAdd(_, _, b) => Known(boots, handlers, b) && boots[b].owner == ch
    case EvictKey(_, _, b) => Known(boots, handlers, b)
    case CancelKey(_, _, b) => Known(boots, handlers, b)
    case EvictStop(_, _, b) => Known(boots, handlers, b) && NotIndexed(index, b)
    case CancelStop(_, _, b) => Known(boots, handlers, b) && NotIndexed(index, b)
    case DropStop(k) => k < |At(lists, ch)| && NotIndexed(index, At(lists, ch)[k])
    case _ => true
  }

  ghost predicate AllSound(index: Index, boots: Boots, lists: Lists, handlers: Handlers) {
    forall ch {:trigger handlers[ch]} :: ch in handlers ==> Sound(index, boots, lists, handlers, ch, handlers[ch])
  }

  /** No two listening boots share a port. */
  ghost predicate OnePerPort(boots: Boots) {
    forall b, d :: b in boots && d in boots && boots[b].listening && boots[d].listening && b != d ==>
      boots[b].port != boots[d].port
  }

  ghost predicate BootsOk(index: Index, boots: Boots, lists: Lists, handlers: Handlers) {
    && Held(boots, lists, handlers)
    && Indexed(index, boots, handlers)
    && Listed(lists, boots, handlers)
    && AllSound(index, boots, lists, handlers)
    && OnePerPort(boots)
  }

  // The operations that touch boots, one lemma each; every other operation only moves
  // the handler.

  /** A handler that holds no boot and is not dropping its own. */
  predicate Plain(h: Handler) {
    h.Idle? || h.RouteGet? || h.RoutePut? || h.NameAdd? || h.BootGet? || h.BootStart? || h.CancelGet? || h.CancelRoute?
      || h.DropName?
  }

  lemma BootsMove(index: Index, boots: Boots, lists: Lists, handlers: Handlers, ch: Channel, h: Handler)
    requires BootsOk(index, boots, lists, handlers) && (ch in handlers ==> Plain(handlers[ch])) && Plain(h)
    ensures BootsOk(index, boots, lists, handlers[ch := h])
  {
    KnownMoves(boots, handlers, ch, h);
    HeldMoves(boots, lists, handlers, ch, h);
  }

  lemma KnownMoves(boots: Boots, handlers: Handlers, ch: Channel, h: Handler)
    requires (ch in handlers ==> Plain(handlers[ch])) && Plain(h)
    ensures forall b {:trigger Known(boots, handlers, b)} {:trigger Known(boots, handlers[ch := h], b)} ::
      Known(boots, handlers[ch := h], b) <==> Known(boots, handlers, b)
  {
  }

  lemma HeldMoves(boots: Boots, lists: Lists, handlers: Handlers, ch: Channel, h: Handler)
    requires Held(boots, lists, handlers) && (ch in handlers ==> Plain(handlers[ch])) && Plain(h)
    ensures Held(boots, lists, handlers[ch := h])
  {
  }

  lemma BootsChoose(index: Index, boots: Boots, lists: Lists, handlers: Handlers, ch: Channel, h: Handler)
    requires BootsOk(index, boots, lists, handlers) && ch in handlers && Plain(handlers[ch])
    requires (h.EvictKey? || h.CancelKey?) && Known(boots, handlers, h.b)
    ensures BootsOk(index, boots, lists, handlers[ch := h])
  {
  }

  lemma BootsBeginDrop(index: Index, boots: Boots, lists: Lists, handlers: Handlers, ch: Channel)
    requires BootsOk(index, boots, lists, handlers) && ch in handlers && Plain(handlers[ch])
    ensures BootsOk(index, boots, lists, handlers[ch := DropKey(0)])
  {
  }

  lemma BootsUnkey(index: Index, boots: Boots, lists: Lists, handlers: Handlers, ch: Channel, h: Handler)
    requires BootsOk(index, boots, lists, handlers) && ch in handlers
      && (handlers[ch].EvictKey? || handlers[ch].CancelKey?)
    requires h == if handlers[ch].EvictKey? then EvictStop(handlers[ch].id, handlers[ch].reg, handlers[ch].b)
                  else CancelStop(handlers[ch].id, handlers[ch].reg, handlers[ch].b)
    ensures BootsOk(index - {boots[handlers[ch].b].port}, boots, lists, handlers[ch := h])
  {
  }

  lemma BootsStop(index: Index, boots: Boots, lists: Lists, handlers: Handlers, ch: Channel)
    requires BootsOk(index, boots, lists, handlers) && ch in handlers
      && (handlers[ch].EvictStop? || handlers[ch].CancelStop?)
    ensures BootsOk(index, Stopped(boots, handlers[ch].b), lists, handlers[ch := Idle])
  {
    KnownStops(boots, handlers, ch);
    HeldStops(boots, lists, handlers, ch);
  }

  lemma KnownStops(boots: Boots, handlers: Handlers, ch: Channel)
    requires ch in handlers && (handlers[ch].EvictStop? || handlers[ch].CancelStop?)
    ensures forall b {:trigger Known(boots, handlers, b)}
      {:trigger Known(Stopped(boots, handlers[ch].b), handlers[ch := Idle], b)} ::
        Known(Stopped(boots, handlers[ch].b), handlers[ch := Idle], b) <==> Known(boots, handlers, b)
  {
  }

  lemma HeldStops(boots: Boots, lists: Lists, handlers: Handlers, ch: Channel)
    requires Held(boots, lists, handlers) && ch in handlers && (handlers[ch].EvictStop? || handlers[ch].CancelStop?)
    ensures Held(Stopped(boots, handlers[ch].b), lists, handlers[ch := Idle])
  {
  }

  lemma BootsDropKey(index: Index, boots: Boots, lists: Lists, handlers: Handlers, ch: Channel, k: nat)
    requires BootsOk(index, boots, lists, handlers) && ch in handlers && handlers[ch] == DropKey(k)
      && k < |At(lists, ch)|
    ensures BootsOk(index - {boots[At(lists, ch)[k]].port}, boots, lists, handlers[ch := DropStop(k)])
  {
  }

  lemma BootsDropStop(index: Index, boots: Boots, lists: Lists, handlers: Handlers, ch: Channel, k: nat)
    requires BootsOk(index, boots, lists, handlers) && ch in handlers && handlers[ch] == DropStop(k)
    ensures k < |At(lists, ch)|
      && BootsOk(index, Stopped(boots, At(lists, ch)[k]), lists, handlers[ch := DropKey(k + 1)])
  {
  }

  lemma BootsGone(index: Index, boots: Boots, lists: Lists, handlers: Handlers, ch: Channel, k: nat)
    requires BootsOk(index, boots, lists, handlers) && ch in handlers && handlers[ch] == DropKey(k)
      && k >= |At(lists, ch)|
    ensures BootsOk(index, boots, lists, handlers[ch := Gone])
  {
  }

  lemma BootsStart(index: Index, boots: Boots, lists: Lists, handlers: Handlers, ch: Channel, id: nat, reg: Register,
    b: BootId)
    requires BootsOk(index, boots, lists, handlers) && ch in handlers && handlers[ch].BootStart?
    requires b !in boots && forall d :: d in boots && boots[d].port == reg.newPort ==> !boots[d].listening
    ensures BootsOk(index, boots[b := Boot(reg.newPort, reg.name, ch, reg.protocol, true)], lists,
      handlers[ch := BootPut(id, reg, b)])
  {
  }

  lemma BootsPut(index: Index, boots: Boots, lists: Lists, handlers: Handlers, ch: Channel, id: nat, reg: Register,
    b: BootId)
    requires BootsOk(index, boots, lists, handlers) && ch in handlers && handlers[ch] == BootPut(id, reg, b)
    ensures BootsOk(index[reg.newPort := b], boots, lists, handlers[ch := BootAdd(id, reg, b)])
  {
  }

  lemma BootsAdd(index: Index, boots: Boots, lists: Lists, handlers: Handlers, ch: Channel, id: nat, reg: Register,
    b: BootId)
    requires BootsOk(index, boots, lists, handlers) && ch in handlers && handlers[ch] == BootAdd(id, reg, b)
    ensures BootsOk(index, boots, Push(lists, ch, b), handlers[ch := Idle])
  {
  }

  lemma {:induction false} FirstNamedListed(boots: Boots, q: seq<BootId>, name: string)
    requires FirstNamed(boots, q, name).Some?
    ensures FirstNamed(boots, q, name).value in q
  {
    if !(q[0] in boots && boots[q[0]].name == name) {
      FirstNamedListed(boots, q[1..], name);
    }
  }

  lemma ListedKnown(lists: Lists, boots: Boots, handlers: Handlers, ch: Channel, b: BootId)
    requires Listed(lists, boots, handlers) && b in At(lists, ch)
    ensures Known(boots, handlers, b) && boots[b].owner == ch
  {
  }

  lemma BootsRegister(t: Tables, ch: Channel, f: Found, handlers: Handlers)
    requires BootsOk(t.dynamicBoot, t.boots, t.bootsOf, handlers) && ch in handlers
    requires var h := handlers[ch]; h.BootGet? || h.BootStart? || h.BootPut? || h.BootAdd?
    ensures var h := handlers[ch];
      BootsOk(IndexAfter(t, ch, h), BootsAfter(t, ch, h, f), ListsAfter(t, ch, h), handlers[ch := Next(t, ch, h, f)])
  {
    var h := handlers[ch];
    var index, boots, lists, next := t.dynamicBoot, t.boots, t.bootsOf, Next(t, ch, h, f);
    match h
    case BootGet(_, _) =>
      if next.EvictKey? {
        BootsChoose(index, boots, lists, handlers, ch, next);
      } else {
        BootsMove(index, boots, lists, handlers, ch, next);
      }
    case BootStart(id, reg) =>
      if Starts(t, reg, f) { BootsStart(index, boots, lists, handlers, ch, id, reg, f.newBoot); }
      else { BootsMove(index, boots, lists, handlers, ch, next); }
    case BootPut(id, reg, b) => BootsPut(index, boots, lists, handlers, ch, id, reg, b);
    case BootAdd(id, reg, b) => BootsAdd(index, boots, lists, handlers, ch, id, reg, b);
  }

  lemma BootsRelease(t: Tables, ch: Channel, f: Found, handlers: Handlers)
    requires BootsOk(t.dynamicBoot, t.boots, t.bootsOf, handlers) && ch in handlers
    requires var h := handlers[ch]; h.EvictKey? || h.EvictStop? || h.CancelGet? || h.CancelKey? || h.CancelStop?
    ensures var h := handlers[ch];
      BootsOk(IndexAfter(t, ch, h), BootsAfter(t, ch, h, f), ListsAfter(t, ch, h), handlers[ch := Next(t, ch, h, f)])
  {
    var h := handlers[ch];
    var index, boots, lists, next := t.dynamicBoot, t.boots, t.bootsOf, Next(t, ch, h, f);
    if h.EvictKey? || h.CancelKey? {
      BootsUnkey(index, boots, lists, handlers, ch, next);
    } else if h.EvictStop? || h.CancelStop? {
      BootsStop(index, boots, lists, handlers, ch);
    } else if next.CancelKey? {
      FirstNamedListed(boots, At(lists, ch), h.reg.name);
      ListedKnown(lists, boots, handlers, ch, next.b);
      BootsChoose(index, boots, lists, handlers, ch, next);
    } else {
      BootsMove(index, boots, lists, handlers, ch, next);
    }
  }

  lemma BootsDrop(t: Tables, ch: Channel, f: Found, handlers: Handlers)
    requires BootsOk(t.dynamicBoot, t.boots, t.bootsOf, handlers) && ch in handlers
    requires var h := handlers[ch]; h.DropName? || h.DropKey? || h.DropStop?
    ensures var h := handlers[ch];
      BootsOk(IndexAfter(t, ch, h), BootsAfter(t, ch, h, f), ListsAfter(t, ch, h), handlers[ch := Next(t, ch, h, f)])
  {
    var h := handlers[ch];
    var index, boots, lists, next := t.dynamicBoot, t.boots, t.bootsOf, Next(t, ch, h, f);
    match h
    case DropName(k) =>
      if next.DropKey? {
        BootsBeginDrop(index, boots, lists, handlers, ch);
      } else {
        BootsMove(index, boots, lists, handlers, ch, next);
      }
    case DropKey(k) =>
      if next.Gone? {
        BootsGone(index, boots, lists, handlers, ch, k);
      } else {
        BootsDropKey(index, boots, lists, handlers, ch, k);
      }
    case DropStop(k) => BootsDropStop(index, boots, lists, handlers, ch, k);
  }

  /** One operation of any handler keeps everything about boots. */
  lemma BootsOperate(t: Tables, ch: Channel, f: Found, handlers: Handlers)
    requires BootsOk(t.dynamicBoot, t.boots, t.bootsOf, handlers) && ch in handlers
    ensures var h := handlers[ch];
      BootsOk(IndexAfter(t, ch, h), BootsAfter(t, ch, h, f), ListsAfter(t, ch, h), handlers[ch := Next(t, ch, h, f)])
  {
    var h := handlers[ch];
    if h.BootGet? || h.BootStart? || h.BootPut? || h.BootAdd? {
      BootsRegister(t, ch, f, handlers);
    } else if h.EvictKey? || h.EvictStop? || h.CancelGet? || h.CancelKey? || h.CancelStop? {
      BootsRelease(t, ch, f, handlers);
    } else if h.DropName? || h.DropKey? || h.DropStop? {
      BootsDrop(t, ch, f, handlers);
    } else {
      BootsStay(t, ch, f, handlers);
    }
  }

  lemma BootsStay(t: Tables, ch: Channel, f: Found, handlers: Handlers)
    requires BootsOk(t.dynamicBoot, t.boots, t.bootsOf, handlers) && ch in handlers
    requires var h := handlers[ch]; h.Idle? || h.Gone? || h.RouteGet? || h.RoutePut? || h.NameAdd? || h.CancelRoute?
    ensures var h := handlers[ch];
      BootsOk(IndexAfter(t, ch, h), BootsAfter(t, ch, h, f), ListsAfter(t, ch, h), handlers[ch := Next(t, ch, h, f)])
  {
    var h := handlers[ch];
    if h.Gone? {
      assert handlers[ch := Gone] == handlers;
    } else {
      BootsMove(t.dynamicBoot, t.boots, t.bootsOf, handlers, ch, Next(t, ch, h, f));
    }
  }

  // ------------------------------------------------ every run

  ghost predicate Invariant(s: State) {
    && Routed(s.tables.route, s.tables.names, s.handler)
    && BootsOk(s.tables.dynamicBoot, s.tables.boots, s.tables.bootsOf, s.handler)
  }

  lemma RoutedMoves(t: Tables, handlers: Handlers, ch: Channel, h: Handler)
    requires Routed(t.route, t.names, handlers) && (ch in handlers ==> handlers[ch].Idle?)
    requires h.Idle? || h.RouteGet? || h.BootGet? || h.CancelGet? || h == DropName(0)
    ensures Routed(t.route, t.names, handlers[ch := h])
  {
  }

  /** An event that only sets where a handler is. */
  lemma InvariantMoves(t: Tables, handlers: Handlers, ch: Channel, h: Handler)
    requires Routed(t.route, t.names, handlers) && BootsOk(t.dynamicBoot, t.boots, t.bootsOf, handlers)
    requires ch in handlers ==> handlers[ch].Idle?
    requires h.Idle? || h.RouteGet? || h.BootGet? || h.CancelGet? || h == DropName(0)
    ensures Routed(t.route, t.names, handlers[ch := h])
    ensures BootsOk(t.dynamicBoot, t.boots, t.bootsOf, handlers[ch := h])
  {
    RoutedMoves(t, handlers, ch, h);
    BootsMove(t.dynamicBoot, t.boots, t.bootsOf, handlers, ch, h);
  }

  lemma InvariantStep(c: Config, s: State, e: Event)
    requires Invariant(s)
    ensures Invariant(Step(c, s, e))
  {
    if Enabled(s, e) {
      var t := s.tables;
      match e
      case Connects(ch) => InvariantMoves(t, s.handler, ch, Idle);
      case Receives(ch, m) => if ch in s.authed { InvariantMoves(t, s.handler, ch, Dispatch(m)); }
      case Advances(ch, f) =>
        RoutedOperates(t, ch, f, s.handler);
        BootsOperate(t, ch, f, s.handler);
      case Disconnects(ch) => InvariantMoves(t, s.handler, ch, DropName(0));
    }
  }

  lemma {:induction false} EveryRun(c: Config, run: seq<Event>)
    ensures Invariant(After(c, run))
  {
    if run != [] {
      EveryRun(c, run[..|run| - 1]);
      InvariantStep(c, After(c, run[..|run| - 1]), run[|run| - 1]);
    }
  }

  /** A channel that is gone stays gone. */
  lemma {:induction false} GoneForever(c: Config, run: seq<Event>, more: seq<Event>, ch: Channel)
    requires ch in After(c, run).handler && After(c, run).handler[ch].Gone?
    ensures ch in After(c, run + more).handler && After(c, run + more).handler[ch].Gone?
  {
    if more == [] {
      assert run + more == run;
    } else {
      GoneForever(c, run, more[..|more| - 1], ch);
      assert (run + more)[..|run + more| - 1] == run + more[..|more| - 1];
    }
  }

  /** Once a client's disconnect is processed, no route ever points to it again. */
  lemma {:induction false} NoRouteOutlives(c: Config, run: seq<Event>, more: seq<Event>, ch: Channel)
    requires ch in After(c, run).handler && After(c, run).handler[ch].Gone?
    ensures forall n :: n in After(c, run + more).tables.route ==> After(c, run + more).tables.route[n] != ch
  {
    GoneForever(c, run, more, ch);
    EveryRun(c, run + more);
  }

  /** Outside its own registration and disconnect, every route of a channel is in the
      channel's list. */
  lemma {:induction false} RoutesAreListed(c: Config, run: seq<Event>, n: string)
    requires n in After(c, run).tables.route
    ensures var s := After(c, run);
      var ch := s.tables.route[n];
      && ch in s.handler && !s.handler[ch].Gone?
      && ((s.handler[ch].NameAdd? && s.handler[ch].reg.name == n) || n in At(s.tables.names, ch))
  {
    EveryRun(c, run);
  }

  /** Every entry of the listener index is a listening boot, filed under its own port,
      of a client whose disconnect has not been processed. */
  lemma {:induction false} IndexIsSound(c: Config, run: seq<Event>, port: int)
    requires port in After(c, run).tables.dynamicBoot
    ensures var s := After(c, run);
      var b := s.tables.dynamicBoot[port];
      && b in s.tables.boots && s.tables.boots[b].listening && s.tables.boots[b].port == port
      && s.tables.boots[b].owner in s.handler && !s.handler[s.tables.boots[b].owner].Gone?
  {
    EveryRun(c, run);
    var s := After(c, run);
    var b := s.tables.dynamicBoot[port];
    assert Known(s.tables.boots, s.handler, b);
  }

  /** No listener outlives its client: a listening boot is in its owner's list unless its
      owner is still registering it, and after the owner's disconnect it is stopped, now
      and later, whether or not the index had it. */
  lemma {:induction false} NoListenerOutlives(c: Config, run: seq<Event>, more: seq<Event>, b: BootId)
    requires b in After(c, run + more).tables.boots && After(c, run + more).tables.boots[b].listening
    ensures var s := After(c, run + more);
      var ch := s.tables.boots[b].owner;
      && ch in s.handler
      && (((s.handler[ch].BootPut? || s.handler[ch].BootAdd?) && s.handler[ch].b == b) || b in At(s.tables.bootsOf, ch))
      && !(ch in After(c, run).handler && After(c, run).handler[ch].Gone?)
  {
    EveryRun(c, run + more);
    var s := After(c, run + more);
    var ch := s.tables.boots[b].owner;
    if ch in After(c, run).handler && After(c, run).handler[ch].Gone? {
      GoneForever(c, run, more, ch);
    }
  }

  /** Two listening boots never have the same port. */
  lemma {:induction false} OneListenerPerPort(c: Config, run: seq<Event>, b: BootId, d: BootId)
    requires b in After(c, run).tables.boots && d in After(c, run).tables.boots
    requires After(c, run).tables.boots[b].listening && After(c, run).tables.boots[d].listening
    requires After(c, run).tables.boots[b].port == After(c, run).tables.boots[d].port
    ensures b == d
  {
    EveryRun(c, run);
  }

  // ------------------------------------------------ authentication

  /** A channel runs a handler body, holds a route or owns a boot only after the gate
      let it pass. */
  ghost predicate Gated(s: State) {
    && (forall ch :: ch in s.handler && ch !in s.authed ==> s.handler[ch].Idle? || Dropping(s.handler[ch]))
    && (forall n :: n in s.tables.route ==> s.tables.route[n] in s.authed)
    && (forall b :: b in s.tables.boots ==> s.tables.boots[b].owner in s.authed)
  }

  predicate Dropping(h: Handler) {
    h.DropName? || h.DropKey? || h.DropStop? || h.Gone?
  }

  lemma GatedStep(c: Config, s: State, e: Event)
    requires Gated(s)
    ensures Gated(Step(c, s, e))
  {
  }

  /** Event `j` read the configured token from a channel. */
  ghost predicate Authenticates(c: Config, run: seq<Event>, j: nat, ch: Channel) {
    j < |run| && ReadsToken(c, After(c, run[..j]), run[j], ch)
  }

  predicate ReadsToken(c: Config, s: State, e: Event, ch: Channel) {
    Enabled(s, e) && e.Receives? && e.ch == ch && e.m.command == AUTH && e.m.token == c.token
  }

  lemma AuthedStep(c: Config, s: State, e: Event, ch: Channel)
    ensures ch in Step(c, s, e).authed <==> ch in s.authed || ReadsToken(c, s, e, ch)
  {
    if Enabled(s, e) && e.Receives? {
      assert Step(c, s, e) == OnReceives(c, s, e.ch, e.m);
    }
  }

  /** A channel has passed the gate exactly if the token was read from it. */
  lemma {:induction false} AuthedMeans(c: Config, run: seq<Event>, ch: Channel)
    ensures ch in After(c, run).authed <==> exists j: nat :: Authenticates(c, run, j, ch)
  {
    if run != [] {
      var before, last := run[..|run| - 1], run[|run| - 1];
      AuthedMeans(c, before, ch);
      AuthedStep(c, After(c, before), last, ch);
      forall j: nat | j < |before| ensures Authenticates(c, run, j, ch) <==> Authenticates(c, before, j, ch) {
        assert run[..j] == before[..j];
      }
      assert Authenticates(c, run, |before|, ch) <==> ReadsToken(c, After(c, before), last, ch);
    }
  }

  lemma {:induction false} GatedRun(c: Config, run: seq<Event>)
    ensures Gated(After(c, run))
  {
    if run != [] {
      GatedRun(c, run[..|run| - 1]);
      GatedStep(c, After(c, run[..|run| - 1]), run[|run| - 1]);
    }
  }

  /** Every channel that holds a route or owns a boot, indexed or not, sent the token
      earlier in the run. */
  lemma {:induction false} OnlyAuthenticated(c: Config, run: seq<Event>, ch: Channel)
    requires (exists n :: n in After(c, run).tables.route && After(c, run).tables.route[n] == ch)
      || (exists b :: b in After(c, run).tables.boots && After(c, run).tables.boots[b].owner == ch)
    ensures exists j: nat :: Authenticates(c, run, j, ch)
  {
    GatedRun(c, run);
    AuthedMeans(c, run, ch);
  }
}
