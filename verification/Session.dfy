/** One client connection and its registrations: the client's `stateMap` and
    `CLIENT_FORWARD`, the server's tables, and the two queues between them. */
module Session {
  import opened Basics
  import opened Messages
  import opened Registry
  import opened RegistryAtomic

  /** The connection, the server's configuration, and the names this connection alone
      uses and registers on the default port. */
  datatype Setting = Setting(config: Config, ch: Channel, own: set<string>)

  datatype Info = Info(port: int, state: int)

  /** `received` counts the replies the client has read; the others are in flight.  `due`
      are the names whose registration is due: those the client starts with, from the
      loop that runs when it has been authenticated, those left from earlier connections,
      whose retry timers nobody cancels and which are sent on the connection that is
      current when they fire, and one more for every reply that asks for a retry.
      `handled` is the record of what the server has handled for this connection. */
  datatype State = State(
    tables: Tables,
    received: nat,
    outbox: seq<SysMessage>,
    states: map<string, Info>,
    forward: map<string, Register>,
    due: multiset<string>,
    connected: bool,
    handled: seq<SysMessage>)

  datatype Event =
    | AddsMapping(id: nat, reg: Register)
    | Registers(id: nat, name: string)
    | Cancels(id: nat, name: string)
    | ServerHandles(found: Found)
    | ClientReceives
    | OthersAct(tables: Tables)
    | Closes
    | ServerDisconnects

  // ------------------------------------------------ messages

  function RegisterMessage(id: nat, reg: Register): SysMessage {
    SysMessage(id, REGISTER, "", 0, Some(reg))
  }

  function CancelMessage(id: nat, name: string): SysMessage {
    SysMessage(id, CANCEL_REGISTER, "", 0, Some(Register(name, false, 0, HTTP)))
  }

  predicate Concerns(m: SysMessage, command: Command, name: string) {
    m.command == command && m.register.Some? && m.register.value.name == name
  }

  /** The replies on their way to the client. */
  function InFlight(w: Setting, s: State): seq<SysMessage> {
    var q := At(s.tables.replies, w.ch);
    if s.received <= |q| then q[s.received..] else []
  }

  // ------------------------------------------------ steps

  /** The handler a message runs, to its end. */
  function Handle(w: Setting, t: Tables, m: SysMessage, f: Found): Tables {
    if m.register.None? then t
    else if m.command == REGISTER then
      if m.register.value.newServerPort then RegisterNewPort(t, w.ch, m.id, m.register.value, f)
      else RegisterDefaultPort(w.config, t, w.ch, m.id, m.register.value, f)
    else if m.command == CANCEL_REGISTER then CancelRegister(t, w.ch, m.id, m.register.value)
    else t
  }

  /** What a reply does to `stateMap`: anything but success is state 0. */
  function Receive(states: map<string, Info>, m: SysMessage): map<string, Info> {
    if m.register.None? then states
    else if m.command == REGISTER then
      states[m.register.value.name := Info(m.register.value.newPort, if m.state == 1 then 1 else 0)]
    else if m.command == CANCEL_REGISTER then states - {m.register.value.name}
    else states
  }

  /** And to `CLIENT_FORWARD`. */
  function Forget(forward: map<string, Register>, m: SysMessage): map<string, Register> {
    if m.register.Some? && m.command == CANCEL_REGISTER then forward - {m.register.value.name} else forward
  }

  /** A registration that did not succeed is tried again later. */
  function Retries(m: SysMessage): multiset<string> {
    if m.register.Some? && m.command == REGISTER && m.state != 1 then multiset{m.register.value.name} else multiset{}
  }

  /** The others keep away from this connection's names, list and replies. */
  predicate KeepsAway(w: Setting, t: Tables, u: Tables) {
    && At(u.replies, w.ch) == At(t.replies, w.ch) && At(u.names, w.ch) == At(t.names, w.ch)
    && forall n :: n in w.own ==> (n in u.route <==> n in t.route) && (n in t.route ==> u.route[n] == t.route[n])
  }

  predicate Enabled(w: Setting, s: State, e: Event) {
    match e
    case AddsMapping(_, reg) => s.connected && reg.name !in s.forward
    case Registers(_, name) => s.connected && name in s.due
    case Cancels(_, name) => s.connected && name in s.forward
    case ServerHandles(_) => s.connected && s.outbox != []
    case ClientReceives => s.connected && InFlight(w, s) != []
    case OthersAct(u) => KeepsAway(w, s.tables, u)
    case Closes => s.connected
    case ServerDisconnects => !s.connected
  }

  function Do(w: Setting, s: State, e: Event): State
    requires Enabled(w, s, e)
  {
    match e
    case AddsMapping(id, reg) =>
      s.(forward := s.forward[reg.name := reg], outbox := s.outbox + [RegisterMessage(id, reg)])
    case Registers(id, name) =>
      s.(due := s.due - multiset{name},
         outbox := if name in s.forward then s.outbox + [RegisterMessage(id, s.forward[name])] else s.outbox)
    case Cancels(id, name) => s.(outbox := s.outbox + [CancelMessage(id, name)])
    case ServerHandles(f) =>
      s.(tables := Handle(w, s.tables, s.outbox[0], f), handled := s.handled + [s.outbox[0]], outbox := s.outbox[1..])
    case ClientReceives =>
      var m := InFlight(w, s)[0];
      s.(states := Receive(s.states, m), forward := Forget(s.forward, m), due := s.due + Retries(m),
         received := s.received + 1)
    case OthersAct(u) => s.(tables := u)
    case Closes => s.(connected := false, states := map[], outbox := [], due := multiset{},
      received := |At(s.tables.replies, w.ch)|)
    case ServerDisconnects => s.(tables := Disconnect(s.tables, w.ch))
  }

  function Step(w: Setting, s: State, e: Event): State {
    if Enabled(w, s, e) then Do(w, s, e) else s
  }

  /** An authenticated connection that has registered nothing yet, with the mappings the
      client read from its store and any registrations due. */
  ghost predicate Fresh(w: Setting, s: State) {
    && s.connected && s.outbox == [] && s.handled == [] && s.states == map[]
      && s.received == |At(s.tables.replies, w.ch)|
    && (forall n :: n in w.own ==> n !in s.tables.route)
    && (forall n :: n in s.forward ==> s.forward[n].name == n)
    && (forall n :: n in s.forward && n in w.own ==> !s.forward[n].newServerPort)
  }

  /** The connection's own names are registered on the default port. */
  predicate Proper(w: Setting, run: seq<Event>) {
    forall k :: 0 <= k < |run| && run[k].AddsMapping? && run[k].reg.name in w.own ==> !run[k].reg.newServerPort
  }

  function After(w: Setting, start: State, run: seq<Event>): State {
    if run == [] then start else Step(w, After(w, start, run[..|run| - 1]), run[|run| - 1])
  }

  // ------------------------------------------------ views

  /** `stateMap` once the replies in flight have arrived. */
  function Drained(states: map<string, Info>, q: seq<SysMessage>): map<string, Info>
    decreases |q|
  {
    if q == [] then states else Drained(Receive(states, q[0]), q[1..])
  }

  /** How often a name was registered since it was last cancelled. */
  function Since(handled: seq<SysMessage>, name: string): nat {
    if handled == [] then 0
    else
      var m := handled[|handled| - 1];
      if Concerns(m, CANCEL_REGISTER, name) then 0
      else if Concerns(m, REGISTER, name) then Since(handled[..|handled| - 1], name) + 1
      else Since(handled[..|handled| - 1], name)
  }
}
