/** The server's registry: `ROUTE_MAPPING` and `DYNAMIC_BOOT`, the two lists each
    client channel carries, and the boots themselves.  Handlers of different channels
    run at the same time, so the model is as fine as the program is: one step is one
    operation on a shared table.  `Handler` is the point a channel's event loop has
    reached. */
module Registry {
  import opened Basics
  import opened Messages

  type Channel = nat
  type BootId = nat

  /** A dynamic boot that was started: `stop` ends its listening for good. */
  datatype Boot = Boot(port: int, name: string, owner: Channel, protocol: Protocol, listening: bool)

  datatype Tables = Tables(
    route: map<string, Channel>,
    dynamicBoot: map<int, BootId>,
    names: map<Channel, seq<string>>,
    bootsOf: map<Channel, seq<BootId>>,
    boots: map<BootId, Boot>,
    closing: set<Channel>,
    replies: map<Channel, seq<SysMessage>>)

  datatype Handler =
    | Idle
    | RouteGet(id: nat, reg: Register)
    | RoutePut(id: nat, reg: Register)
    | NameAdd(id: nat, reg: Register)
    | BootGet(id: nat, reg: Register)
    | BootStart(id: nat, reg: Register)
    | BootPut(id: nat, reg: Register, b: BootId)
    | BootAdd(id: nat, reg: Register, b: BootId)
    | EvictKey(id: nat, reg: Register, b: BootId)
    | EvictStop(id: nat, reg: Register, b: BootId)
    | CancelGet(id: nat, reg: Register)
    | CancelRoute(id: nat, reg: Register)
    | CancelKey(id: nat, reg: Register, b: BootId)
    | CancelStop(id: nat, reg: Register, b: BootId)
    | DropName(k: nat)
    | DropKey(k: nat)
    | DropStop(k: nat)
    | Gone

  datatype State = State(tables: Tables, handler: map<Channel, Handler>, authed: set<Channel>)

  /** What a step finds outside the tables: whether the holder of the name or port is
      active and writable,
      whether the port can be bound, and the boot object a `new` creates. */
  datatype Found = Found(active: bool, writable: bool, bindable: bool, newBoot: BootId)

  /** On the default port the holder of a name is closed if it looks broken. */
  predicate ClosesHolder(f: Found) {
    !f.active || !f.writable
  }

  /** On an own port the holder is evicted if it is inactive, or if it is writable. */
  predicate EvictsBoot(f: Found) {
    !f.active || f.writable
  }

  datatype Event =
    | Connects(ch: Channel)
    | Receives(ch: Channel, m: SysMessage)
    | Advances(ch: Channel, found: Found)
    | Disconnects(ch: Channel)

  datatype Config = Config(token: string, httpPort: int)

  const INIT := State(Tables(map[], map[], map[], map[], map[], {}, map[]), map[], {})

  // ------------------------------------------------ replies

  function Echo(id: nat, reg: Register): SysMessage {
    SysMessage(id, CANCEL_REGISTER, "", 0, Some(reg))
  }

  function RegisterReply(id: nat, reg: Register, state: int): SysMessage {
    SysMessage(id, REGISTER, "", state, Some(reg))
  }

  function AuthReply(state: int): SysMessage {
    SysMessage(0, AUTH, "", state, None)
  }

  function Sent(replies: map<Channel, seq<SysMessage>>, ch: Channel, m: Option<SysMessage>)
    : map<Channel, seq<SysMessage>>
  {
    if m.Some? then Push(replies, ch, m.value) else replies
  }

  function Reply(t: Tables, ch: Channel, m: SysMessage): Tables {
    t.(replies := Push(t.replies, ch, m))
  }

  // ------------------------------------------------ boots

  function Stopped(boots: map<BootId, Boot>, b: BootId): map<BootId, Boot> {
    if b in boots then boots[b := boots[b].(listening := false)] else boots
  }

  function PortOf(t: Tables, b: BootId): int {
    if b in t.boots then t.boots[b].port else 0
  }

  predicate PortFree(t: Tables, port: int) {
    forall b :: b in t.boots && t.boots[b].port == port ==> !t.boots[b].listening
  }

  /** The first boot of a list that was registered under a name. */
  function FirstNamed(boots: map<BootId, Boot>, q: seq<BootId>, name: string): Option<BootId> {
    if q == [] then None
    else if q[0] in boots && boots[q[0]].name == name then Some(q[0])
    else FirstNamed(boots, q[1..], name)
  }

  // ------------------------------------------------ steps

  /** The first handler on a channel's pipeline is the gate: until the token came, it
      answers or drops every system message, and lets none through. */
  function OnReceives(c: Config, s: State, ch: Channel, m: SysMessage): State {
    if ch !in s.authed then
      if m.command == AUTH && m.token == c.token then
        s.(authed := s.authed + {ch}, tables := Reply(s.tables, ch, AuthReply(1)))
      else if m.command == AUTH then s
      else s.(tables := Reply(s.tables, ch, AuthReply(0)))
    else
      s.(handler := s.handler[ch := Dispatch(m)])
  }

  /** Which handler body a message runs; a registration without its data ends in an
      exception. */
  function Dispatch(m: SysMessage): Handler {
    if m.register.None? then Idle
    else if m.command == REGISTER then
      if m.register.value.newServerPort then BootGet(m.id, m.register.value) else RouteGet(m.id, m.register.value)
    else if m.command == CANCEL_REGISTER then CancelGet(m.id, m.register.value)
    else Idle
  }

  /** A new boot starts if its port can be bound; otherwise `start` throws. */
  predicate Starts(t: Tables, reg: Register, f: Found) {
    f.bindable && f.newBoot !in t.boots && PortFree(t, reg.newPort)
  }

  /** Where a handler goes on after one operation. */
  function Next(t: Tables, ch: Channel, h: Handler, f: Found): Handler {
    match h
    case RouteGet(id, reg) => if reg.name in t.route then Idle else RoutePut(id, reg)
    case RoutePut(id, reg) => NameAdd(id, reg)
    case NameAdd(_, _) => Idle
    case BootGet(id, reg) =>
      if reg.newPort !in t.dynamicBoot then BootStart(id, reg)
      else if EvictsBoot(f) then EvictKey(id, reg, t.dynamicBoot[reg.newPort]) else Idle
    case BootStart(id, reg) => if Starts(t, reg, f) then BootPut(id, reg, f.newBoot) else Idle
    case BootPut(id, reg, b) => BootAdd(id, reg, b)
    case BootAdd(_, _, _) => Idle
    case EvictKey(id, reg, b) => EvictStop(id, reg, b)
    case EvictStop(_, _, _) => Idle
    case CancelGet(id, reg) =>
      if reg.name in t.route then CancelRoute(id, reg)
      else if FirstNamed(t.boots, At(t.bootsOf, ch), reg.name).None? then Idle
      else CancelKey(id, reg, FirstNamed(t.boots, At(t.bootsOf, ch), reg.name).value)
    case CancelRoute(_, _) => Idle
    case CancelKey(id, reg, b) => CancelStop(id, reg, b)
    case CancelStop(_, _, _) => Idle
    case DropName(k) => if k < |At(t.names, ch)| then DropName(k + 1) else DropKey(0)
    case DropKey(k) => if k < |At(t.bootsOf, ch)| then DropStop(k) else Gone
    case DropStop(k) => DropKey(k + 1)
    case Idle => Idle
    case Gone => Gone
  }

  /** What the operation does to `ROUTE_MAPPING`. */
  function RouteAfter(t: Tables, ch: Channel, h: Handler): map<string, Channel> {
    match h
    case RoutePut(_, reg) => t.route[reg.name := ch]
    case CancelRoute(_, reg) => t.route - {reg.name}
    case DropName(k) => if k < |At(t.names, ch)| then t.route - {At(t.names, ch)[k]} else t.route
    case _ => t.route
  }

  /** What it does to `DYNAMIC_BOOT`. */
  function IndexAfter(t: Tables, ch: Channel, h: Handler): map<int, BootId> {
    match h
    case BootPut(_, reg, b) => t.dynamicBoot[reg.newPort := b]
    case EvictKey(_, _, b) => t.dynamicBoot - {PortOf(t, b)}
    case CancelKey(_, _, b) => t.dynamicBoot - {PortOf(t, b)}
    case DropKey(k) =>
      if k < |At(t.bootsOf, ch)| then t.dynamicBoot - {PortOf(t, At(t.bootsOf, ch)[k])} else t.dynamicBoot
    case _ => t.dynamicBoot
  }

  /** What it does to the `REGISTER_CHANNEL` lists. */
  function NamesAfter(t: Tables, ch: Channel, h: Handler): map<Channel, seq<string>> {
    if h.NameAdd? then Push(t.names, ch, h.reg.name) else t.names
  }

  /** What it does to the `CHANNEL_DYNAMIC_BOOT` lists. */
  function ListsAfter(t: Tables, ch: Channel, h: Handler): map<Channel, seq<BootId>> {
    if h.BootAdd? then Push(t.bootsOf, ch, h.b) else t.bootsOf
  }

  /** Which boots it starts and stops. */
  function BootsAfter(t: Tables, ch: Channel, h: Handler, f: Found): map<BootId, Boot> {
    match h
    case BootStart(_, reg) =>
      if Starts(t, reg, f) then t.boots[f.newBoot := Boot(reg.newPort, reg.name, ch, reg.protocol, true)] else t.boots
    case EvictStop(_, _, b) => Stopped(t.boots, b)
    case CancelStop(_, _, b) => Stopped(t.boots, b)
    case DropStop(k) => if k < |At(t.bootsOf, ch)| then Stopped(t.boots, At(t.bootsOf, ch)[k]) else t.boots
    case _ => t.boots
  }

  /** Which channel it asks to close. */
  function ClosingAfter(t: Tables, h: Handler, f: Found): set<Channel> {
    match h
    case RouteGet(_, reg) =>
      if reg.name in t.route && ClosesHolder(f) then t.closing + {t.route[reg.name]} else t.closing
    case EvictStop(_, _, b) => if b in t.boots then t.closing + {t.boots[b].owner} else t.closing
    case _ => t.closing
  }

  /** What it answers. */
  function Answer(c: Config, t: Tables, ch: Channel, h: Handler, f: Found): Option<SysMessage> {
    match h
    case RouteGet(id, reg) => if reg.name in t.route then Some(RegisterReply(id, reg, 0)) else None
    case NameAdd(id, reg) => Some(RegisterReply(id, reg.(newPort := c.httpPort), 1))
    case BootGet(id, reg) =>
      if reg.newPort in t.dynamicBoot && !EvictsBoot(f) then Some(RegisterReply(id, reg, 2)) else None
    case BootAdd(id, reg, _) => Some(RegisterReply(id, reg, 1))
    case EvictStop(id, reg, _) => Some(RegisterReply(id, reg, 2))
    case CancelGet(id, reg) =>
      if reg.name !in t.route && FirstNamed(t.boots, At(t.bootsOf, ch), reg.name).None? then Some(Echo(id, reg))
        else None
    case CancelRoute(id, reg) => Some(Echo(id, reg))
    case CancelStop(id, reg, _) => Some(Echo(id, reg))
    case _ => None
  }

  /** One operation of the handler that runs on a channel. */
  function Operate(c: Config, t: Tables, ch: Channel, h: Handler, f: Found): Tables {
    Tables(RouteAfter(t, ch, h), IndexAfter(t, ch, h), NamesAfter(t, ch, h), ListsAfter(t, ch, h),
           BootsAfter(t, ch, h, f), ClosingAfter(t, h, f), Sent(t.replies, ch, Answer(c, t, ch, h, f)))
  }

  predicate Enabled(s: State, e: Event) {
    match e
    case Connects(ch) => ch !in s.handler
    case Receives(ch, _) => ch in s.handler && s.handler[ch].Idle?
    case Advances(ch, _) => ch in s.handler && !s.handler[ch].Idle? && !s.handler[ch].Gone?
    case Disconnects(ch) => ch in s.handler && s.handler[ch].Idle?
  }

  function Step(c: Config, s: State, e: Event): State {
    if !Enabled(s, e) then s
    else match e
      case Connects(ch) => s.(handler := s.handler[ch := Idle])
      case Receives(ch, m) => OnReceives(c, s, ch, m)
      case Advances(ch, f) =>
        var h := s.handler[ch];
        s.(tables := Operate(c, s.tables, ch, h, f), handler := s.handler[ch := Next(s.tables, ch, h, f)])
      case Disconnects(ch) => s.(handler := s.handler[ch := DropName(0)])
  }

  function After(c: Config, run: seq<Event>): State {
    if run == [] then INIT else Step(c, After(c, run[..|run| - 1]), run[|run| - 1])
  }
}
