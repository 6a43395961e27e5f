/** The registry's handlers as whole steps, what the fine-grained model does when a
    handler runs without interruption, and what the per-channel lists are good for. */
module RegistryAtomic {
  import opened Basics
  import opened Messages
  import opened Registry

  // ------------------------------------------------ the handlers, run to their end

  function RegisterDefaultPort(c: Config, t: Tables, ch: Channel, id: nat, reg: Register, f: Found): Tables {
    if reg.name in t.route then
      t.(closing := if ClosesHolder(f) then t.closing + {t.route[reg.name]} else t.closing,
         replies := Push(t.replies, ch, RegisterReply(id, reg, 0)))
    else
      t.(route := t.route[reg.name := ch], names := Push(t.names, ch, reg.name),
         replies := Push(t.replies, ch, RegisterReply(id, reg.(newPort := c.httpPort), 1)))
  }

  function RegisterNewPort(t: Tables, ch: Channel, id: nat, reg: Register, f: Found): Tables {
    if reg.newPort in t.dynamicBoot then
      if EvictsBoot(f) then Evict(t,
        t.dynamicBoot[reg.newPort]).(replies := Push(t.replies, ch, RegisterReply(id, reg, 2)))
      else t.(replies := Push(t.replies, ch, RegisterReply(id, reg, 2)))
    else if !Starts(t, reg, f) then t
    else
      t.(boots := t.boots[f.newBoot := Boot(reg.newPort, reg.name, ch, reg.protocol, true)],
         dynamicBoot := t.dynamicBoot[reg.newPort := f.newBoot], bootsOf := Push(t.bootsOf, ch, f.newBoot),
         replies := Push(t.replies, ch, RegisterReply(id, reg, 1)))
  }

  function Evict(t: Tables, b: BootId): Tables {
    t.(dynamicBoot := t.dynamicBoot - {PortOf(t, b)}, boots := Stopped(t.boots, b),
       closing := if b in t.boots then t.closing + {t.boots[b].owner} else t.closing)
  }

  function CancelRegister(t: Tables, ch: Channel, id: nat, reg: Register): Tables {
    var a :=
      if reg.name in t.route then t.(route := t.route - {reg.name})
      else
        match FirstNamed(t.boots, At(t.bootsOf, ch), reg.name)
        case Some(b) => t.(dynamicBoot := t.dynamicBoot - {PortOf(t, b)}, boots := Stopped(t.boots, b))
        case None => t;
    a.(replies := Push(t.replies, ch, Echo(id, reg)))
  }

  function NameSet(q: seq<string>): set<string> {
    set n | n in q
  }

  function Ports(boots: map<BootId, Boot>, q: seq<BootId>): set<int> {
    set b | b in q :: if b in boots then boots[b].port else 0
  }

  function AllStopped(boots: map<BootId, Boot>, q: seq<BootId>): map<BootId, Boot> {
    map b | b in boots :: if b in q then boots[b].(listening := false) else boots[b]
  }

  /** A disconnect, said at once: the names of the list leave the routes, the ports of
      the list leave the index, and the boots of the list stop. */
  function Disconnect(t: Tables, ch: Channel): Tables {
    t.(route := t.route - NameSet(At(t.names, ch)),
       dynamicBoot := t.dynamicBoot - Ports(t.boots, At(t.bootsOf, ch)),
       boots := AllStopped(t.boots, At(t.bootsOf, ch)))
  }

  // ------------------------------------------------ uninterrupted handlers

  /** `n` operations of one handler with nothing in between. */
  function Alone(c: Config, t: Tables, ch: Channel, h: Handler, f: Found, n: nat): (Tables, Handler)
    decreases n
  {
    if n == 0 then (t, h) else Alone(c, Operate(c, t, ch, h, f), ch, Next(t, ch, h, f), f, n - 1)
  }

  lemma AloneDefaultPort(c: Config, t: Tables, ch: Channel, id: nat, reg: Register, f: Found)
    ensures Alone(c, t, ch, RouteGet(id, reg), f, if reg.name in t.route then 1 else 3)
      == (RegisterDefaultPort(c, t, ch, id, reg, f), Idle)
  {
    var h := RouteGet(id, reg);
    if reg.name in t.route {
      assert Alone(c, Operate(c, t, ch, h, f), ch, Idle, f, 0) == (Operate(c, t, ch, h, f), Idle);
    } else {
      var t1 := Operate(c, t, ch, h, f);
      assert t1 == t;
      var t2 := Operate(c, t1, ch, RoutePut(id, reg), f);
      var t3 := Operate(c, t2, ch, NameAdd(id, reg), f);
      assert Alone(c, t2, ch, NameAdd(id, reg), f, 1) == Alone(c, t3, ch, Idle, f, 0);
    }
  }

  lemma AloneNewPort(c: Config, t: Tables, ch: Channel, id: nat, reg: Register, f: Found)
    ensures exists n: nat :: Alone(c, t, ch, BootGet(id, reg), f, n) == (RegisterNewPort(t, ch, id, reg, f), Idle)
  {
    var h := BootGet(id, reg);
    var t1, h1 := Operate(c, t, ch, h, f), Next(t, ch, h, f);
    if reg.newPort in t.dynamicBoot && EvictsBoot(f) {
      var b := t.dynamicBoot[reg.newPort];
      var t2 := Operate(c, t1, ch, h1, f);
      var t3 := Operate(c, t2, ch, EvictStop(id, reg, b), f);
      assert Alone(c, t2, ch, EvictStop(id, reg, b), f, 1) == Alone(c, t3, ch, Idle, f, 0);
      assert Alone(c, t, ch, h, f, 3) == (RegisterNewPort(t, ch, id, reg, f), Idle);
    } else if reg.newPort in t.dynamicBoot {
      assert Alone(c, t1, ch, Idle, f, 0) == (t1, Idle);
      assert Alone(c, t, ch, h, f, 1) == (RegisterNewPort(t, ch, id, reg, f), Idle);
    } else {
      var t2, h2 := Operate(c, t1, ch, h1, f), Next(t1, ch, h1, f);
      if Starts(t, reg, f) {
        var t3 := Operate(c, t2, ch, h2, f);
        var t4 := Operate(c, t3, ch, BootAdd(id, reg, f.newBoot), f);
        assert Alone(c, t3, ch, BootAdd(id, reg, f.newBoot), f, 1) == Alone(c, t4, ch, Idle, f, 0);
        assert Alone(c, t2, ch, h2, f, 2) == (t4, Idle);
        assert Alone(c, t, ch, h, f, 4) == (RegisterNewPort(t, ch, id, reg, f), Idle);
      } else {
        assert Alone(c, t1, ch, h1, f, 1) == Alone(c, t2, ch, Idle, f, 0);
        assert Alone(c, t, ch, h, f, 2) == (RegisterNewPort(t, ch, id, reg, f), Idle);
      }
    }
  }

  lemma AloneCancel(c: Config, t: Tables, ch: Channel, id: nat, reg: Register, f: Found)
    ensures exists n: nat :: Alone(c, t, ch, CancelGet(id, reg), f, n) == (CancelRegister(t, ch, id, reg), Idle)
  {
    var h := CancelGet(id, reg);
    var t1, h1 := Operate(c, t, ch, h, f), Next(t, ch, h, f);
    if reg.name in t.route {
      var t2 := Operate(c, t1, ch, h1, f);
      assert Alone(c, t1, ch, h1, f, 1) == Alone(c, t2, ch, Idle, f, 0);
      assert Alone(c, t, ch, h, f, 2) == (CancelRegister(t, ch, id, reg), Idle);
    } else if h1.Idle? {
      assert Alone(c, t1, ch, Idle, f, 0) == (t1, Idle);
      assert Alone(c, t, ch, h, f, 1) == (CancelRegister(t, ch, id, reg), Idle);
    } else {
      var t2 := Operate(c, t1, ch, h1, f);
      var t3 := Operate(c, t2, ch, CancelStop(id, reg, h1.b), f);
      assert Alone(c, t2, ch, CancelStop(id, reg, h1.b), f, 1) == Alone(c, t3, ch, Idle, f, 0);
      assert Alone(c, t, ch, h, f, 3) == (CancelRegister(t, ch, id, reg), Idle);
    }
  }

  lemma {:induction false} AloneAppends(c: Config, t: Tables, ch: Channel, h: Handler, f: Found, n: nat, m: nat)
    ensures var r := Alone(c, t, ch, h, f, n);
      Alone(c, t, ch, h, f, n + m) == Alone(c, r.0, ch, r.1, f, m)
    decreases n
  {
    if n != 0 {
      AloneAppends(c, Operate(c, t, ch, h, f), ch, Next(t, ch, h, f), f, n - 1, m);
    }
  }

  lemma {:induction false} AloneDropsNames(c: Config, t: Tables, ch: Channel, k: nat, f: Found)
    requires k <= |At(t.names, ch)|
    ensures Alone(c, t, ch, DropName(k), f, |At(t.names, ch)| - k + 1)
         == (t.(route := t.route - NameSet(At(t.names, ch)[k..])), DropKey(0))
    decreases |At(t.names, ch)| - k
  {
    var q, u := At(t.names, ch), Operate(c, t, ch, DropName(k), f);
    if k == |q| {
      assert Alone(c, u, ch, DropKey(0), f, 0) == (u, DropKey(0));
      assert u.route == t.route - NameSet(q[k..]);
    } else {
      AloneDropsNames(c, u, ch, k + 1, f);
      assert q[k..] == [q[k]] + q[k + 1..];
      assert (t.route - {q[k]}) - NameSet(q[k + 1..]) == t.route - NameSet(q[k..]);
    }
  }

  lemma {:induction false} AloneDropsBoot(c: Config, t: Tables, ch: Channel, k: nat, f: Found, n: nat)
    requires k < |At(t.bootsOf, ch)|
    ensures var b := At(t.bootsOf, ch)[k];
      Alone(c, t, ch, DropKey(k), f, n + 2) == Alone(
        c, t.(dynamicBoot := t.dynamicBoot - {PortOf(t, b)}, boots := Stopped(t.boots, b)), ch, DropKey(k + 1), f, n)
  {
    var u := Operate(c, t, ch, DropKey(k), f);
    assert Alone(c, t, ch, DropKey(k), f, n + 2) == Alone(c, u, ch, DropStop(k), f, n + 1);
  }

  lemma {:induction false} AloneDropsBoots(c: Config, t: Tables, ch: Channel, k: nat, f: Found)
    requires k <= |At(t.bootsOf, ch)|
    ensures Alone(c, t, ch, DropKey(k), f, 2 * (|At(t.bootsOf, ch)| - k) + 1)
         == (t.(dynamicBoot := t.dynamicBoot - Ports(t.boots, At(t.bootsOf, ch)[k..]),
                boots := AllStopped(t.boots, At(t.bootsOf, ch)[k..])), Gone)
    decreases |At(t.bootsOf, ch)| - k
  {
    var q := At(t.bootsOf, ch);
    if k == |q| {
      var u := Operate(c, t, ch, DropKey(k), f);
      assert Alone(c, u, ch, Gone, f, 0) == (u, Gone);
      assert AllStopped(t.boots, []) == t.boots && t.dynamicBoot - Ports(t.boots, []) == t.dynamicBoot;
      assert q[k..] == [];
    } else {
      var v := t.(dynamicBoot := t.dynamicBoot - {PortOf(t, q[k])}, boots := Stopped(t.boots, q[k]));
      AloneDropsBoot(c, t, ch, k, f, 2 * (|q| - k) - 1);
      AloneDropsBoots(c, v, ch, k + 1, f);
      AllStoppedStep(t.boots, t.dynamicBoot, q[k], q[k + 1..]);
      assert q[k..] == [q[k]] + q[k + 1..];
    }
  }

  lemma AllStoppedStep(boots: map<BootId, Boot>, index: map<int, BootId>, b: BootId, q: seq<BootId>)
    ensures AllStopped(Stopped(boots, b), q) == AllStopped(boots, [b] + q)
    ensures (index - {if b in boots then boots[b].port else 0}) - Ports(Stopped(boots, b), q)
      == index - Ports(boots, [b] + q)
  {
    var more := [b] + q;
    assert forall d :: d in more <==> d == b || d in q;
    assert Ports(boots, more) == {if b in boots then boots[b].port else 0} + Ports(Stopped(boots, b), q) by {
      assert forall d :: d in q ==>
        (if d in boots then boots[d].port else 0) == (if d in Stopped(boots, b) then Stopped(boots, b)[d].port else 0);
    }
  }

  /** An uninterrupted disconnect does exactly what is said at once. */
  lemma AloneDisconnect(c: Config, t: Tables, ch: Channel, f: Found)
    ensures Alone(c, t, ch, DropName(0), f, |At(t.names, ch)| + 1 + (2 * |At(t.bootsOf, ch)| + 1))
      == (Disconnect(t, ch), Gone)
  {
    var n, m := |At(t.names, ch)| + 1, 2 * |At(t.bootsOf, ch)| + 1;
    AloneDropsNames(c, t, ch, 0, f);
    var r := Alone(c, t, ch, DropName(0), f, n);
    AloneAppends(c, t, ch, DropName(0), f, n, m);
    AloneDropsBoots(c, r.0, ch, 0, f);
    assert At(t.names, ch)[0..] == At(t.names, ch) && At(t.bootsOf, ch)[0..] == At(t.bootsOf, ch);
  }
}
