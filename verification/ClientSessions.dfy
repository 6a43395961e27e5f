/** The client's side of a session as the program runs it: the message handler's replies
    and the kit that registers, re-registers and cancels services. */
module ClientSessions {
  import opened Basics
  import opened Messages
  import opened Session

  /** A list of all names of a table, each once. */
  ghost predicate Lists(order: seq<string>, forward: map<string, Register>) {
    NoDuplicates(order) && forall n :: n in order <==> n in forward
  }

  /** One registration for each name of a list, in its order. */
  function Registrations(forward: map<string, Register>, order: seq<string>, newId: string -> nat): (r: seq<SysMessage>)
    requires forall n :: n in order ==> n in forward
    ensures |r| == |order| && forall k :: 0 <= k < |order| ==>
      r[k] == SysMessage(newId(order[k]), REGISTER, "", 0, Some(forward[order[k]]))
  {
    if order == [] then []
    else
      var last := order[|order| - 1];
      Registrations(forward, order[..|order| - 1], newId) + [RegisterMessage(newId(last), forward[last])]
  }

  /** A list of all names of a table but some, each once. */
  ghost predicate ListsBut(order: seq<string>, forward: map<string, Register>, left: set<string>) {
    NoDuplicates(order) && forall n :: n in order <==> n in forward && n !in left
  }

  lemma {:induction false} ListsNext(order: seq<string>, forward: map<string, Register>, left: set<string>, key: string,
    newId: string -> nat, began: seq<SysMessage>)
    requires ListsBut(order, forward, left) && key in left && key in forward
    ensures ListsBut(order + [key], forward, left - {key})
    ensures began + Registrations(forward, order + [key], newId)
      == began + Registrations(forward, order, newId) + [RegisterMessage(newId(key), forward[key])]
  {
    assert (order + [key])[..|order|] == order;
  }

  class ClientSession {
    var stateMap: map<string, Info>
    var clientForward: map<string, Register>
    /** Messages written to the tunnel, names to register again after the delay, keys of
        `PROMISE_MAP` and promises completed so far. */
    var written: seq<SysMessage>
    var scheduled: seq<string>
    var promises: set<nat>
    var succeeded: set<nat>

    constructor (mappings: map<string, Register>)
      ensures stateMap == map[] && clientForward == mappings && written == [] && scheduled == []
      ensures promises == {} && succeeded == {}
    {
      stateMap, clientForward, written, scheduled, promises, succeeded := map[], mappings, [], [], {}, {};
    }

    // ---------------------------------------------------------------- replies

    method HandleRegister(m: SysMessage)
      requires m.command == REGISTER && m.register.Some?
      modifies this`stateMap, this`scheduled
      ensures stateMap == Receive(old(stateMap), m)
      ensures var reg := m.register.value;
        stateMap == old(stateMap)[reg.name := Info(reg.newPort, if m.state == 1 then 1 else 0)]
      ensures scheduled == old(scheduled) + if m.state == 1 then [] else [m.register.value.name]
      ensures multiset(scheduled) == multiset(old(scheduled)) + Retries(m)
    {
      var reg := m.register.value;
      if m.state == 1 {
        stateMap := stateMap[reg.name := Info(reg.newPort, 1)];
      } else {
        scheduled := scheduled + [reg.name];
        stateMap := stateMap[reg.name := Info(reg.newPort, 0)];
      }
    }

    method HandleCancelRegister(m: SysMessage)
      requires m.command == CANCEL_REGISTER && m.register.Some?
      modifies this`stateMap, this`clientForward
      ensures stateMap == Receive(old(stateMap), m) && clientForward == Forget(old(clientForward), m)
      ensures stateMap == old(stateMap) - {m.register.value.name}
      ensures clientForward == old(clientForward) - {m.register.value.name}
    {
      stateMap := stateMap - {m.register.value.name};
      clientForward := clientForward - {m.register.value.name};
    }

    /** Complete whoever waits for this id. */
    method HandleWaitingRequest(id: nat)
      modifies this`promises, this`succeeded
      ensures promises == old(promises) - {id} && succeeded == old(succeeded) + (old(promises) * {id})
    {
      var found := id in promises;
      promises := promises - {id};
      if found {
        succeeded := succeeded + {id};
      }
    }

    /** The server accepted the token: every mapping is registered, each once, in the order
        in which the table lists them. */
    method HandleAuth(m: SysMessage, newId: string -> nat) returns (order: seq<string>)
      requires m.command == AUTH
      modifies this`written, this`promises
      ensures promises == old(promises)
      ensures if m.state == 1 then Lists(order, clientForward) else order == []
      ensures written == old(written) + Registrations(clientForward, order, newId)
    {
      order := [];
      if m.state == 1 {
        order := RegisterAll(newId);
      }
    }

    method RegisterAll(newId: string -> nat) returns (order: seq<string>)
      modifies this`written, this`promises
      ensures promises == old(promises) && Lists(order, clientForward)
      ensures written == old(written) + Registrations(clientForward, order, newId)
    {
      ghost var began := written;
      var left := clientForward.Keys;
      order := [];
      while left != {}
        invariant promises == old(promises) && left <= clientForward.Keys && ListsBut(order, clientForward, left)
        invariant written == began + Registrations(clientForward, order, newId)
        decreases |left|
      {
        var key :| key in left;
        RegisterService(newId(key), clientForward[key], false);
        ListsNext(order, clientForward, left, key, newId, began);
        order := order + [key];
        left := left - {key};
      }
    }

    /** What a message does to the client's tables. */
    method HandleSysMessage(m: SysMessage, newId: string -> nat) returns (order: seq<string>)
      requires m.command == REGISTER || m.command == CANCEL_REGISTER ==> m.register.Some?
      modifies this`stateMap, this`clientForward, this`scheduled, this`written, this`promises
      ensures stateMap == Receive(old(stateMap), m) && clientForward == Forget(old(clientForward), m)
      ensures multiset(scheduled) == multiset(old(scheduled)) + Retries(m) && promises == old(promises)
      ensures if m.command == AUTH && m.state == 1 then Lists(order, clientForward) else order == []
      ensures written == old(written) + Registrations(clientForward, order, newId)
    {
      order := [];
      assert Registrations(clientForward, [], newId) == [];
      if m.command == AUTH {
        order := HandleAuth(m, newId);
      } else if m.command == REGISTER {
        HandleRegister(m);
      } else if m.command == CANCEL_REGISTER {
        HandleCancelRegister(m);
      }
    }

    /** A message was read: its effect first, then the waiting caller. */
    method ChannelRead(m: SysMessage, newId: string -> nat) returns (order: seq<string>)
      requires m.command == REGISTER || m.command == CANCEL_REGISTER ==> m.register.Some?
      modifies this`stateMap, this`clientForward, this`scheduled, this`promises, this`succeeded, this`written
      ensures stateMap == Receive(old(stateMap), m) && clientForward == Forget(old(clientForward), m)
      ensures multiset(scheduled) == multiset(old(scheduled)) + Retries(m)
      ensures promises == old(promises) - {m.id} && succeeded == old(succeeded) + (old(promises) * {m.id})
      ensures if m.command == AUTH && m.state == 1 then Lists(order, clientForward) else order == []
      ensures written == old(written) + Registrations(clientForward, order, newId)
    {
      order := HandleSysMessage(m, newId);
      HandleWaitingRequest(m.id);
    }

    method ChannelInactive()
      modifies this`stateMap
      ensures stateMap == map[]
    {
      stateMap := map[];
    }

    // ---------------------------------------------------------------- requests

    /** Put the promise, then write; the caller waits after this. */
    method SyncWrite(m: SysMessage)
      modifies this`promises, this`written
      ensures promises == old(promises) + {m.id} && written == old(written) + [m]
    {
      promises := promises + {m.id};
      written := written + [m];
    }

    method RegisterService(id: nat, reg: Register, sync: bool)
      modifies this`promises, this`written
      ensures written == old(written) + [SysMessage(id, REGISTER, "", 0, Some(reg))]
      ensures promises == old(promises) + if sync then {id} else {}
    {
      if sync {
        SyncWrite(RegisterMessage(id, reg));
      } else {
        written := written + [RegisterMessage(id, reg)];
      }
    }

    method AddMapping(id: nat, reg: Register)
      modifies this`clientForward, this`promises, this`written
      ensures reg.name in old(clientForward) ==> unchanged(this)
      ensures reg.name !in old(clientForward) ==>
        && clientForward == old(clientForward)[reg.name := reg]
        && written == old(written) + [SysMessage(id, REGISTER, "", 0, Some(reg))] && promises == old(promises) + {id}
    {
      if reg.name !in clientForward {
        clientForward := clientForward[reg.name := reg];
        RegisterService(id, reg, true);
      }
    }

    /** Look through the mappings for the name, and register the one that is found. */
    method ReRegister(id: nat, name: string)
      modifies this`written, this`promises
      ensures promises == old(promises)
      ensures written == old(written)
        + if name in clientForward then [SysMessage(id, REGISTER, "", 0, Some(clientForward[name]))] else []
    {
      var left := clientForward.Keys;
      while left != {}
        invariant left <= clientForward.Keys && (name in clientForward ==> name in left)
        invariant written == old(written) && promises == old(promises)
        decreases |left|
      {
        var key :| key in left;
        if key == name {
          RegisterService(id, clientForward[key], false);
          return;
        }
        left := left - {key};
      }
    }

    method CancelRegister(id: nat, name: string)
      modifies this`written, this`promises
      ensures written == old(written)
        + if name in clientForward then [SysMessage(id, CANCEL_REGISTER, "", 0, Some(Register(name, false, 0, HTTP)))]
          else []
      ensures promises == old(promises) + if name in clientForward then {id} else {}
    {
      var left := clientForward.Keys;
      while left != {}
        invariant left <= clientForward.Keys && (name in clientForward ==> name in left)
        invariant written == old(written) && promises == old(promises)
        decreases |left|
      {
        var key :| key in left;
        if key == name {
          SyncWrite(CancelMessage(id, name));
          return;
        }
        left := left - {key};
      }
    }
  }
}
