/** The registration handler over the shared tables, as the program runs it, proved
    against the whole-handler functions of the registry. */
module RegisterHandlers {
  import opened Basics
  import opened Messages
  import opened Registry
  import opened RegistryAtomic
  import RegistryExact
  import RegistryReplies

  lemma AllStoppedAppends(boots: map<BootId, Boot>, index: map<int, BootId>, q: seq<BootId>, b: BootId)
    ensures AllStopped(boots, q + [b]) == Stopped(AllStopped(boots, q), b)
    ensures (index - Ports(boots, q)) - {if b in boots then boots[b].port else 0} == index - Ports(boots, q + [b])
  {
    assert forall d :: d in q + [b] <==> d in q || d == b;
    assert Ports(boots, q + [b]) == Ports(boots, q) + {if b in boots then boots[b].port else 0};
  }

  class RegisterHandler {
    const config: Config
    var routeMapping: map<string, Channel>
    var dynamicBoot: map<int, BootId>
    var registerChannel: map<Channel, seq<string>>
    var channelDynamicBoot: map<Channel, seq<BootId>>
    var boots: map<BootId, Boot>
    var closing: set<Channel>
    var replies: map<Channel, seq<SysMessage>>
    var authenticated: set<Channel>

    constructor (config: Config)
      ensures this.config == config && View() == INIT.tables && authenticated == {}
    {
      this.config := config;
      routeMapping, dynamicBoot, registerChannel, channelDynamicBoot := map[], map[], map[], map[];
      boots, closing, replies, authenticated := map[], {}, map[], {};
    }

    ghost function View(): Tables
      reads this
    {
      Tables(routeMapping, dynamicBoot, registerChannel, channelDynamicBoot, boots, closing, replies)
    }

    /** The gate answers every message of a channel that has not authenticated; `passed`
        says whether the message goes on to the handlers behind it. */
    method Authenticate(ch: Channel, m: SysMessage) returns (passed: bool)
      modifies this`authenticated, this`replies
      ensures passed <==> ch in old(authenticated)
      ensures authenticated
        == old(authenticated) + (if m.command == AUTH && m.token == config.token && !passed then {ch} else {})
      ensures passed || (m.command == AUTH && m.token != config.token) ==> replies == old(replies)
      ensures !passed && m.command == AUTH && m.token == config.token ==>
        replies == Push(old(replies), ch, SysMessage(0, AUTH, "", 1, None))
      ensures !passed && m.command != AUTH ==> replies == Push(old(replies), ch, SysMessage(0, AUTH, "", 0, None))
    {
      passed := ch in authenticated;
      if passed {
        return;
      }
      if m.command == AUTH {
        if m.token != config.token {
          return;
        }
        replies := Push(replies, ch, AuthReply(1));
        authenticated := authenticated + {ch};
        return;
      }
      replies := Push(replies, ch, AuthReply(0));
    }

    method RegisterOnDefaultPort(ch: Channel, id: nat, reg: Register, found: Found)
      modifies this
      ensures View() == RegisterDefaultPort(config, old(View()), ch, id, reg, found)
        && authenticated == old(authenticated)
      ensures At(replies, ch) == At(old(replies), ch)
        + [if reg.name in old(routeMapping) then SysMessage(id, REGISTER, "", 0, Some(reg))
           else SysMessage(id, REGISTER, "", 1, Some(reg.(newPort := config.httpPort)))]
    {
      RegistryReplies.DefaultPortMeans(config, View(), ch, id, reg, found);
      var answer;
      if reg.name in routeMapping {
        answer := RegisterReply(id, reg, 0);
        if ClosesHolder(found) {
          closing := closing + {routeMapping[reg.name]};
        }
      } else {
        routeMapping := routeMapping[reg.name := ch];
        answer := RegisterReply(id, reg.(newPort := config.httpPort), 1);
        registerChannel := Push(registerChannel, ch, reg.name);
      }
      replies := Push(replies, ch, answer);
    }

    /** `found.newBoot` is the identity of the boot object that is created. */
    method RegisterOnNewPort(ch: Channel, id: nat, reg: Register, found: Found)
      modifies this
      ensures View() == RegisterNewPort(old(View()), ch, id, reg, found) && authenticated == old(authenticated)
      ensures At(replies, ch) == At(old(replies), ch)
        + (if reg.newPort in old(dynamicBoot) then [SysMessage(id, REGISTER, "", 2, Some(reg))]
           else if found.newBoot !in old(boots) && found.newBoot in boots
             then [SysMessage(id, REGISTER, "", 1, Some(reg))]
           else [])
    {
      var answer;
      if reg.newPort !in dynamicBoot {
        var started := StartBoot(ch, reg, found);
        if !started {
          return;
        }
        dynamicBoot := dynamicBoot[reg.newPort := found.newBoot];
        channelDynamicBoot := Push(channelDynamicBoot, ch, found.newBoot);
        answer := RegisterReply(id, reg, 1);
      } else {
        if EvictsBoot(found) {
          var b := dynamicBoot[reg.newPort];
          dynamicBoot := dynamicBoot - {if b in boots then boots[b].port else 0};
          StopBoot(b);
          if b in boots {
            closing := closing + {boots[b].owner};
          }
        }
        answer := RegisterReply(id, reg, 2);
      }
      replies := Push(replies, ch, answer);
    }

    /** Starting a boot whose port is taken throws, and the registration ends there. */
    method StartBoot(ch: Channel, reg: Register, found: Found) returns (started: bool)
      modifies this`boots
      ensures started <==>
        (&& found.bindable && found.newBoot !in old(boots)
         && forall b :: b in old(boots) && old(boots)[b].port == reg.newPort ==> !old(boots)[b].listening)
      ensures boots == if started then old(boots)[found.newBoot := Boot(reg.newPort, reg.name, ch, reg.protocol, true)]
        else old(boots)
    {
      started := found.bindable && found.newBoot !in boots && forall b :: b in boots && boots[b].port == reg.newPort ==>
        !boots[b].listening;
      if started {
        boots := boots[found.newBoot := Boot(reg.newPort, reg.name, ch, reg.protocol, true)];
      }
    }

    method StopBoot(b: BootId)
      modifies this`boots
      ensures boots == Stopped(old(boots), b)
    {
      if b in boots {
        boots := boots[b := boots[b].(listening := false)];
      }
    }

    method HandleCancelRegister(ch: Channel, id: nat, reg: Register)
      modifies this
      ensures View() == CancelRegister(old(View()), ch, id, reg) && authenticated == old(authenticated)
      ensures At(replies, ch) == At(old(replies), ch) + [SysMessage(id, CANCEL_REGISTER, "", 0, Some(reg))]
    {
      if reg.name in routeMapping {
        routeMapping := routeMapping - {reg.name};
      } else {
        var q := At(channelDynamicBoot, ch);
        var i := 0;
        while i < |q|
          invariant 0 <= i <= |q|
          invariant View() == old(View()) && authenticated == old(authenticated)
          invariant FirstNamed(boots, q, reg.name) == FirstNamed(boots, q[i..], reg.name)
        {
          var b := q[i];
          if b in boots && boots[b].name == reg.name {
            dynamicBoot := dynamicBoot - {boots[b].port};
            StopBoot(b);
            break;
          }
          i := i + 1;
        }
      }
      replies := Push(replies, ch, Echo(id, reg));
    }

    /** A channel that has no route yet starts with a list that says so exactly, and the
        lists of the others stay. */
    method ChannelActive(ch: Channel)
      modifies this`registerChannel, this`channelDynamicBoot
      ensures (forall n :: n in routeMapping ==> routeMapping[n] != ch) ==>
        RegistryExact.Inverse(routeMapping, registerChannel, ch)
      ensures forall d :: d != ch ==>
        At(registerChannel, d) == At(old(registerChannel), d)
          && At(channelDynamicBoot, d) == At(old(channelDynamicBoot), d)
      ensures registerChannel == old(registerChannel)[ch := []]
        && channelDynamicBoot == old(channelDynamicBoot)[ch := []]
    {
      registerChannel := registerChannel[ch := []];
      channelDynamicBoot := channelDynamicBoot[ch := []];
    }

    method ChannelInactive(ch: Channel)
      modifies this
      ensures View() == Disconnect(old(View()), ch) && authenticated == old(authenticated)
    {
      var list := At(registerChannel, ch);
      var i := 0;
      while i < |list|
        invariant 0 <= i <= |list|
        invariant View() == old(View()).(route := old(routeMapping) - NameSet(list[..i]))
        invariant authenticated == old(authenticated)
      {
        routeMapping := routeMapping - {list[i]};
        i := i + 1;
        assert list[..i] == list[..i - 1] + [list[i - 1]];
        assert NameSet(list[..i]) == NameSet(list[..i - 1]) + {list[i - 1]};
      }
      assert list[..i] == list;
      var dynamicBoots := At(channelDynamicBoot, ch);
      ghost var began := View();
      assert AllStopped(boots, []) == boots && dynamicBoot - Ports(boots, []) == dynamicBoot;
      i := 0;
      while i < |dynamicBoots|
        invariant 0 <= i <= |dynamicBoots|
        invariant View() == began.(dynamicBoot := began.dynamicBoot - Ports(began.boots, dynamicBoots[..i]),
                                   boots := AllStopped(began.boots, dynamicBoots[..i]))
        invariant authenticated == old(authenticated)
      {
        var b := dynamicBoots[i];
        AllStoppedAppends(began.boots, began.dynamicBoot, dynamicBoots[..i], b);
        dynamicBoot := dynamicBoot - {if b in boots then boots[b].port else 0};
        StopBoot(b);
        i := i + 1;
        assert dynamicBoots[..i] == dynamicBoots[..i - 1] + [b];
      }
      assert dynamicBoots[..i] == dynamicBoots;
    }
  }
}
