/** The handlers of the forwarding protocol over the shared tables, as the program runs
    them: each takes a valid state to the state after the protocol's step, which is
    valid again. */
module ForwardingHandlers {
  import opened Basics
  import opened Forwarding
  import opened ForwardingSafety
  import opened ForwardingConservation
  import opened ForwardingOrder
  import opened ForwardingRace
  import opened ForwardingTheorems
  import Routing

  // ---------------------------------------------------------------- steps

  /** Every step keeps what the protocol guarantees. */
  lemma Keeps(s: State, e: Event)
    requires Invariant(s)
    ensures Invariant(Step(s, e))
  {
    SafeStep(s, e);
    PresentStep(s, e);
    ConservedStep(s, e);
    OpeningsStep(s, e);
    InOrderStep(s, e);
    InLineStep(s, e);
  }

  lemma HttpStep(s: State, p: Public, c: Conn, service: string, id: Id, body: Bytes, upgrade: bool)
    requires Enabled(s, HttpRequest(p, c, service, id, body, upgrade))
    ensures Step(s, HttpRequest(p, c, service, id, body, upgrade)) == OnHttpRequest(s, p, c, service, id, body, upgrade)
  {
  }

  lemma TcpStep(s: State, p: Public, newId: Id, body: Bytes)
    requires Enabled(s, TcpChunk(p, newId, body))
    ensures Step(s, TcpChunk(p, newId, body)) == OnTcpChunk(s, p, newId, body)
  {
  }

  lemma WebSocketStep(s: State, p: Public, body: Bytes)
    requires Enabled(s, WebSocketChunk(p, body))
    ensures Step(s, WebSocketChunk(p, body)) == OnWebSocketChunk(s, s.server.upgraded[p], body)
  {
  }

  lemma CloseStep(s: State, p: Public)
    requires Enabled(s, PublicCloses(p))
    ensures Step(s, PublicCloses(p)) == OnPublicCloses(s, p)
  {
  }

  lemma WriteStep(s: State, c: Conn)
    requires Enabled(s, WriteCompletes(c, true))
    ensures Step(s, WriteCompletes(c, true)) == OnWriteSucceeds(s, c)
    ensures Step(s, WriteCompletes(c, false)) == OnWriteFails(s, c)
  {
  }

  lemma ResponseStep(s: State, c: Conn)
    requires Enabled(s, ResponseArrives(c))
    ensures Step(s, ResponseArrives(c)) == OnResponseArrives(s, c)
  {
  }

  lemma RequestStep(s: State, c: Conn, ok: bool)
    requires Enabled(s, RequestArrives(c, ok))
    ensures Step(s, RequestArrives(c, ok)) == OnRequestArrives(s, c, ok)
  {
  }

  lemma ConnectedStep(s: State, k: nat, b: Backend, written: bool)
    requires Enabled(s, ConnectCompletes(k, true, b, written))
    ensures Step(s, ConnectCompletes(k, true, b, written)) == OnConnectSucceeds(s, k, b, written)
    ensures Step(s, ConnectCompletes(k, false, b, written)) == OnConnectFails(s, k)
  {
  }

  lemma ReadStep(s: State, b: Backend, body: Bytes)
    requires Enabled(s, BackendReads(b, body))
    ensures Step(s, BackendReads(b, body)) == OnBackendReads(s, b, body)
  {
  }

  lemma UnmapStep(s: State, b: Backend)
    requires Enabled(s, BackendUnmapped(b))
    ensures Step(s, BackendUnmapped(b)) == OnBackendUnmapped(s, b)
  {
  }

  // ---------------------------------------------------------------- what a handler finds

  /** A completed connect maps its id to the new backend and links the backend to it. */
  lemma LinkConnects(s: State, k: nat, b: Backend, written: bool)
    requires Enabled(s, ConnectCompletes(k, true, b, written))
    ensures var n, t := s.client.connects[k], OnConnectSucceeds(s, k, b, written);
      && t.client.clientMapping == s.client.clientMapping[(s.net.clientOf[n.conn], n.request.id) := b]
      && t.client.links == s.client.links[b := Link(n.request.id, n.conn, n.target)] && t.net == s.net
  {
  }

  /** A closing backend unmaps nothing but its own id. */
  lemma UnmapsOwn(s: State, b: Backend)
    requires Invariant(s) && Enabled(s, BackendUnmapped(b))
    ensures var mapping, later := s.client.clientMapping, OnBackendUnmapped(s, b).client.clientMapping;
      forall k :: k in mapping && k !in later ==>
        k.1 == s.client.links[b].id && mapping[k] in s.client.links
        && s.client.links[mapping[k]].id == s.client.links[b].id
  {
  }

  /** The next response of a tunnel belongs to a channel; it is mapped to that channel, if
      it is mapped at all, and it is mapped if the channel is open. */
  lemma ResponseFinds(s: State, c: Conn)
    requires Invariant(s) && At(s.net.up, c) != []
    ensures var i, mapping := At(s.net.up, c)[0].id, s.server.requestMapping;
      && i in s.record.owner
      && (i in mapping ==> mapping[i] == s.record.owner[i].pub)
      && (s.record.owner[i].pub in s.server.openPublics ==> i in mapping)
  {
    assert UpResponse(s.record.owner, s.client.links, s.record.heard, c, At(s.net.up, c)[0]);
  }

  /** The listener of the next write has captured the channel that the request's id was
      generated for. */
  lemma WriteFinds(s: State, c: Conn)
    requires Invariant(s) && At(s.net.outbound, c) != [] && At(s.net.listeners, c) != []
    ensures var m, l := At(s.net.outbound, c)[0], At(s.net.listeners, c)[0];
      && m.Request? && m.id in s.record.owner
      && l == if m.http then Some(Listener(m.id, s.record.owner[m.id].pub)) else None
  {
    ListenersPop(s.record.owner, s.net.outbound, s.net.listeners, c);
    QueuesPop(s.record.owner, s.record.chunks, s.net.outbound, c);
  }

  /** A mapped request goes to a backend that was opened for its id, on its tunnel. */
  lemma RequestFinds(s: State, c: Conn)
    requires Invariant(s) && c in s.net.clientOf && At(s.net.down, c) != []
    ensures var i := At(s.net.down, c)[0].id;
      && i in s.record.owner && At(s.net.down, c)[0].Request?
      && (IsMapped(s, c) ==>
            var b := s.client.clientMapping[(s.net.clientOf[c], i)];
            b in s.client.links && s.client.links[b].id == i && s.client.links[b].conn == c)
  {
    QueuesPop(s.record.owner, s.record.chunks, s.net.down, c);
  }

  predicate Contains(s: string, t: string) {
    exists i | 0 <= i <= |s| :: Routing.Occurs(s, t, i)
  }

  /** A request asks for an upgrade in its `Connection` header. */
  predicate Upgrades(blank: char -> bool, connection: Option<string>) {
    connection.Some? && !IsBlank(blank, connection.value) && Contains(connection.value, "Upgrade")
  }

  /** That is: the header is not blank and has the word somewhere in it. */
  lemma UpgradesWhen(blank: char -> bool, header: string)
    ensures Upgrades(blank, Some(header)) <==>
      !IsBlank(blank, header) && exists a: string, b: string :: Around(a, "Upgrade", b) == header
    ensures !Upgrades(blank, None)
  {
    if Contains(header, "Upgrade") {
      var i :| 0 <= i <= |header| && Routing.Occurs(header, "Upgrade", i);
      assert Around(header[..i], "Upgrade", header[i + |"Upgrade"|..]) == header;
    }
    if a: string, b: string :| Around(a, "Upgrade", b) == header {
      assert header[|a|..|a| + |"Upgrade"|] == "Upgrade";
      assert Routing.Occurs(header, "Upgrade", |a|);
    }
  }

  function Around(a: string, word: string, b: string): string {
    a + word + b
  }

  /** A request on the shared port: its path, the header that names a service, and its
      `Connection` header. */
  datatype Input = Input(uri: string, path: Option<string>, connection: Option<string>, body: Bytes)

  datatype Outcome = Forwarded | Refused | Thrown

  /** The tables and channel attributes of both processes and the queues between them.
      `record` is written along; only the numbers of messages are taken from it. */
  class Handlers {
    var kind: map<Public, Kind>
    var openPublics: set<Public>
    var tcpFlag: map<Public, Id>
    var upgraded: map<Public, WebSocket>
    var requestMapping: map<Id, Public>
    var clientOf: map<Conn, Client>
    var openConns: set<Conn>
    var outbound: map<Conn, seq<Message>>
    var listeners: map<Conn, seq<Option<Listener>>>
    var down: map<Conn, seq<Message>>
    var up: map<Conn, seq<Message>>
    var forward: map<Conn, map<string, Service>>
    var clientMapping: map<(Client, Id), Backend>
    var connects: seq<Connect>
    var links: map<Backend, Link>
    var openBackends: set<Backend>
    var record: Record

    ghost function View(): State
      reads this
    {
      State(Server(kind, openPublics, tcpFlag, upgraded, requestMapping),
            Net(clientOf, openConns, outbound, listeners, down, up),
            Clients(forward, clientMapping, connects, links, openBackends), record)
    }

    /** Everything the protocol guarantees in every run. */
    ghost predicate Valid()
      reads this
    {
      Invariant(View())
    }

    constructor ()
      ensures Valid() && View() == INIT
    {
      kind, openPublics, tcpFlag, upgraded, requestMapping := map[], {}, map[], map[], map[];
      clientOf, openConns, outbound, listeners, down, up := map[], {}, map[], map[], map[], map[];
      forward, clientMapping, connects, links, openBackends := map[], map[], [], map[], {};
      record := INIT.record;
      new;
      EveryRun([]);
    }

    // ---------------------------------------------------------------- the server's handlers

    /** A request was read on the shared port.  Only a path or header that names a routed
        service is forwarded, to the tunnel of that service; nothing else changes
        anything. */
    method HttpServerRead(p: Public, input: Input, routes: map<string, Conn>, blank: char -> bool, id: Id)
      returns (outcome: Outcome)
      requires Valid() && p in openPublics && p in kind && kind[p].RoutePort? && p !in upgraded
      requires id !in record.owner && forall n :: n in routes ==> routes[n] in clientOf
      modifies this
      ensures Valid()
      ensures var route := Routing.RouteOf(blank, input.uri, input.path);
        if route.To? && route.name in routes then
          && outcome == Forwarded
          && View() == Step(old(View()), HttpRequest(
                p, routes[route.name], route.name, id, input.body, Upgrades(blank, input.connection)))
        else outcome == (if route.Throws? then Thrown else Refused) && View() == old(View())
    {
      match Routing.RouteOf(blank, input.uri, input.path) {
        case BadRequest =>
          return Refused;
        case Throws =>
          return Thrown;
        case To(name) =>
          if name !in routes {
            return Refused;
          }
          HttpRead(p, routes[name], name, id, input.body, Upgrades(blank, input.connection));
          return Forwarded;
      }
    }

    /** A request for a known service was read. */
    method HttpRead(p: Public, c: Conn, service: string, id: Id, body: Bytes, upgrade: bool)
      requires Valid() && Enabled(View(), HttpRequest(p, c, service, id, body, upgrade))
      modifies this
      ensures Valid() && View() == Step(old(View()), HttpRequest(p, c, service, id, body, upgrade))
    {
      Keeps(View(), HttpRequest(p, c, service, id, body, upgrade));
      HttpStep(View(), p, c, service, id, body, upgrade);
      ForwardHttp(p, c, service, id, body, upgrade);
    }

    /** Bytes were read from a public channel of a TCP service. */
    method TcpRead(p: Public, newId: Id, body: Bytes)
      requires Valid() && Enabled(View(), TcpChunk(p, newId, body))
      modifies this
      ensures Valid() && View() == Step(old(View()), TcpChunk(p, newId, body))
    {
      Keeps(View(), TcpChunk(p, newId, body));
      TcpStep(View(), p, newId, body);
      ForwardTcp(p, newId, body);
    }

    /** Bytes were read from an upgraded public channel: they are sent under the id that
        was generated for this channel, to the tunnel of that id. */
    method WebSocketRead(p: Public, body: Bytes) returns (id: Id)
      requires Valid() && Enabled(View(), WebSocketChunk(p, body))
      modifies this
      ensures Valid() && View() == Step(old(View()), WebSocketChunk(p, body))
      ensures id in record.owner && record.owner[id].pub == p && record.owner[id].conn == upgraded[p].conn
    {
      Keeps(View(), WebSocketChunk(p, body));
      WebSocketStep(View(), p, body);
      id := upgraded[p].id;
      Send(upgraded[p].conn, id, body, None, false, None);
    }

    /** A public channel closed: only mappings that lead to it are removed. */
    method PublicInactive(p: Public)
      requires Valid() && Enabled(View(), PublicCloses(p))
      modifies this
      ensures Valid() && View() == Step(old(View()), PublicCloses(p))
      ensures forall i :: i in old(requestMapping) && i !in requestMapping ==> old(requestMapping)[i] == p
    {
      Keeps(View(), PublicCloses(p));
      CloseStep(View(), p);
      DropMapping(p);
    }

    /** The write at the head of a tunnel's queue completes and its listener runs: an HTTP
        request is mapped to the channel its id was generated for, and nothing else is
        mapped. */
    method WriteSucceeds(c: Conn)
      requires Valid() && Enabled(View(), WriteCompletes(c, true))
      modifies this
      ensures Valid() && View() == Step(old(View()), WriteCompletes(c, true))
      ensures var m := At(old(outbound), c)[0];
        && m.Request? && m.id in record.owner
        && requestMapping == if m.http then old(requestMapping)[m.id := record.owner[m.id].pub] else old(requestMapping)
    {
      Keeps(View(), WriteCompletes(c, true));
      WriteStep(View(), c);
      WriteFinds(View(), c);
      CompleteWrite(c);
    }

    /** The write fails: nothing is mapped. */
    method WriteFails(c: Conn)
      requires Valid() && Enabled(View(), WriteCompletes(c, false))
      modifies this
      ensures Valid() && View() == Step(old(View()), WriteCompletes(c, false)) && requestMapping == old(requestMapping)
    {
      Keeps(View(), WriteCompletes(c, false));
      WriteStep(View(), c);
      FailWrite(c);
    }

    /** A response was read from a tunnel: it is written to the channel that its id was
        generated for, if that is still open, and to no other. */
    method ResponseRead(c: Conn) returns (to: Option<Public>)
      requires Valid() && Enabled(View(), ResponseArrives(c))
      modifies this
      ensures Valid() && View() == Step(old(View()), ResponseArrives(c))
      ensures var i := At(old(up), c)[0].id;
        && i in record.owner
        && to == if record.owner[i].pub in openPublics then Some(record.owner[i].pub) else None
    {
      Keeps(View(), ResponseArrives(c));
      ResponseStep(View(), c);
      ResponseFinds(View(), c);
      to := Deliver(c);
    }

    // ---------------------------------------------------------------- the client's handlers

    /** A request was read from a tunnel.  It is written to a backend only if that was
        opened for its id on this tunnel; `thrown` says that it has none and that its
        service is missing, unknown or unfit. */
    method RequestRead(c: Conn, ok: bool) returns (to: Option<Backend>, thrown: bool)
      requires Valid() && Enabled(View(), RequestArrives(c, ok))
      modifies this
      ensures Valid() && View() == Step(old(View()), RequestArrives(c, ok))
      ensures var m := At(old(down), c)[0];
        m.Request? && (thrown <==>
          (&& (clientOf[c], m.id) !in old(clientMapping)
           && (|| m.service.None? || c !in forward || m.service.value !in forward[c]
               || (!m.http && !forward[c][m.service.value].tcp))))
      ensures var key := (clientOf[c], At(old(down), c)[0].id);
        to == if key in old(clientMapping) then Some(old(clientMapping)[key]) else None
      ensures to.Some? ==>
        to.value in links && links[to.value].id == At(old(down), c)[0].id && links[to.value].conn == c
    {
      Keeps(View(), RequestArrives(c, ok));
      RequestStep(View(), c, ok);
      RequestFinds(View(), c);
      to, thrown := HandleData(c, ok);
    }

    /** A connect completed: the backend takes over its id, and the request that opened the
        connection is the first it is given. */
    method ConnectSucceeds(k: nat, b: Backend, written: bool)
      requires Valid() && Enabled(View(), ConnectCompletes(k, true, b, written))
      modifies this
      ensures Valid() && View() == Step(old(View()), ConnectCompletes(k, true, b, written))
      ensures var n := old(connects)[k]; clientMapping == old(clientMapping)[(clientOf[n.conn], n.request.id) := b]
      ensures var n := old(connects)[k]; links == old(links)[b := Link(n.request.id, n.conn, n.target)]
      ensures At(record.inputs, b) == if written then [old(connects)[k].request] else []
    {
      Keeps(View(), ConnectCompletes(k, true, b, written));
      ConnectedStep(View(), k, b, written);
      assert b !in record.inputs;
      LinkConnects(View(), k, b, written);
      AttachBackend(k, b, written);
    }

    method ConnectFails(k: nat, b: Backend)
      requires Valid() && Enabled(View(), ConnectCompletes(k, false, b, false))
      modifies this
      ensures Valid() && View() == Step(old(View()), ConnectCompletes(k, false, b, false))
      ensures clientMapping == old(clientMapping) && links == old(links)
    {
      Keeps(View(), ConnectCompletes(k, false, b, false));
      ConnectedStep(View(), k, b, false);
      DropConnect(k);
    }

    /** Bytes were read from a backend. */
    method BackendRead(b: Backend, body: Bytes)
      requires b in links && Valid() && Enabled(View(), BackendReads(b, body))
      modifies this`up, this`record
      ensures links[b].id in record.owner && record.owner[links[b].id].conn == links[b].conn
      ensures Valid() && View() == Step(old(View()), BackendReads(b, body))
    {
      Keeps(View(), BackendReads(b, body));
      ReadStep(View(), b, body);
      Tag(b, body);
    }

    /** A backend closed or failed: whatever its id was mapped to, on its own client, is
        mapped no longer. */
    method BackendInactive(b: Backend)
      requires b in links && Valid() && Enabled(View(), BackendUnmapped(b))
      modifies this`clientMapping
      ensures links[b].conn in clientOf
      ensures clientMapping == old(clientMapping) - {(clientOf[links[b].conn], links[b].id)}
      ensures forall k :: k in old(clientMapping) && k !in clientMapping ==>
        k.1 == links[b].id && old(clientMapping)[k] in links && links[old(clientMapping)[k]].id == links[b].id
      ensures Valid() && View() == Step(old(View()), BackendUnmapped(b))
    {
      Keeps(View(), BackendUnmapped(b));
      UnmapStep(View(), b);
      UnmapsOwn(View(), b);
      Unmap(b);
    }

    // ---------------------------------------------------------------- what they assign

    /** Hand a request and the listener of its write to the tunnel, on record as the next
        chunk of its id. */
    method Send(c: Conn, id: Id, body: Bytes, service: Option<string>, http: bool, l: Option<Listener>)
      modifies this`outbound, this`listeners, this`record
      ensures View() == Write(Log(old(View()), id, body), c,
        Request(id, body, service, http, |At(old(record).chunks, id)|), l)
    {
      var m := Request(id, body, service, http, |At(record.chunks, id)|);
      record := record.(chunks := Push(record.chunks, id, body));
      if c in openConns {
        outbound := Push(outbound, c, m);
        listeners := Push(listeners, c, l);
      } else {
        record := record.(lost := record.lost + {id});
      }
    }

    method ForwardHttp(p: Public, c: Conn, service: string, id: Id, body: Bytes, upgrade: bool)
      requires id !in record.owner
      modifies this
      ensures View() == OnHttpRequest(old(View()), p, c, service, id, body, upgrade)
    {
      if upgrade {
        upgraded := upgraded[p := WebSocket(id, c)];
      }
      tcpFlag := tcpFlag[p := id];
      record := record.(owner := record.owner[id := Owner(p, c, service)]);
      Send(c, id, body, Some(service), true, Some(Listener(id, p)));
    }

    /** The id of a TCP channel, generated on its first chunk. */
    method Identify(p: Public, newId: Id) returns (id: Id)
      requires p in kind && kind[p].TcpPort?
      modifies this`tcpFlag, this`record
      ensures id == TcpId(old(View()), p, newId) && tcpFlag == old(tcpFlag)[p := id]
      ensures record == if p in old(tcpFlag) then old(record)
        else old(record).(owner := old(record).owner[id := Owner(p, kind[p].conn, kind[p].service)])
    {
      if p in tcpFlag {
        return tcpFlag[p];
      }
      id := newId;
      tcpFlag := tcpFlag[p := id];
      record := record.(owner := record.owner[id := Owner(p, kind[p].conn, kind[p].service)]);
    }

    method ForwardTcp(p: Public, newId: Id, body: Bytes)
      requires p in kind && kind[p].TcpPort?
      requires p in tcpFlag || newId !in record.owner
      modifies this
      ensures View() == OnTcpChunk(old(View()), p, newId, body)
    {
      var id := Identify(p, newId);
      InsertMapping(id, p);
      Send(kind[p].conn, id, body, Some(kind[p].service), false, None);
    }

    method DropMapping(p: Public)
      modifies this`openPublics, this`requestMapping
      ensures View() == OnPublicCloses(old(View()), p)
    {
      openPublics := openPublics - {p};
      if p in upgraded {
        requestMapping := requestMapping - {upgraded[p].id};
      } else if p in tcpFlag {
        requestMapping := requestMapping - {tcpFlag[p]};
      }
    }

    method CompleteWrite(c: Conn)
      requires At(outbound, c) != [] && At(listeners, c) != []
      modifies this
      ensures View() == OnWriteSucceeds(old(View()), c)
    {
      var l := Transmit(c);
      if l.Some? {
        InsertMapping(l.value.id, l.value.pub);
      }
    }

    method Transmit(c: Conn) returns (l: Option<Listener>)
      requires At(outbound, c) != [] && At(listeners, c) != []
      modifies this`outbound, this`listeners, this`down
      ensures l == At(old(listeners), c)[0] && outbound == Pop(old(outbound), c) && listeners == Pop(old(listeners), c)
      ensures down == Push(old(down), c, At(old(outbound), c)[0])
    {
      l := At(listeners, c)[0];
      down := Push(down, c, At(outbound, c)[0]);
      outbound := Pop(outbound, c);
      listeners := Pop(listeners, c);
    }

    method InsertMapping(id: Id, p: Public)
      modifies this`requestMapping, this`record
      ensures requestMapping == old(requestMapping)[id := p]
      ensures record == old(record).(inserted := old(record).inserted + {id})
    {
      requestMapping := requestMapping[id := p];
      record := record.(inserted := record.inserted + {id});
    }

    method FailWrite(c: Conn)
      requires At(outbound, c) != [] && At(listeners, c) != []
      modifies this`outbound, this`listeners, this`record
      ensures View() == OnWriteFails(old(View()), c)
    {
      record := record.(lost := record.lost + {At(outbound, c)[0].id});
      outbound := Pop(outbound, c);
      listeners := Pop(listeners, c);
    }

    method Deliver(c: Conn) returns (to: Option<Public>)
      requires At(up, c) != []
      modifies this`up, this`record
      ensures View() == OnResponseArrives(old(View()), c)
      ensures var i := At(old(up), c)[0].id;
        to == if i in requestMapping && requestMapping[i] in openPublics then Some(requestMapping[i]) else None
    {
      var m := At(up, c)[0];
      up := Pop(up, c);
      to := None;
      if m.id in requestMapping {
        var p := requestMapping[m.id];
        if p in openPublics {
          record := record.(delivered := Push(record.delivered, p, m));
          to := Some(p);
        }
      }
    }

    method HandleData(c: Conn, ok: bool) returns (to: Option<Backend>, thrown: bool)
      requires c in clientOf && At(down, c) != []
      modifies this
      ensures View() == OnRequestArrives(old(View()), c, ok)
      ensures thrown <==> !IsMapped(old(View()), c) && !Opens(old(View()), c, At(old(down), c)[0])
      ensures to == if IsMapped(old(View()), c)
        then Some(clientMapping[(clientOf[c], At(old(down), c)[0].id)]) else None
    {
      var m := At(down, c)[0];
      var key := (clientOf[c], m.id);
      if key in clientMapping {
        WriteToBackend(c, clientMapping[key], ok);
        return Some(clientMapping[key]), false;
      }
      if m.Request? && m.service.Some? && c in forward && m.service.value in forward[c] {
        var target := forward[c][m.service.value];
        if target.tcp || m.http {
          StartConnect(c, target);
          return None, false;
        }
      }
      down := Pop(down, c);
      record := record.(lost := record.lost + {m.id});
      return None, true;
    }

    method WriteToBackend(c: Conn, b: Backend, ok: bool)
      requires At(down, c) != []
      modifies this`down, this`record
      ensures View() == OnRequestForBackend(old(View()), c, b, ok)
    {
      var m := At(down, c)[0];
      down := Pop(down, c);
      if ok && b in openBackends {
        record := record.(inputs := Push(record.inputs, b, m));
      } else {
        record := record.(lost := record.lost + {m.id});
      }
    }

    method StartConnect(c: Conn, target: Service)
      requires At(down, c) != [] && Opens(View(), c, At(down, c)[0])
        && target == forward[c][At(down, c)[0].service.value]
      modifies this
      ensures View() == OnRequestForService(old(View()), c)
    {
      var m := At(down, c)[0];
      down := Pop(down, c);
      if IsConnecting(connects, m.id) {
        record := record.(raced := record.raced + {m.id});
      }
      connects := connects + [Forwarding.Connect(m, c, target)];
    }

    method AttachBackend(k: nat, b: Backend, written: bool)
      requires k < |connects| && connects[k].conn in clientOf && b !in links
      modifies this`connects, this`clientMapping, this`links, this`openBackends, this`record
      ensures View() == OnConnectSucceeds(old(View()), k, b, written)
    {
      var n := connects[k];
      connects := connects[..k] + connects[k + 1..];
      Attach(n, b);
      RecordOpening(n, b, written);
      assert record == OnConnectSucceeds(old(View()), k, b, written).record;
    }

    method Attach(n: Connect, b: Backend)
      requires n.conn in clientOf
      modifies this`clientMapping, this`links, this`openBackends
      ensures clientMapping == old(clientMapping)[(clientOf[n.conn], n.request.id) := b]
      ensures links == old(links)[b := Link(n.request.id, n.conn, n.target)] && openBackends == old(openBackends) + {b}
    {
      clientMapping := clientMapping[(clientOf[n.conn], n.request.id) := b];
      links := links[b := Link(n.request.id, n.conn, n.target)];
      openBackends := openBackends + {b};
    }

    method RecordOpening(n: Connect, b: Backend, written: bool)
      modifies this`record
      ensures record == old(record).(
        openings := Push(old(record).openings, n.request.id, b),
        inputs := if written then Push(old(record).inputs, b, n.request) else old(record).inputs,
        lost := if written then old(record).lost else old(record).lost + {n.request.id})
    {
      record := record.(openings := Push(record.openings, n.request.id, b));
      if written {
        record := record.(inputs := Push(record.inputs, b, n.request));
      } else {
        record := record.(lost := record.lost + {n.request.id});
      }
    }

    method DropConnect(k: nat)
      requires k < |connects|
      modifies this`connects, this`record
      ensures View() == OnConnectFails(old(View()), k)
    {
      record := record.(lost := record.lost + {connects[k].request.id});
      connects := connects[..k] + connects[k + 1..];
    }

    method Tag(b: Backend, body: Bytes)
      requires b in links
      modifies this`up, this`record
      ensures View() == OnBackendReads(old(View()), b, body)
    {
      var l := links[b];
      var m := Response(l.id, body, b, |At(record.heard, b)|);
      record := record.(heard := Push(record.heard, b, body));
      if l.conn in openConns {
        up := Push(up, l.conn, m);
        record := record.(sent := Push(record.sent, l.id, m));
      }
    }

    method Unmap(b: Backend)
      requires b in links && links[b].conn in clientOf
      modifies this`clientMapping
      ensures View() == OnBackendUnmapped(old(View()), b)
    {
      clientMapping := clientMapping - {(clientOf[links[b].conn], links[b].id)};
    }
  }
}
