/** Lists and routes when handlers interleave: looking a name up and putting it are two
    operations, so two channels can both find a name free and both put it. */
module RegistryInterleaved {
  import opened Basics
  import opened Messages
  import opened Registry
  import opened RegistrySafety
  import RegistryExact

  // ------------------------------------------------ operations on one name

  /** The event is the operation that puts `n` into the route table for its channel. */
  predicate Puts(s: State, e: Event, n: string) {
    Enabled(s, e) && e.Advances? && s.handler[e.ch].RoutePut? && s.handler[e.ch].reg.name == n
  }

  /** It is the operation of a cancel that removes `n`. */
  predicate Cancels(s: State, e: Event, n: string) {
    Enabled(s, e) && e.Advances? && s.handler[e.ch].CancelRoute? && s.handler[e.ch].reg.name == n
  }

  /** It is the operation of a disconnect that removes `n`. */
  predicate Drops(s: State, e: Event, n: string) {
    && Enabled(s, e) && e.Advances? && s.handler[e.ch].DropName?
    && s.handler[e.ch].k < |At(s.tables.names, e.ch)| && At(s.tables.names, e.ch)[s.handler[e.ch].k] == n
  }

  /** It puts `n` although the table has it. */
  predicate Overwrites(s: State, e: Event, n: string) {
    Puts(s, e, n) && n in s.tables.route
  }

  ghost predicate PutAt(c: Config, run: seq<Event>, j: nat, ch: Channel, n: string) {
    j < |run| && run[j].ch == ch && Puts(After(c, run[..j]), run[j], n)
  }

  ghost predicate CancelsAt(c: Config, run: seq<Event>, k: nat, n: string) {
    k < |run| && Cancels(After(c, run[..k]), run[k], n)
  }

  ghost predicate DropsAt(c: Config, run: seq<Event>, k: nat, n: string) {
    k < |run| && Drops(After(c, run[..k]), run[k], n)
  }

  ghost predicate OverwritesAt(c: Config, run: seq<Event>, k: nat, n: string) {
    k < |run| && Overwrites(After(c, run[..k]), run[k], n)
  }

  /** Only an operation of a handler touches the routes and the lists. */
  lemma TablesStep(c: Config, s: State, e: Event)
    ensures var t, ch := Step(c, s, e).tables, e.ch;
      if Enabled(s, e) && e.Advances? then
        && t.route == RouteAfter(s.tables, ch, s.handler[ch])
        && t.names == NamesAfter(s.tables, ch, s.handler[ch])
      else t.route == s.tables.route && t.names == s.tables.names
  {
    if Enabled(s, e) && e.Advances? {
      assert Step(c, s, e).tables == Operate(c, s.tables, e.ch, s.handler[e.ch], e.found);
    } else if Enabled(s, e) && e.Receives? {
      assert Step(c, s, e) == OnReceives(c, s, e.ch, e.m);
    }
  }

  /** Nothing else touches the route of a name. */
  lemma NameStep(c: Config, s: State, e: Event, n: string)
    ensures var r, u := s.tables.route, Step(c, s, e).tables.route;
      && (n in u <==> Puts(s, e, n) || (n in r && !Cancels(s, e, n) && !Drops(s, e, n)))
      && (n in u ==> u[n] == if Puts(s, e, n) then e.ch else r[n])
  {
    TablesStep(c, s, e);
  }

  predicate RoutedTo(s: State, ch: Channel, n: string) {
    n in s.tables.route && s.tables.route[n] == ch
  }

  // ------------------------------------------------ what a list holds

  /** The name is in the list of the channel, or about to be added to it. */
  predicate HasName(s: State, ch: Channel, n: string) {
    n in At(s.tables.names, ch) || (ch in s.handler && s.handler[ch].NameAdd? && s.handler[ch].reg.name == n)
  }

  lemma HasNameStep(c: Config, s: State, e: Event, ch: Channel, n: string)
    ensures HasName(Step(c, s, e), ch, n) <==> HasName(s, ch, n) || (Puts(s, e, n) && e.ch == ch)
  {
    TablesStep(c, s, e);
  }

  lemma {:induction false} PutLater(c: Config, run: seq<Event>, e: Event, ch: Channel, n: string)
    ensures (exists j: nat :: PutAt(c, run + [e], j, ch, n))
      <==> (exists j: nat :: PutAt(c, run, j, ch, n)) || (Puts(After(c, run), e, n) && e.ch == ch)
  {
    forall j: nat | j < |run| ensures PutAt(c, run + [e], j, ch, n) <==> PutAt(c, run, j, ch, n) {
      assert (run + [e])[..j] == run[..j];
    }
    assert (run + [e])[..|run|] == run;
    assert PutAt(c, run + [e], |run|, ch, n) <==> Puts(After(c, run), e, n) && e.ch == ch;
  }

  /** In every interleaving a channel's list holds exactly the names the channel has put at
      some time, but for the one it is just about to add. */
  lemma {:induction false} ListsAreHistory(c: Config, run: seq<Event>, ch: Channel, n: string)
    ensures HasName(After(c, run), ch, n) <==> exists j: nat :: PutAt(c, run, j, ch, n)
  {
    if run != [] {
      var before, last := run[..|run| - 1], run[|run| - 1];
      assert run == before + [last];
      ListsAreHistory(c, before, ch, n);
      HasNameStep(c, After(c, before), last, ch, n);
      PutLater(c, before, last, ch, n);
    }
  }

  // ------------------------------------------------ who took a route

  /** The channel's disconnect is being, or has been, processed. */
  predicate Leaving(s: State, ch: Channel) {
    ch in s.handler && Dropping(s.handler[ch])
  }

  lemma LeavingStays(c: Config, s: State, e: Event, ch: Channel)
    requires Leaving(s, ch)
    ensures Leaving(Step(c, s, e), ch)
  {
  }

  /** Event `k` took `n` from `ch`: a cancel of it by any channel, a put of it by another
      channel, or the disconnect of another channel that had put it once. */
  ghost predicate TakenAt(c: Config, run: seq<Event>, k: nat, ch: Channel, n: string) {
    && k < |run| && RoutedTo(After(c, run[..k]), ch, n)
    && (|| CancelsAt(c, run, k, n)
        || (OverwritesAt(c, run, k, n) && run[k].ch != ch)
        || (DropsAt(c, run, k, n) && run[k].ch != ch && exists i: nat :: PutAt(c, run[..k], i, run[k].ch, n)))
  }

  lemma {:induction false} LastTakes(c: Config, before: seq<Event>, last: Event, ch: Channel, n: string)
    requires RoutedTo(After(c, before), ch, n)
    requires !RoutedTo(Step(c, After(c, before), last), ch, n) && !Leaving(Step(c, After(c, before), last), ch)
    ensures TakenAt(c, before + [last], |before|, ch, n)
  {
    var s, run := After(c, before), before + [last];
    assert run[..|before|] == before;
    NameStep(c, s, last, n);
    if Drops(s, last, n) {
      if last.ch == ch {
        LeavingStays(c, s, last, ch);
      }
      ListsAreHistory(c, before, last.ch, n);
    }
  }

  /** In every interleaving: a channel that once put a name, is not disconnecting and no
      longer has it lost it, after the put, to such an event. */
  lemma {:induction false} WhoTookIt(c: Config, run: seq<Event>, j: nat, ch: Channel, n: string)
    requires PutAt(c, run, j, ch, n) && !Leaving(After(c, run), ch) && !RoutedTo(After(c, run), ch, n)
    ensures exists k: nat :: j < k && TakenAt(c, run, k, ch, n)
    decreases |run|
  {
    var before, last := run[..|run| - 1], run[|run| - 1];
    var s := After(c, before);
    assert run == before + [last];
    if j == |before| {
      assert run[..j] == before;
      NameStep(c, s, last, n);
    } else if RoutedTo(s, ch, n) {
      LastTakes(c, before, last, ch, n);
    } else {
      if Leaving(s, ch) {
        LeavingStays(c, s, last, ch);
      }
      assert run[..j] == before[..j];
      WhoTookIt(c, before, j, ch, n);
      var k: nat :| j < k && TakenAt(c, before, k, ch, n);
      assert run[..k] == before[..k];
      assert TakenAt(c, run, k, ch, n);
    }
  }

  // ------------------------------------------------ when the lists are exact

  /** What a channel has still to drop of a name is what is routed to it: it holds the name
      exactly if the name is routed to it, and it has it at most once. */
  ghost predicate ExactAt(s: State, ch: Channel, n: string) {
    var q := At(s.tables.names, ch);
    && (RoutedTo(s, ch, n) <==> ch in s.handler && NameHeld(q, s.handler[ch], n))
    && (forall i, j :: 0 <= i < j < |q| ==> !(q[i] == n && q[j] == n))
    && (ch in s.handler && s.handler[ch].NameAdd? && s.handler[ch].reg.name == n ==> n !in q)
    && (ch !in s.handler ==> n !in q)
  }

  ghost predicate ExactFor(s: State, n: string) {
    forall ch: nat {:trigger ExactAt(s, ch, n)} :: ExactAt(s, ch, n)
  }

  /** A step of another channel. */
  lemma ExactOther(c: Config, s: State, e: Event, ch: Channel, n: string)
    requires ExactFor(s, n) && !Cancels(s, e, n) && !Overwrites(s, e, n) && e.ch != ch
    ensures ExactAt(Step(c, s, e), ch, n)
  {
    assert ExactAt(s, ch, n) && ExactAt(s, e.ch, n);
    NameStep(c, s, e, n);
    OthersStay(c, s, e, ch);
  }

  lemma OthersStay(c: Config, s: State, e: Event, ch: Channel)
    requires e.ch != ch
    ensures var t := Step(c, s, e);
      && At(t.tables.names, ch) == At(s.tables.names, ch)
      && (ch in t.handler <==> ch in s.handler) && (ch in t.handler ==> t.handler[ch] == s.handler[ch])
  {
  }

  /** What a channel's own step does to its list and to where its handler is. */
  lemma OwnStep(c: Config, s: State, e: Event)
    ensures var ch, t := e.ch, Step(c, s, e);
      && (ch in s.handler ==> ch in t.handler)
      && (!Enabled(s, e) ==> t == s)
      && (Enabled(s, e) && e.Advances? ==>
            && t.handler[ch] == Next(s.tables, ch, s.handler[ch], e.found)
            && t.tables.names == NamesAfter(s.tables, ch, s.handler[ch]))
      && (Enabled(s, e) && !e.Advances? ==> ch in t.handler && t.tables.names == s.tables.names)
      && (Enabled(s, e) && e.Connects? ==> t.handler[ch].Idle?)
      && (Enabled(s, e) && e.Disconnects? ==> t.handler[ch] == DropName(0))
      && (Enabled(s, e) && e.Receives? ==>
            !t.handler[ch].NameAdd? && !Dropping(t.handler[ch]) && s.handler[ch].Idle?)
  {
  }

  /** A step of the channel itself, other than one operation of a handler. */
  lemma ExactMoves(c: Config, s: State, e: Event, n: string)
    requires ExactAt(s, e.ch, n) && (Enabled(s, e) ==> !e.Advances?)
    ensures ExactAt(Step(c, s, e), e.ch, n)
  {
    NameStep(c, s, e, n);
    OwnStep(c, s, e);
  }

  lemma ExactDrops(c: Config, s: State, e: Event, n: string)
    requires ExactAt(s, e.ch, n) && Enabled(s, e) && e.Advances? && s.handler[e.ch].DropName?
    ensures ExactAt(Step(c, s, e), e.ch, n)
  {
    var t, q, k := Step(c, s, e), At(s.tables.names, e.ch), s.handler[e.ch].k;
    NameStep(c, s, e, n);
    OwnStep(c, s, e);
    if k < |q| {
      assert t.handler[e.ch] == DropName(k + 1);
      HeldFrom(q, k, n);
    } else {
      assert t.handler[e.ch] == DropKey(0);
    }
  }

  lemma {:induction false} HeldFrom(q: seq<string>, k: nat, n: string)
    requires k < |q|
    ensures NameHeld(q, DropName(k), n) <==> q[k] == n || NameHeld(q, DropName(k + 1), n)
  {
  }

  lemma ExactAdds(c: Config, s: State, e: Event, n: string)
    requires ExactAt(s, e.ch, n) && Enabled(s, e) && e.Advances? && s.handler[e.ch].NameAdd?
    ensures ExactAt(Step(c, s, e), e.ch, n)
  {
    var q, name := At(s.tables.names, e.ch), s.handler[e.ch].reg.name;
    NameStep(c, s, e, n);
    OwnStep(c, s, e);
    assert At(Step(c, s, e).tables.names, e.ch) == q + [name];
  }

  lemma ExactAdvances(c: Config, s: State, e: Event, n: string)
    requires ExactAt(s, e.ch, n) && Enabled(s, e) && e.Advances?
    requires !s.handler[e.ch].NameAdd? && !s.handler[e.ch].DropName? && !Cancels(s, e, n) && !Overwrites(s, e, n)
    ensures ExactAt(Step(c, s, e), e.ch, n)
  {
    NameStep(c, s, e, n);
    OwnStep(c, s, e);
  }

  lemma ExactStep(c: Config, s: State, e: Event, n: string)
    requires ExactFor(s, n) && !Cancels(s, e, n) && !Overwrites(s, e, n)
    ensures ExactFor(Step(c, s, e), n)
  {
    forall ch: nat ensures ExactAt(Step(c, s, e), ch, n) {
      assert ExactAt(s, e.ch, n);
      if ch != e.ch {
        ExactOther(c, s, e, ch, n);
      } else if !(Enabled(s, e) && e.Advances?) {
        ExactMoves(c, s, e, n);
      } else if s.handler[ch].DropName? {
        ExactDrops(c, s, e, n);
      } else if s.handler[ch].NameAdd? {
        ExactAdds(c, s, e, n);
      } else {
        ExactAdvances(c, s, e, n);
      }
    }
  }

  /** No channel is about to put a name that is already routed to it. */
  ghost predicate NoOwnPut(s: State) {
    forall ch :: ch in s.handler && s.handler[ch].RoutePut? ==> !RoutedTo(s, ch, s.handler[ch].reg.name)
  }

  lemma NoOwnPutStep(c: Config, s: State, e: Event)
    requires NoOwnPut(s)
    ensures NoOwnPut(Step(c, s, e))
  {
    var t := Step(c, s, e);
    forall ch | ch in t.handler && t.handler[ch].RoutePut? ensures !RoutedTo(t, ch, t.handler[ch].reg.name) {
      NameStep(c, s, e, t.handler[ch].reg.name);
      if ch != e.ch {
        OthersStay(c, s, e, ch);
      } else {
        OwnStep(c, s, e);
      }
    }
  }

  lemma {:induction false} NeverOwnPut(c: Config, run: seq<Event>)
    ensures NoOwnPut(After(c, run))
  {
    if run != [] {
      NeverOwnPut(c, run[..|run| - 1]);
      NoOwnPutStep(c, After(c, run[..|run| - 1]), run[|run| - 1]);
    }
  }

  /** A put that finds the name routed leaves its holder with a name it no longer has. */
  lemma OverwriteBreaks(c: Config, s: State, e: Event, n: string)
    requires Routed(s.tables.route, s.tables.names, s.handler) && NoOwnPut(s) && Overwrites(s, e, n)
    ensures !ExactFor(Step(c, s, e), n)
  {
    var holder := s.tables.route[n];
    NameStep(c, s, e, n);
    OthersStay(c, s, e, holder);
    assert !ExactAt(Step(c, s, e), holder, n);
  }

  lemma ExactInitially(n: string)
    ensures ExactFor(INIT, n)
  {
    forall ch: nat ensures ExactAt(INIT, ch, n) {
    }
  }

  lemma {:induction false} AfterNext(c: Config, run: seq<Event>, k: nat)
    requires k < |run|
    ensures After(c, run[..k + 1]) == Step(c, After(c, run[..k]), run[k])
  {
    assert run[..k + 1][..k] == run[..k];
  }

  lemma {:induction false} ExactUntil(c: Config, run: seq<Event>, n: string, k: nat)
    requires k <= |run| && forall j: nat :: !CancelsAt(c, run, j, n) && !OverwritesAt(c, run, j, n)
    ensures ExactFor(After(c, run[..k]), n)
  {
    if k == 0 {
      ExactInitially(n);
    } else {
      ExactUntil(c, run, n, k - 1);
      AfterNext(c, run, k - 1);
      assert !CancelsAt(c, run, k - 1, n) && !OverwritesAt(c, run, k - 1, n);
      ExactStep(c, After(c, run[..k - 1]), run[k - 1], n);
    }
  }

  /** In every interleaving in which a name is not cancelled, every channel holds exactly
      what is routed to it of that name, at every moment, if and only if no put finds the
      name already routed. */
  lemma {:induction false} ExactUnlessOverwritten(c: Config, run: seq<Event>, n: string)
    requires forall k: nat :: !CancelsAt(c, run, k, n)
    ensures (forall k: nat :: k <= |run| ==> ExactFor(After(c, run[..k]), n))
      <==> (forall k: nat :: !OverwritesAt(c, run, k, n))
  {
    if forall k: nat :: !OverwritesAt(c, run, k, n) {
      forall k: nat | k <= |run| ensures ExactFor(After(c, run[..k]), n) {
        ExactUntil(c, run, n, k);
      }
    } else {
      var k: nat :| OverwritesAt(c, run, k, n);
      EveryRun(c, run[..k]);
      NeverOwnPut(c, run[..k]);
      AfterNext(c, run, k);
      OverwriteBreaks(c, After(c, run[..k]), run[k], n);
    }
  }

  /** Without a cancel and such a put of the name, a drop takes only its own channel's
      route. */
  lemma {:induction false} DropTakesOwn(c: Config, run: seq<Event>, j: nat, n: string)
    requires forall k: nat :: !CancelsAt(c, run, k, n) && !OverwritesAt(c, run, k, n)
    requires DropsAt(c, run, j, n)
    ensures RoutedTo(After(c, run[..j]), run[j].ch, n)
  {
    var s := After(c, run[..j]);
    ExactUntil(c, run, n, j);
    assert ExactAt(s, run[j].ch, n);
    HeldFrom(At(s.tables.names, run[j].ch), s.handler[run[j].ch].k, n);
  }

  /** The first time a name is taken from a channel, it is by a cancel or by a put that
      found it routed: without them no channel loses a route before its disconnect. */
  lemma {:induction false} LossNeedsCause(c: Config, run: seq<Event>, j: nat, ch: Channel, n: string)
    requires PutAt(c, run, j, ch, n) && !Leaving(After(c, run), ch) && !RoutedTo(After(c, run), ch, n)
    ensures exists k: nat :: CancelsAt(c, run, k, n) || OverwritesAt(c, run, k, n)
  {
    ListsAreHistory(c, run, ch, n);
    assert !ExactAt(After(c, run), ch, n);
    assert run[..|run|] == run;
    if forall k: nat :: !CancelsAt(c, run, k, n) && !OverwritesAt(c, run, k, n) {
      ExactUntil(c, run, n, |run|);
    }
  }

  // ------------------------------------------------ one channel, any events

  /** The event takes the name from a channel that is not disconnecting. */
  predicate Takes(c: Config, s: State, e: Event, ch: Channel, n: string) {
    RoutedTo(s, ch, n) && !RoutedTo(Step(c, s, e), ch, n) && !Leaving(Step(c, s, e), ch)
  }

  /** The channel holds the name although it is not routed to it, or holds it twice, or is
      about to. */
  ghost predicate Spoilt(s: State, ch: Channel, n: string) {
    var q := At(s.tables.names, ch);
    || (HasName(s, ch, n) && !RoutedTo(s, ch, n))
    || (n in q && ch in s.handler && s.handler[ch].NameAdd? && s.handler[ch].reg.name == n)
    || Twice(q, n)
  }

  ghost predicate Twice(q: seq<string>, n: string) {
    exists i, j :: 0 <= i < j < |q| && q[i] == n && q[j] == n
  }

  lemma {:induction false} TwiceGrows(q: seq<string>, name: string, n: string)
    ensures Twice(q, n) || (n in q && name == n) ==> Twice(q + [name], n)
  {
    var longer := q + [name];
    if Twice(q, n) {
      var i, j :| 0 <= i < j < |q| && q[i] == n && q[j] == n;
      assert longer[i] == n && longer[j] == n;
    } else if n in q && name == n {
      var i :| 0 <= i < |q| && q[i] == n;
      assert longer[i] == n && longer[|q|] == n;
    }
  }

  /** A channel's operation that is not part of its disconnect and takes nothing from it. */
  lemma ExactOperates(c: Config, s: State, e: Event, n: string)
    requires ExactAt(s, e.ch, n) && NoOwnPut(s) && Enabled(s, e) && e.Advances?
    requires !Leaving(s, e.ch) && !s.handler[e.ch].NameAdd? && !Takes(c, s, e, e.ch, n)
    ensures ExactAt(Step(c, s, e), e.ch, n)
  {
    NameStep(c, s, e, n);
    OwnStep(c, s, e);
  }

  lemma ExactElsewhere(c: Config, s: State, e: Event, ch: Channel, n: string)
    requires ExactAt(s, ch, n) && e.ch != ch && !Takes(c, s, e, ch, n) && !Leaving(Step(c, s, e), ch)
    ensures ExactAt(Step(c, s, e), ch, n)
  {
    NameStep(c, s, e, n);
    OthersStay(c, s, e, ch);
  }

  lemma KeepsExact(c: Config, s: State, e: Event, ch: Channel, n: string)
    requires ExactAt(s, ch, n) && NoOwnPut(s) && !Takes(c, s, e, ch, n) && !Leaving(Step(c, s, e), ch)
    ensures ExactAt(Step(c, s, e), ch, n)
  {
    if e.ch != ch {
      ExactElsewhere(c, s, e, ch, n);
    } else if !(Enabled(s, e) && e.Advances?) {
      ExactMoves(c, s, e, n);
    } else if Leaving(s, ch) {
      LeavingStays(c, s, e, ch);
    } else if s.handler[ch].NameAdd? {
      ExactAdds(c, s, e, n);
    } else {
      ExactOperates(c, s, e, n);
    }
  }

  lemma TakingSpoils(c: Config, s: State, e: Event, ch: Channel, n: string)
    requires Routed(s.tables.route, s.tables.names, s.handler) && Takes(c, s, e, ch, n)
    ensures Spoilt(Step(c, s, e), ch, n)
  {
    if Leaving(s, ch) {
      LeavingStays(c, s, e, ch);
    }
    HasNameStep(c, s, e, ch, n);
  }

  /** Nothing mends it: a list only grows. */
  lemma StaysSpoilt(c: Config, s: State, e: Event, ch: Channel, n: string)
    requires Spoilt(s, ch, n) && !Leaving(Step(c, s, e), ch)
    ensures Spoilt(Step(c, s, e), ch, n)
  {
    HasNameStep(c, s, e, ch, n);
    NameStep(c, s, e, n);
    if e.ch == ch {
      OwnStep(c, s, e);
      if Enabled(s, e) && e.Advances? && s.handler[ch].NameAdd? {
        TwiceGrows(At(s.tables.names, ch), s.handler[ch].reg.name, n);
        assert At(Step(c, s, e).tables.names, ch) == At(s.tables.names, ch) + [s.handler[ch].reg.name];
      }
    } else {
      OthersStay(c, s, e, ch);
    }
  }

  ghost predicate TakesAt(c: Config, run: seq<Event>, k: nat, ch: Channel, n: string) {
    k < |run| && Takes(c, After(c, run[..k]), run[k], ch, n)
  }

  lemma {:induction false} TakesLater(c: Config, run: seq<Event>, e: Event, ch: Channel, n: string)
    ensures (exists k: nat :: TakesAt(c, run + [e], k, ch, n))
      <==> (exists k: nat :: TakesAt(c, run, k, ch, n)) || Takes(c, After(c, run), e, ch, n)
  {
    forall k: nat | k < |run| ensures TakesAt(c, run + [e], k, ch, n) <==> TakesAt(c, run, k, ch, n) {
      assert (run + [e])[..k] == run[..k];
    }
    assert (run + [e])[..|run|] == run;
    assert TakesAt(c, run + [e], |run|, ch, n) <==> Takes(c, After(c, run), e, ch, n);
  }

  /** A channel that is not disconnecting is either exact on a name or spoilt, and which of
      the two is decided by whether the name was ever taken from it. */
  lemma {:induction false} TakenIsSpoilt(c: Config, run: seq<Event>, ch: Channel, n: string)
    requires !Leaving(After(c, run), ch)
    ensures if exists k: nat :: TakesAt(c, run, k, ch, n) then Spoilt(After(c, run), ch, n)
            else ExactAt(After(c, run), ch, n)
  {
    if run == [] {
      assert ExactAt(INIT, ch, n);
    } else {
      var before, last := run[..|run| - 1], run[|run| - 1];
      var s := After(c, before);
      assert run == before + [last];
      if Leaving(s, ch) {
        LeavingStays(c, s, last, ch);
      }
      TakenIsSpoilt(c, before, ch, n);
      TakesLater(c, before, last, ch, n);
      NextIsSpoilt(c, before, last, ch, n);
    }
  }

  lemma {:induction false} NextIsSpoilt(c: Config, before: seq<Event>, last: Event, ch: Channel, n: string)
    requires !Leaving(Step(c, After(c, before), last), ch)
    ensures var s := After(c, before); var t := Step(c, s, last);
      && (Takes(c, s, last, ch, n) || Spoilt(s, ch, n) ==> Spoilt(t, ch, n))
      && (ExactAt(s, ch, n) && !Takes(c, s, last, ch, n) ==> ExactAt(t, ch, n))
  {
    var s := After(c, before);
    EveryRun(c, before);
    NeverOwnPut(c, before);
    if Takes(c, s, last, ch, n) {
      TakingSpoils(c, s, last, ch, n);
    } else if Spoilt(s, ch, n) {
      StaysSpoilt(c, s, last, ch, n);
    }
    if ExactAt(s, ch, n) && !Takes(c, s, last, ch, n) {
      KeepsExact(c, s, last, ch, n);
    }
  }

  /** In every interleaving, cancels included: the list of an idle channel is exactly what
      is routed to it, each name once, if and only if no name was ever taken from it. */
  lemma {:induction false} IdleIsExact(c: Config, run: seq<Event>, ch: Channel)
    requires ch in After(c, run).handler && After(c, run).handler[ch].Idle?
    ensures var t := After(c, run).tables;
      RegistryExact.Inverse(t.route, t.names, ch) <==> forall k: nat, n: string :: !TakesAt(c, run, k, ch, n)
  {
    var s := After(c, run);
    var q := At(s.tables.names, ch);
    forall n: string
      ensures if exists k: nat :: TakesAt(c, run, k, ch, n) then Spoilt(s, ch, n) else ExactAt(s, ch, n) {
      TakenIsSpoilt(c, run, ch, n);
    }
    if forall k: nat, n: string :: !TakesAt(c, run, k, ch, n) {
      forall n ensures n in q <==> RoutedTo(s, ch, n) {
        assert ExactAt(s, ch, n);
      }
      forall i, j | 0 <= i < j < |q| ensures q[i] != q[j] {
        assert ExactAt(s, ch, q[i]);
      }
    } else {
      var k: nat, n: string :| TakesAt(c, run, k, ch, n);
      assert Spoilt(s, ch, n);
      assert HasName(s, ch, n) ==> n in q;
    }
  }

  /** Without a cancel and without a put of a routed name, the list of every idle channel is
      exactly what is routed to it. */
  lemma {:induction false} IdleIsInverse(c: Config, run: seq<Event>, ch: Channel)
    requires ch in After(c, run).handler && After(c, run).handler[ch].Idle?
    requires forall k: nat, n: string :: !CancelsAt(c, run, k, n) && !OverwritesAt(c, run, k, n)
    ensures RegistryExact.Inverse(After(c, run).tables.route, After(c, run).tables.names, ch)
  {
    var s := After(c, run);
    var q := At(s.tables.names, ch);
    assert run[..|run|] == run;
    forall n ensures ExactAt(s, ch, n) {
      ExactUntil(c, run, n, |run|);
    }
    forall n ensures n in q <==> RoutedTo(s, ch, n) {
      assert ExactAt(s, ch, n);
    }
    forall i, j | 0 <= i < j < |q| ensures q[i] != q[j] {
      assert ExactAt(s, ch, q[i]);
    }
  }

  /** What takes a name: a cancel, a put by another channel, or the disconnect of another
      channel that had put it once. */
  lemma {:induction false} TakesMeans(c: Config, run: seq<Event>, k: nat, ch: Channel, n: string)
    requires TakesAt(c, run, k, ch, n)
    ensures TakenAt(c, run, k, ch, n)
  {
    LastTakes(c, run[..k], run[k], ch, n);
    var longer := run[..k] + [run[k]];
    assert longer[..k] == run[..k];
    assert CancelsAt(c, longer, k, n) <==> CancelsAt(c, run, k, n);
    assert OverwritesAt(c, longer, k, n) <==> OverwritesAt(c, run, k, n);
    assert DropsAt(c, longer, k, n) <==> DropsAt(c, run, k, n);
  }

  // ------------------------------------------------ two registrations at once

  function Authenticates(c: Config, ch: Channel): Event {
    Receives(ch, SysMessage(0, AUTH, c.token, 0, None))
  }

  function Asks(ch: Channel, reg: Register): Event {
    Receives(ch, SysMessage(ch, REGISTER, "", 0, Some(reg)))
  }

  /** Two clients register one name, and both look it up before either puts it; then the
      first one disconnects. */
  function Together(c: Config, reg: Register, f: Found): seq<Event> {
    [Connects(0), Connects(1), Authenticates(c, 0), Authenticates(c, 1), Asks(0, reg), Asks(1, reg),
     Advances(0, f), Advances(1, f), Advances(0, f), Advances(0, f), Advances(1, f), Advances(1, f),
     Disconnects(0), Advances(0, f)]
  }

  /** The states a run goes through. */
  ghost predicate Visits(c: Config, states: seq<State>, run: seq<Event>) {
    && |states| == |run| + 1
    && forall k {:trigger Step(c, states[k], run[k])} :: 0 <= k < |run| ==>
         states[k + 1] == Step(c, states[k], run[k])
  }

  lemma {:induction false} VisitedBy(c: Config, run: seq<Event>) returns (states: seq<State>)
    ensures Visits(c, states, run) && forall k :: 0 <= k <= |run| ==> states[k] == After(c, run[..k])
  {
    states := seq(|run| + 1, k requires 0 <= k <= |run| => After(c, run[..k]));
    forall k | 0 <= k < |run| ensures states[k + 1] == Step(c, states[k], run[k]) {
      AfterNext(c, run, k);
    }
  }

  /** Where the two channels are, what is routed and what their lists hold. */
  ghost predicate Stage(s: State, g: Handler, h: Handler, route: map<string, Channel>, p: seq<string>, q: seq<string>) {
    && s.handler == map[0 := g, 1 := h] && s.authed == {0, 1} && s.tables.route == route
    && At(s.tables.names, 0) == p && At(s.tables.names, 1) == q
  }

  /** The last reply to the channel says that it has the name. */
  ghost predicate Told(c: Config, s: State, ch: Channel, reg: Register) {
    var q := At(s.tables.replies, ch);
    q != [] && q[|q| - 1] == RegisterReply(ch, reg.(newPort := c.httpPort), 1)
  }

  lemma Gated(c: Config, s: State)
    requires s == Step(c, Step(c, INIT, Connects(0)), Connects(1))
    ensures Stage(Step(c, Step(c, s, Authenticates(c, 0)), Authenticates(c, 1)), Idle, Idle, map[], [], [])
  {
    assert s.handler == map[0 := Idle, 1 := Idle];
    var t := Step(c, s, Authenticates(c, 0));
    assert t == OnReceives(c, s, 0, SysMessage(0, AUTH, c.token, 0, None));
    assert Step(c, t, Authenticates(c, 1)) == OnReceives(c, t, 1, SysMessage(0, AUTH, c.token, 0, None));
  }

  lemma StageGated(c: Config, states: seq<State>, reg: Register, f: Found)
    requires Visits(c, states, Together(c, reg, f)) && states[0] == INIT
    ensures Stage(states[4], Idle, Idle, map[], [], [])
  {
    var run := Together(c, reg, f);
    assert states[1] == Step(c, states[0], run[0]) && states[2] == Step(c, states[1], run[1]);
    assert states[3] == Step(c, states[2], run[2]) && states[4] == Step(c, states[3], run[3]);
    Gated(c, states[2]);
  }

  lemma StageAsked(c: Config, states: seq<State>, reg: Register, f: Found)
    requires Visits(c, states, Together(c, reg, f)) && states[0] == INIT && !reg.newServerPort
    ensures Stage(states[6], RouteGet(0, reg), RouteGet(1, reg), map[], [], [])
  {
    var run := Together(c, reg, f);
    StageGated(c, states, reg, f);
    assert states[5] == Step(c, states[4], run[4]) && states[6] == Step(c, states[5], run[5]);
  }

  lemma StageFound(c: Config, states: seq<State>, reg: Register, f: Found)
    requires Visits(c, states, Together(c, reg, f)) && states[0] == INIT && !reg.newServerPort
    ensures Stage(states[8], RoutePut(0, reg), RoutePut(1, reg), map[], [], [])
  {
    var run := Together(c, reg, f);
    StageAsked(c, states, reg, f);
    assert states[7] == Step(c, states[6], run[6]) && states[8] == Step(c, states[7], run[7]);
  }

  lemma StagePut(c: Config, states: seq<State>, reg: Register, f: Found)
    requires Visits(c, states, Together(c, reg, f)) && states[0] == INIT && !reg.newServerPort
    ensures Stage(states[10], Idle, RoutePut(1, reg), map[reg.name := 0], [reg.name], [])
    ensures Told(c, states[10], 0, reg)
  {
    var run := Together(c, reg, f);
    StageFound(c, states, reg, f);
    assert states[9] == Step(c, states[8], run[8]) && states[10] == Step(c, states[9], run[9]);
  }

  lemma StageOverwritten(c: Config, states: seq<State>, reg: Register, f: Found)
    requires Visits(c, states, Together(c, reg, f)) && states[0] == INIT && !reg.newServerPort
    ensures Overwrites(states[10], Together(c, reg, f)[10], reg.name)
    ensures Stage(states[12], Idle, Idle, map[reg.name := 1], [reg.name], [reg.name])
    ensures Told(c, states[12], 0, reg) && Told(c, states[12], 1, reg)
  {
    var run := Together(c, reg, f);
    StagePut(c, states, reg, f);
    assert states[11] == Step(c, states[10], run[10]) && states[12] == Step(c, states[11], run[11]);
  }

  lemma StageDropped(c: Config, states: seq<State>, reg: Register, f: Found)
    requires Visits(c, states, Together(c, reg, f)) && states[0] == INIT && !reg.newServerPort
    ensures Stage(states[14], DropName(1), Idle, map[], [reg.name], [reg.name])
  {
    var run := Together(c, reg, f);
    StageOverwritten(c, states, reg, f);
    assert states[13] == Step(c, states[12], run[12]) && states[14] == Step(c, states[13], run[13]);
  }

  lemma {:induction false} TogetherOverwrites(c: Config, reg: Register, f: Found)
    requires !reg.newServerPort
    ensures var run := Together(c, reg, f);
      && Stage(After(c, run[..12]), Idle, Idle, map[reg.name := 1], [reg.name], [reg.name])
      && Told(c, After(c, run[..12]), 0, reg) && Told(c, After(c, run[..12]), 1, reg)
      && OverwritesAt(c, run, 10, reg.name)
  {
    var run := Together(c, reg, f);
    var states := VisitedBy(c, run);
    assert run[..0] == [] && states[0] == After(c, run[..0]);
    StageOverwritten(c, states, reg, f);
    assert states[10] == After(c, run[..10]) && states[12] == After(c, run[..12]);
  }

  lemma {:induction false} TogetherDrops(c: Config, reg: Register, f: Found)
    requires !reg.newServerPort
    ensures Stage(After(c, Together(c, reg, f)), DropName(1), Idle, map[], [reg.name], [reg.name])
  {
    var run := Together(c, reg, f);
    var states := VisitedBy(c, run);
    assert run[..0] == [] && states[0] == After(c, run[..0]);
    StageDropped(c, states, reg, f);
    assert run[..14] == run && states[14] == After(c, run[..14]);
  }

  /** No cancel is needed: both channels are idle again, were told that they have the name
      and hold it, but it is routed to the second only; the first one's disconnect then
      takes the route from the second, which stays connected. */
  lemma {:induction false} TwoPutsOneRoute(c: Config, reg: Register, f: Found)
    requires !reg.newServerPort
    ensures var run := Together(c, reg, f);
      && Stage(After(c, run[..12]), Idle, Idle, map[reg.name := 1], [reg.name], [reg.name])
      && Told(c, After(c, run[..12]), 0, reg) && Told(c, After(c, run[..12]), 1, reg)
      && OverwritesAt(c, run, 10, reg.name)
      && Stage(After(c, run), DropName(1), Idle, map[], [reg.name], [reg.name])
      && forall e :: e in run && e.Receives? ==> e.m.command != CANCEL_REGISTER
  {
    var run := Together(c, reg, f);
    TogetherOverwrites(c, reg, f);
    TogetherDrops(c, reg, f);
  }
}
