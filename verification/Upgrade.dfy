/** The pipeline of a backend channel whose request asks for a protocol upgrade: it
    speaks HTTP until the first response has been handed to the tunnel, and plain bytes
    from then on. */
module Upgrade {
  import opened Basics

  datatype Handler =
    | HttpRequestEncoder | HttpObjectAggregator | ByteArrayDecoder | ByteArrayEncoder | ResponseHandler
    | Other(name: string)

  /** A backend channel: its upgrade flag and its pipeline, first handler first. */
  datatype Backend = Backend(upgrade: bool, pipeline: seq<Handler>)

  /** The pipeline without the first handler of a kind; there must be one. */
  function Without(q: seq<Handler>, h: Handler): (r: Option<seq<Handler>>)
    ensures r.Some? <==> h in q
  {
    if q == [] then None
    else if q[0] == h then Some(q[1..])
    else
      var tail := Without(q[1..], h);
      if tail.None? then None else Some([q[0]] + tail.value)
  }

  /** A connect for an HTTP request succeeded. */
  function SetUp(b: Backend, upgrade: bool): Backend {
    Backend(b.upgrade || upgrade,
      b.pipeline + [HttpRequestEncoder, HttpObjectAggregator, ByteArrayDecoder, ResponseHandler])
  }

  /** The write of a response to the tunnel completed; removing a handler that is not
      there throws. */
  function Written(b: Backend): Option<Backend> {
    if !b.upgrade then Some(b)
    else
      var a := Without(b.pipeline, HttpRequestEncoder);
      if a.None? then None
      else
        var c := Without(a.value, HttpObjectAggregator);
        if c.None? then None else Some(Backend(false, [ByteArrayEncoder] + c.value))
  }

  function WrittenTimes(b: Option<Backend>, n: nat): Option<Backend>
    decreases n
  {
    if n == 0 || b.None? then b else WrittenTimes(Written(b.value), n - 1)
  }

  class BackendChannel {
    var upgrade: bool
    var pipeline: seq<Handler>

    ghost function View(): Backend
      reads this
    {
      Backend(upgrade, pipeline)
    }

    constructor (base: seq<Handler>)
      ensures View() == Backend(false, base)
    {
      upgrade, pipeline := false, base;
    }

    method OnConnected(upgradeHeader: bool)
      modifies this
      ensures View() == SetUp(old(View()), upgradeHeader)
    {
      if upgradeHeader {
        upgrade := true;
      }
      pipeline := pipeline + [HttpRequestEncoder];
      pipeline := pipeline + [HttpObjectAggregator];
      pipeline := pipeline + [ByteArrayDecoder];
      pipeline := pipeline + [ResponseHandler];
    }

    method RemoveHandler(h: Handler) returns (removed: bool)
      modifies this`pipeline
      ensures removed <==> h in old(pipeline)
      ensures if removed then Some(pipeline) == Without(old(pipeline), h) else pipeline == old(pipeline)
    {
      var q := Without(pipeline, h);
      removed := q.Some?;
      if removed {
        pipeline := q.value;
      }
    }

    method OnResponseWritten() returns (thrown: bool)
      modifies this
      ensures thrown <==> Written(old(View())).None?
      ensures !thrown ==> Written(old(View())) == Some(View())
    {
      if upgrade {
        var removed := RemoveHandler(HttpRequestEncoder);
        if !removed {
          return true;
        }
        removed := RemoveHandler(HttpObjectAggregator);
        if !removed {
          return true;
        }
        pipeline := [ByteArrayEncoder] + pipeline;
        upgrade := false;
      }
      return false;
    }
  }

  lemma {:induction false} WithoutFirst(a: seq<Handler>, h: Handler, b: seq<Handler>)
    requires h !in a
    ensures Without(a + [h] + b, h) == Some(a + b)
  {
    var q := a + [h] + b;
    if a == [] {
      assert q[1..] == b && a + b == b;
    } else {
      WithoutFirst(a[1..], h, b);
      assert q[1..] == a[1..] + [h] + b && q[0] == a[0];
      assert [a[0]] + (a[1..] + b) == a + b;
    }
  }

  lemma UpgradeOnce(base: seq<Handler>)
    requires HttpRequestEncoder !in base && HttpObjectAggregator !in base
    ensures Written(SetUp(Backend(false, base), true))
      == Some(Backend(false, [ByteArrayEncoder] + base + [ByteArrayDecoder, ResponseHandler]))
  {
    var first, second, rest := [HttpRequestEncoder], [HttpObjectAggregator], [ByteArrayDecoder, ResponseHandler];
    assert base + [HttpRequestEncoder, HttpObjectAggregator, ByteArrayDecoder, ResponseHandler]
        == base + first + (second + rest);
    WithoutFirst(base, HttpRequestEncoder, second + rest);
    Regroup(base, second, rest);
    WithoutFirst(base, HttpObjectAggregator, rest);
    Regroup([ByteArrayEncoder], base, rest);
  }

  lemma Regroup(a: seq<Handler>, b: seq<Handler>, c: seq<Handler>)
    ensures a + b + c == a + (b + c)
  {
  }

  lemma {:induction false} NothingMore(b: Backend, n: nat)
    requires !b.upgrade
    ensures WrittenTimes(Some(b), n) == Some(b)
  {
    if n > 0 {
      NothingMore(b, n - 1);
    }
  }

  /** Over any number of responses nothing throws; the flag is set exactly while the HTTP
      handlers of an upgrade connection are in place, which is until the first response
      is written; and a connection without an upgrade keeps its pipeline. */
  lemma OneShot(base: seq<Handler>, upgrade: bool, n: nat)
    requires HttpRequestEncoder !in base && HttpObjectAggregator !in base
    ensures WrittenTimes(Some(SetUp(Backend(false, base), upgrade)), n) == Some(
      if upgrade && n > 0 then Backend(false, [ByteArrayEncoder] + base + [ByteArrayDecoder, ResponseHandler])
      else Backend(upgrade, base + [HttpRequestEncoder, HttpObjectAggregator, ByteArrayDecoder, ResponseHandler]))
  {
    var b := SetUp(Backend(false, base), upgrade);
    if !upgrade {
      NothingMore(b, n);
    } else if n > 0 {
      UpgradeOnce(base);
      NothingMore(Written(b).value, n - 1);
    }
  }
}
