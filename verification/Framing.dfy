/** Cutting the tunnel's byte stream back into frames: the frame decoder as it is
    configured (length field first, four bytes, nothing stripped, failing fast), fed
    with reads of any size. */
module Framing {
  import opened Basics
  import opened Wire

  /** What the decoder hands on: a frame, or the one exception of a frame that is longer
      than the maximum. */
  datatype Event = Frame(bytes: Bytes) | TooLong

  /** What it holds between two reads: Bytes not yet cut, and how many bytes of an
      overlong frame are still to be skipped. */
  datatype Held = Held(pending: Bytes, discard: nat)

  datatype Cut = Cut(events: seq<Event>, held: Held)

  /** The length of the frame at the front of a stream, its length field included. */
  function FrameSize(b: Bytes): (n: nat)
    requires |b| >= 4
    ensures n >= 4
  {
    4 + Unsigned(b[..4])
  }

  // ------------------------------------------------ the stream read in one go

  /** All frames of a stream. */
  function Frames(max: nat, b: Bytes): Cut
    decreases |b|
  {
    if |b| < 4 then Cut([], Held(b, 0))
    else if FrameSize(b) > max then
      if |b| < FrameSize(b) then Cut([TooLong], Held([], FrameSize(b) - |b|))
      else Before(TooLong, Frames(max, b[FrameSize(b)..]))
    else if |b| < FrameSize(b) then Cut([], Held(b, 0))
    else Before(Frame(b[..FrameSize(b)]), Frames(max, b[FrameSize(b)..]))
  }

  function Before(e: Event, c: Cut): Cut {
    Cut([e] + c.events, c.held)
  }

  /** The same, continuing from what is held. */
  function FramesFrom(max: nat, h: Held, more: Bytes): Cut {
    var b := h.pending + more;
    if |b| < h.discard then Cut([], Held([], h.discard - |b|)) else Frames(max, b[h.discard..])
  }

  function Append(events: seq<Event>, c: Cut): Cut {
    Cut(events + c.events, c.held)
  }

  lemma Rearrange(e: Event, events: seq<Event>, c: Cut)
    ensures Before(e, Append(events, c)) == Append([e] + events, c)
  {
  }

  // ------------------------------------------------ one read

  /** What one read hands on and leaves.  An overlong frame ends the read with an
      exception; what is behind it waits for the next read. */
  function OneRead(max: nat, h: Held, more: Bytes): Cut {
    var b := h.pending + more;
    if |b| < h.discard then Cut([], Held([], h.discard - |b|)) else ReadUntilThrow(max, b[h.discard..])
  }

  function ReadUntilThrow(max: nat, b: Bytes): Cut
    decreases |b|
  {
    if |b| < 4 then Cut([], Held(b, 0))
    else if FrameSize(b) > max then
      Cut([TooLong], if |b| < FrameSize(b) then Held([], FrameSize(b) - |b|) else Held(b[FrameSize(b)..], 0))
    else if |b| < FrameSize(b) then Cut([], Held(b, 0))
    else Before(Frame(b[..FrameSize(b)]), ReadUntilThrow(max, b[FrameSize(b)..]))
  }

  lemma {:induction false} FromPending(max: nat, b: Bytes, more: Bytes)
    ensures FramesFrom(max, Held(b, 0), more) == Frames(max, b + more)
  {
    assert (b + more)[0..] == b + more;
  }

  lemma {:induction false} FromDiscard(max: nat, n: nat, b: Bytes, more: Bytes)
    requires |b| < n
    ensures FramesFrom(max, Held([], n - |b|), more) ==
      if |b + more| < n then Cut([], Held([], n - |b + more|)) else Frames(max, (b + more)[n..])
  {
    assert [] + more == more;
    if |b + more| >= n {
      assert (b + more)[n..] == more[n - |b|..];
    }
  }

  lemma Halves(b: Bytes, n: nat, more: Bytes)
    requires n <= |b|
    ensures (b + more)[..n] == b[..n] && (b + more)[n..] == b[n..] + more
  {
  }

  /** A read hands on frames of the stream, in order, up to the first exception; what it
      leaves, with whatever comes later, gives the rest of them. */
  lemma {:induction false} ReadThenRest(max: nat, b: Bytes, rest: Bytes)
    ensures var r := ReadUntilThrow(max, b); Frames(max, b + rest) == Append(r.events, FramesFrom(max, r.held, rest))
    decreases |b|
  {
    if |b| < 4 {
      FromPending(max, b, rest);
    } else {
      var n := FrameSize(b);
      Halves(b, 4, rest);
      if n <= |b| && n <= max {
        Halves(b, n, rest);
        ReadThenRest(max, b[n..], rest);
        var r := ReadUntilThrow(max, b[n..]);
        Rearrange(Frame(b[..n]), r.events, FramesFrom(max, r.held, rest));
      } else if n <= |b| {
        Halves(b, n, rest);
        FromPending(max, b[n..], rest);
      } else if n <= max {
        FromPending(max, b, rest);
      } else {
        FromDiscard(max, n, b, rest);
      }
    }
  }

  lemma {:induction false} OneReadThenRest(max: nat, h: Held, more: Bytes, rest: Bytes)
    ensures var r := OneRead(max, h, more);
      FramesFrom(max, h, more + rest) == Append(r.events, FramesFrom(max, r.held, rest))
  {
    var b := h.pending + more;
    assert h.pending + (more + rest) == b + rest;
    if |b| < h.discard {
      FromDiscard(max, h.discard, b, rest);
    } else {
      ReadThenRest(max, b[h.discard..], rest);
      Halves(b, h.discard, rest);
    }
  }

  /** What is held completes no frame by itself. */
  predicate Settled(max: nat, h: Held) {
    FramesFrom(max, h, []) == Cut([], h)
  }

  /** A read that throws nothing takes every frame there is. */
  lemma {:induction false} QuietReadSettles(max: nat, b: Bytes)
    requires TooLong !in ReadUntilThrow(max, b).events
    ensures Settled(max, ReadUntilThrow(max, b).held)
    decreases |b|
  {
    var h := ReadUntilThrow(max, b).held;
    if |b| < 4 || |b| < FrameSize(b) {
      assert (h.pending + [])[0..] == b;
    } else {
      assert ReadUntilThrow(max, b).events[0] == Frame(b[..FrameSize(b)]);
      QuietReadSettles(max, b[FrameSize(b)..]);
    }
  }

  // ------------------------------------------------ any number of reads

  function Reads(max: nat, h: Held, chunks: seq<Bytes>): Cut
    decreases |chunks|
  {
    if chunks == [] then Cut([], h)
    else
      var r := OneRead(max, h, chunks[0]);
      Append(r.events, Reads(max, r.held, chunks[1..]))
  }

  function Flatten(chunks: seq<Bytes>): Bytes {
    if chunks == [] then [] else chunks[0] + Flatten(chunks[1..])
  }

  lemma AppendTwice(a: seq<Event>, b: seq<Event>, c: Cut)
    ensures Append(a, Append(b, c)) == Append(a + b, c)
  {
  }

  /** However a stream is cut into reads, overlong frames included: what the reads hand
      on, and then what is still to come, are the frames of the stream in order, each
      exactly once. */
  lemma {:induction false} AnyChunking(max: nat, h: Held, chunks: seq<Bytes>)
    ensures var r := Reads(max, h, chunks);
      FramesFrom(max, h, Flatten(chunks)) == Append(r.events, FramesFrom(max, r.held, []))
    decreases |chunks|
  {
    if chunks != [] {
      var r := OneRead(max, h, chunks[0]);
      var later := Reads(max, r.held, chunks[1..]);
      OneReadThenRest(max, h, chunks[0], Flatten(chunks[1..]));
      AnyChunking(max, r.held, chunks[1..]);
      AppendTwice(r.events, later.events, FramesFrom(max, later.held, []));
    } else {
      assert Append([], FramesFrom(max, h, [])) == FramesFrom(max, h, []);
    }
  }

  lemma {:induction false} QuietReadsSettle(max: nat, h: Held, chunks: seq<Bytes>)
    requires Settled(max, h) && TooLong !in Reads(max, h, chunks).events
    ensures Settled(max, Reads(max, h, chunks).held)
    decreases |chunks|
  {
    if chunks != [] {
      var r, b := OneRead(max, h, chunks[0]), h.pending + chunks[0];
      if |b| >= h.discard {
        QuietReadSettles(max, b[h.discard..]);
      }
      QuietReadsSettle(max, r.held, chunks[1..]);
    }
  }

  /** Without overlong frames, any cutting into reads gives what one read would. */
  lemma {:induction false} QuietChunking(max: nat, h: Held, chunks: seq<Bytes>)
    requires Settled(max, h) && TooLong !in FramesFrom(max, h, Flatten(chunks)).events
    ensures Reads(max, h, chunks) == FramesFrom(max, h, Flatten(chunks))
  {
    AnyChunking(max, h, chunks);
    QuietReadsSettle(max, h, chunks);
  }

  // ------------------------------------------------ long and overlong frames

  /** A block whose first word counts the rest of it is cut off whole: handed on up to the
      maximal length, reported and skipped beyond it, and what follows is not affected. */
  lemma {:induction false} CutsFirst(max: nat, f: Bytes, rest: Bytes)
    requires |f| >= 4 && Unsigned(f[..4]) == |f| - 4
    ensures Frames(max, f + rest) == Before(if |f| > max then TooLong else Frame(f), Frames(max, rest))
  {
    Halves(f, 4, rest);
    Halves(f, |f|, rest);
    assert f[..|f|] == f && f[|f|..] + rest == rest;
  }

  /** An overlong frame is reported as soon as its length is read, and the missing rest of it
      is skipped when it comes. */
  lemma {:induction false} FailsFast(max: nat, f: Bytes, k: nat, rest: Bytes)
    requires 4 <= k < |f| && Unsigned(f[..4]) == |f| - 4 && |f| > max
    ensures Reads(max, Held([], 0), [f[..k], f[k..] + rest])
      == Append([TooLong], OneRead(max, Held([], 0), rest))
  {
    var first, later := f[..k], f[k..] + rest;
    assert [] + first == first && first[0..] == first && first[..4] == f[..4];
    assert OneRead(max, Held([], 0), first) == Cut([TooLong], Held([], |f| - k));
    assert [] + later == later && later[|f| - k..] == rest && [] + rest == rest && rest[0..] == rest;
    var last := OneRead(max, Held([], |f| - k), later);
    assert last == OneRead(max, Held([], 0), rest);
    var one, two := [later], [first, later];
    assert two[1..] == one && one[1..] == [];
    assert Reads(max, Held([], |f| - k), one) == Append(last.events, Reads(max, last.held, []));
    assert Append(last.events, Cut([], last.held)) == last;
  }
}
