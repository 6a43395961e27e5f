/** Frame decoder and message codec one after the other: what a peer makes of a stream of
    encoded messages. */
module TunnelStream {
  import opened Basics
  import opened Wire
  import opened Codec
  import opened CodecProofs
  import Framing

  /** What the codec hands on: a message, or an exception that ends the read. */
  datatype Delivery = Delivered(message: Message) | Raised(error: Error)

  /** The codec is called again as long as it has something to read; what a call leaves
      unread stands in front of the next frame. */
  function Drain(p: Platform, b: Bytes): (seq<Delivery>, Bytes)
    decreases |b|
  {
    if b == [] then ([], [])
    else
      match Decode(p, b)
      case Failed(e, rest) => ([Raised(e)], rest)
      case Got(m, rest) =>
        var (later, left) := Drain(p, rest);
        (if m.Some? then [Delivered(m.value)] + later else later, left)
  }

  /** Frames arriving one after the other; an overlong one is an exception of its own. */
  function DrainAll(p: Platform, left: Bytes, events: seq<Framing.Event>): (seq<Delivery>, Bytes)
    decreases |events|
  {
    if events == [] then ([], left)
    else
      var (now, rest) := if events[0].Frame? then Drain(p, left + events[0].bytes) else ([], left);
      var (later, end) := DrainAll(p, rest, events[1..]);
      (now + later, end)
  }

  /** Every message arrives as it was and in a frame the decoder takes. */
  predicate Sendable(p: Platform, max: nat, ms: seq<Message>) {
    ms == [] || (Encodable(p, ms[0]) && PayloadSize(p, ms[0]) + 4 <= max && Sendable(p, max, ms[1..]))
  }

  /** The bytes a peer sends for a list of messages. */
  function Stream(p: Platform, max: nat, ms: seq<Message>): Bytes
    requires Sendable(p, max, ms)
  {
    if ms == [] then [] else FrameOf(p, ms[0]) + Stream(p, max, ms[1..])
  }

  function FramesOf(p: Platform, max: nat, ms: seq<Message>): (r: seq<Framing.Event>)
    requires Sendable(p, max, ms)
    ensures Framing.TooLong !in r
  {
    if ms == [] then [] else [Framing.Frame(FrameOf(p, ms[0]))] + FramesOf(p, max, ms[1..])
  }

  function Normalised(p: Platform, ms: seq<Message>): (r: seq<Delivery>)
    ensures |r| == |ms| && forall k :: 0 <= k < |ms| ==> r[k] == Delivered(Normalise(p, ms[k]))
  {
    if ms == [] then [] else [Delivered(Normalise(p, ms[0]))] + Normalised(p, ms[1..])
  }

  lemma {:induction false} FirstFrame(max: nat, f: Bytes, rest: Bytes)
    requires |f| >= 4 && Framing.FrameSize(f) == |f| <= max
    ensures Framing.Frames(max, f + rest) == Framing.Before(Framing.Frame(f), Framing.Frames(max, rest))
  {
    Framing.CutsFirst(max, f, rest);
  }

  /** The stream of encoded messages falls apart into exactly their frames. */
  lemma {:induction false} StreamFrames(p: Platform, max: nat, ms: seq<Message>)
    requires Sendable(p, max, ms)
    ensures Framing.Frames(max, Stream(p, max, ms)) == Framing.Cut(FramesOf(p, max, ms), Framing.Held([], 0))
  {
    if ms != [] {
      FrameLength(p, ms[0]);
      FirstFrame(max, FrameOf(p, ms[0]), Stream(p, max, ms[1..]));
      StreamFrames(p, max, ms[1..]);
    }
  }

  lemma {:induction false} DrainOne(p: Platform, b: Bytes, m: Message)
    requires b != [] && Decode(p, b) == Got(Some(m), [])
    ensures Drain(p, b) == ([Delivered(m)], [])
  {
    assert Drain(p, []) == ([], []);
    assert [Delivered(m)] + [] == [Delivered(m)];
  }

  lemma {:induction false} FramesDecode(p: Platform, max: nat, ms: seq<Message>)
    requires Lawful(p) && Sendable(p, max, ms)
    ensures DrainAll(p, [], FramesOf(p, max, ms)) == (Normalised(p, ms), [])
  {
    if ms != [] {
      var f := FrameOf(p, ms[0]);
      FrameDecodes(p, ms[0]);
      FrameLength(p, ms[0]);
      DrainOne(p, f, Normalise(p, ms[0]));
      FramesDecode(p, max, ms[1..]);
      assert FramesOf(p, max, ms)[1..] == FramesOf(p, max, ms[1..]) && [] + f == f;
    }
  }

  /** Any list of encodable messages whose frames fit the maximum, sent in any pieces,
      arrives as exactly the normalised messages in order, and no byte is left over in
      either decoder. */
  lemma {:induction false} StreamRoundTrip(p: Platform, max: nat, ms: seq<Message>, chunks: seq<Bytes>)
    requires Lawful(p) && Sendable(p, max, ms) && Framing.Flatten(chunks) == Stream(p, max, ms)
    ensures var r := Framing.Reads(max, Framing.Held([], 0), chunks);
      r.held == Framing.Held([], 0) && DrainAll(p, [], r.events) == (Normalised(p, ms), [])
  {
    var h := Framing.Held([], 0);
    StreamFrames(p, max, ms);
    Framing.FromPending(max, [], Stream(p, max, ms));
    assert [] + Stream(p, max, ms) == Stream(p, max, ms);
    Framing.QuietChunking(max, h, chunks);
    FramesDecode(p, max, ms);
  }
}
