/** The binary format of the tunnel's messages: a frame length, a kind, and for data
    messages an id, a command and six variable fields. */
module Codec {
  import opened Basics
  import opened Messages
  import opened Wire

  type Heads = map<string, string>

  /** What the codec takes from its platform: the default charset, the blank test and the
      object serialiser. */
  datatype Platform = Platform(
    encode: string -> Bytes,
    decode: Bytes -> string,
    blank: char -> bool,
    writeHeads: Heads -> Bytes,
    readHeads: Bytes -> Option<Heads>,
    writeSys: SysMessage -> Bytes,
    readSys: Bytes -> Option<SysMessage>)

  /** The charset and the serialiser read back what they write, the serialiser never
      writes nothing, and every byte the charset reads stands for at most three when it
      is written again, as in UTF-8 with its replacement character. */
  ghost predicate Lawful(p: Platform) {
    && (forall s: string :: p.decode(p.encode(s)) == s)
    && p.decode([]) == ""
    && (forall b: Bytes :: |p.encode(p.decode(b))| <= 3 * |b|)
    && (forall h: Heads :: p.writeHeads(h) != [] && p.readHeads(p.writeHeads(h)) == Some(h))
    && (forall m: SysMessage :: p.readSys(p.writeSys(m)) == Some(m))
  }

  /** A field that is null in the program is `None`. */
  datatype DataMessage = DataMessage(
    id: Option<Long>,
    command: Option<Command>,
    dstServer: Option<string>,
    url: Option<string>,
    heads: Option<Heads>,
    httpMethod: Option<string>,
    version: Option<string>,
    code: int,
    body: Option<Bytes>)

  /** A new message has no text, no heads and an empty body. */
  const EMPTY := DataMessage(None, None, None, None, Some(map[]), None, None, 0, Some([]))

  datatype Message = Sys(sys: SysMessage) | Data(data: DataMessage)

  // ------------------------------------------------ commands

  function Code(c: Command): int {
    match c
    case AUTH => 0
    case REGISTER => 1
    case REQUEST => 2
    case RESPONSE => 3
    case HEALTH => 4
    case CLOSE => 5
    case CANCEL_REGISTER => 6
  }

  const COMMANDS := [AUTH, REGISTER, REQUEST, RESPONSE, HEALTH, CLOSE, CANCEL_REGISTER]

  function CommandOf(code: int): Option<Command> {
    if 0 <= code < |COMMANDS| then Some(COMMANDS[code]) else None
  }

  /** The search through all commands. */
  method GetInstance(code: int) returns (c: Option<Command>)
    ensures c == CommandOf(code)
    ensures forall d: Command :: c == Some(d) <==> Code(d) == code
  {
    for i := 0 to |COMMANDS|
      invariant forall k :: 0 <= k < i ==> Code(COMMANDS[k]) != code
    {
      if Code(COMMANDS[i]) == code {
        return Some(COMMANDS[i]);
      }
    }
    assert forall k :: 0 <= k < |COMMANDS| ==> Code(COMMANDS[k]) == k;
    assert forall d: Command :: COMMANDS[Code(d)] == d;
    return None;
  }

  // ------------------------------------------------ the format

  const SYS_MSG := 0
  const DATA_MSG := 1

  function TextBytes(p: Platform, t: Option<string>): Bytes {
    if t.None? || IsBlank(p.blank, t.value) then [] else p.encode(t.value)
  }

  function HeadsBytes(p: Platform, h: Option<Heads>): Bytes {
    if h.None? then [] else p.writeHeads(h.value)
  }

  function BodyBytes(b: Option<Bytes>): Bytes {
    if b.None? then [] else b.value
  }

  /** How many bytes the six variable fields hold. */
  function FieldsSize(p: Platform, d: DataMessage): nat {
    |TextBytes(p, d.dstServer)| + |TextBytes(p, d.url)| + |TextBytes(p, d.httpMethod)| + |TextBytes(p, d.version)|
      + |HeadsBytes(p, d.heads)| + |BodyBytes(d.body)|
  }

  /** The variable fields in front of whatever follows them. */
  function FieldsBefore(p: Platform, d: DataMessage, rest: Bytes): (r: Bytes)
    ensures |r| == 18 + FieldsSize(p, d) + |rest|
  {
    Field(TextBytes(p, d.dstServer), INT) + (Field(TextBytes(p, d.url), INT) +
      (Field(TextBytes(p, d.httpMethod), BYTE) + (Field(TextBytes(p, d.version), BYTE) +
        (Field(HeadsBytes(p, d.heads), INT) + (Field(BodyBytes(d.body), INT) + rest)))))
  }

  lemma Moves(a: Bytes, b: Bytes, c: Bytes)
    ensures (a + b) + c == a + (b + c)
  {
  }

  lemma BackPatches(zero: Bytes, payload: Bytes)
    requires |zero| == 4
    ensures var w := [] + zero + payload; |w| == |payload| + 4 && w[4..] == payload
  {
  }

  lemma FrameIs(p: Platform, m: Message, w: Bytes)
    requires HasKey(m) && |w| >= 4 && w[4..] == Payload(p, m)
    ensures |w| == PayloadSize(p, m) + 4 && Word(|w| - 4, INT) + w[4..] == FrameOf(p, m)
  {
  }

  lemma Associates(o: Bytes, a: Bytes, b: Bytes, c: Bytes, d: Bytes, e: Bytes, f: Bytes)
    ensures o + a + b + c + d + e + f == o + (a + (b + (c + (d + (e + (f + []))))))
  {
    assert o + a + b + c == o + (a + (b + c));
    assert d + e + f == d + (e + (f + []));
    assert (o + (a + (b + c))) + d + e + f == (o + (a + (b + c))) + (d + e + f);
    assert (a + (b + c)) + (d + e + f) == a + (b + (c + (d + e + f)));
  }

  /** A data message in front of whatever follows it. */
  function DataBefore(p: Platform, d: DataMessage, rest: Bytes): (r: Bytes)
    requires d.id.Some? && d.command.Some?
    ensures |r| == 27 + FieldsSize(p, d) + |rest|
  {
    Word(d.id.value, LONG) + (Word(Code(d.command.value), BYTE) + FieldsBefore(p, d, rest))
  }

  /** The id and the command of a data message are there to be unboxed. */
  predicate HasKey(m: Message) {
    m.Data? ==> m.data.id.Some? && m.data.command.Some?
  }

  function PayloadSize(p: Platform, m: Message): nat {
    match m
    case Sys(s) => 1 + |p.writeSys(s)|
    case Data(d) => 28 + FieldsSize(p, d)
  }

  /** A buffer holds no more than the largest `int`. */
  predicate Writable(p: Platform, m: Message) {
    HasKey(m) && PayloadSize(p, m) + 4 <= MAX_LENGTH
  }

  function Payload(p: Platform, m: Message): (r: Bytes)
    requires HasKey(m)
    ensures |r| == PayloadSize(p, m)
  {
    match m
    case Sys(s) => Word(SYS_MSG, BYTE) + p.writeSys(s)
    case Data(d) => Word(DATA_MSG, BYTE) + DataBefore(p, d, [])
  }

  datatype Encoded = Frame(bytes: Bytes) | Thrown(error: Error)

  /** A frame is its length and its payload. */
  function FrameOf(p: Platform, m: Message): (r: Bytes)
    requires HasKey(m)
    ensures |r| == PayloadSize(p, m) + 4
  {
    Word(PayloadSize(p, m), INT) + Payload(p, m)
  }

  function Encode(p: Platform, m: Message): Encoded {
    if !HasKey(m) then Thrown(NullPointer)
    else if !Writable(p, m) then Thrown(IndexOutOfBounds)
    else Frame(FrameOf(p, m))
  }

  function ReadText(p: Platform, b: Bytes, width: nat): (r: Outcome<Option<string>>)
    ensures |r.rest| <= |b|
  {
    var (block, tail) :- ReadField(b, width);
    Got(if block == [] then None else Some(p.decode(block)), tail)
  }

  function ReadHeads(p: Platform, b: Bytes): (r: Outcome<Option<Heads>>)
    ensures |r.rest| <= |b|
  {
    var (block, tail) :- ReadField(b, INT);
    if block == [] then Got(Some(map[]), tail)
    else if p.readHeads(block).None? then Failed(Malformed, tail)
    else Got(p.readHeads(block), tail)
  }

  datatype Texts = Texts(dstServer: Option<string>, url: Option<string>, httpMethod: Option<string>,
    version: Option<string>)

  function ReadTexts(p: Platform, b: Bytes): (r: Outcome<Texts>)
    ensures |r.rest| <= |b|
  {
    var (dstServer, b1) :- ReadText(p, b, INT);
    var (url, b2) :- ReadText(p, b1, INT);
    var (httpMethod, b3) :- ReadText(p, b2, BYTE);
    var (version, b4) :- ReadText(p, b3, BYTE);
    Got(Texts(dstServer, url, httpMethod, version), b4)
  }

  function ReadData(p: Platform, b: Bytes): (r: Outcome<DataMessage>)
    ensures |r.rest| <= |b|
  {
    var (id, b1) :- ReadLong(b);
    var (code, b2) :- ReadNumber(b1, BYTE);
    var (t, b3) :- ReadTexts(p, b2);
    var (heads, b4) :- ReadHeads(p, b3);
    var (body, b5) :- ReadField(b4, INT);
    Got(DataMessage(Some(id), CommandOf(code), t.dstServer, t.url, heads, t.httpMethod, t.version, 0, Some(body)), b5)
  }

  function Decode(p: Platform, b: Bytes): (r: Outcome<Option<Message>>)
    ensures |r.rest| <= |b|
    ensures r.Got? && b != [] ==> |r.rest| < |b|
  {
    if b == [] then Got(None, b)
    else
      var (_, b1) :- ReadNumber(b, INT);
      var (kind, b2) :- ReadNumber(b1, BYTE);
      if kind == SYS_MSG then
        var s := p.readSys(b2);
        if s.Some? then Got(Some(Sys(s.value)), []) else Failed(Malformed, [])
      else if kind == DATA_MSG then
        var (d, tail) :- ReadData(p, b2);
        Got(Some(Data(d)), tail)
      else Got(None, b2)
  }

  // ------------------------------------------------ the codec

  class MessageCodec {
    const p: Platform

    constructor (p: Platform)
      ensures this.p == p
    {
      this.p := p;
    }

    method WriteInt(text: Option<string>, out: ByteBuf)
      requires out.Valid()
      modifies out`written
      ensures out.Valid() && out.written == old(out.written) + Field(TextBytes(p, text), INT)
    {
      if text.None? || IsBlank(p.blank, text.value) {
        out.WriteInt(0);
      } else {
        var block := p.encode(text.value);
        out.WriteInt(|block|);
        out.WriteBytes(block);
      }
    }

    method WriteByte(text: Option<string>, out: ByteBuf)
      requires out.Valid()
      modifies out`written
      ensures out.Valid() && out.written == old(out.written) + Field(TextBytes(p, text), BYTE)
    {
      if text.None? || IsBlank(p.blank, text.value) {
        out.WriteByte(0);
      } else {
        var block := p.encode(text.value);
        out.WriteByte(|block|);
        out.WriteBytes(block);
      }
    }

    method WriteHeads(heads: Option<Heads>, out: ByteBuf)
      requires out.Valid()
      modifies out`written
      ensures out.Valid() && out.written == old(out.written) + Field(HeadsBytes(p, heads), INT)
    {
      if heads.Some? {
        var block := p.writeHeads(heads.value);
        out.WriteInt(|block|);
        out.WriteBytes(block);
      } else {
        out.WriteInt(0);
      }
    }

    method WriteData(body: Option<Bytes>, out: ByteBuf)
      requires out.Valid()
      modifies out`written
      ensures out.Valid() && out.written == old(out.written) + Field(BodyBytes(body), INT)
    {
      if body.Some? {
        out.WriteInt(|body.value|);
        out.WriteBytes(body.value);
      } else {
        out.WriteInt(0);
      }
    }

    /** Encode into a buffer that holds nothing yet: reserve the length, write the
        payload, and put the length in its place. */
    method EncodeMessage(m: Message, out: ByteBuf) returns (thrown: Option<Error>)
      requires out.Valid() && out.written == []
      modifies out`written
      ensures match Encode(p, m)
        case Frame(b) => thrown == None && out.written == b
        case Thrown(e) => thrown == Some(e)
    {
      if m.Data? && (m.data.id.None? || m.data.command.None?) {
        return Some(NullPointer);
      }
      var fits := WriteFrame(m, out);
      return if fits then None else Some(IndexOutOfBounds);
    }

    method WriteFrame(m: Message, out: ByteBuf) returns (fits: bool)
      requires out.Valid() && out.written == [] && HasKey(m)
      modifies out`written
      ensures fits <==> Writable(p, m)
      ensures fits ==> out.written == FrameOf(p, m)
    {
      out.WriteInt(0);
      WritePayload(m, out);
      BackPatches(Word(0, INT), Payload(p, m));
      FrameIs(p, m, out.written);
      if out.ReadableBytes() > MAX_LENGTH {
        return false;
      }
      PatchLength(out);
      return true;
    }

    /** Put the length of what follows it in its place. */
    method PatchLength(out: ByteBuf)
      requires out.Valid() && out.reader == 0 && |out.written| >= 4
      modifies out`written
      ensures out.Valid() && out.written == Word(|old(out.written)| - 4, INT) + old(out.written)[4..]
    {
      var length := out.ReadableBytes();
      out.SetInt(0, length - 4);
    }

    method WritePayload(m: Message, out: ByteBuf)
      requires out.Valid()
      requires m.Data? ==> m.data.id.Some? && m.data.command.Some?
      modifies out`written
      ensures out.Valid() && out.written == old(out.written) + Payload(p, m)
    {
      match m {
        case Sys(s) =>
          out.WriteByte(SYS_MSG);
          out.WriteBytes(p.writeSys(s));
          Moves(old(out.written), Word(SYS_MSG, BYTE), p.writeSys(s));
        case Data(d) =>
          out.WriteByte(DATA_MSG);
          WriteDataMessage(d, out);
          Moves(old(out.written), Word(DATA_MSG, BYTE), DataBefore(p, d, []));
      }
    }

    /** The variable fields, in the order in which they are read back. */
    method WriteFields(d: DataMessage, out: ByteBuf)
      requires out.Valid()
      modifies out`written
      ensures out.Valid() && out.written == old(out.written) + FieldsBefore(p, d, [])
    {
      ghost var start := out.written;
      WriteInt(d.dstServer, out);
      WriteInt(d.url, out);
      WriteByte(d.httpMethod, out);
      WriteByte(d.version, out);
      WriteHeads(d.heads, out);
      WriteData(d.body, out);
      Associates(start, Field(TextBytes(p, d.dstServer), INT), Field(TextBytes(p, d.url), INT),
        Field(TextBytes(p, d.httpMethod), BYTE), Field(TextBytes(p, d.version), BYTE),
        Field(HeadsBytes(p, d.heads), INT), Field(BodyBytes(d.body), INT));
    }

    method WriteDataMessage(d: DataMessage, out: ByteBuf)
      requires out.Valid() && d.id.Some? && d.command.Some?
      modifies out`written
      ensures out.Valid() && out.written == old(out.written) + DataBefore(p, d, [])
    {
      out.WriteLong(d.id.value);
      out.WriteByte(Code(d.command.value));
      WriteFields(d, out);
    }

    method ReadTextField(width: nat, input: ByteBuf) returns (r: Outcome<Option<string>>)
      requires input.Valid()
      modifies input`reader
      ensures input.Valid() && r == ReadText(p, old(input.Rest()), width) && input.Rest() == r.rest
    {
      var length :- input.ReadSigned(width);
      if length.0 == 0 {
        assert length.1[..0] == [] && length.1[0..] == length.1;
        return Got(None, length.1);
      }
      var block :- input.ReadBytes(length.0);
      return Got(Some(p.decode(block.0)), block.1);
    }

    method ReadHeadsField(input: ByteBuf) returns (r: Outcome<Option<Heads>>)
      requires input.Valid()
      modifies input`reader
      ensures input.Valid() && r == ReadHeads(p, old(input.Rest())) && input.Rest() == r.rest
    {
      var length :- input.ReadSigned(INT);
      if length.0 == 0 {
        assert length.1[..0] == [] && length.1[0..] == length.1;
        return Got(EMPTY.heads, length.1);
      }
      var block :- input.ReadBytes(length.0);
      var heads := p.readHeads(block.0);
      return if heads.None? then Failed(Malformed, block.1) else Got(heads, block.1);
    }

    method ReadBodyField(input: ByteBuf) returns (r: Outcome<Option<Bytes>>)
      requires input.Valid()
      modifies input`reader
      ensures input.Valid() && input.Rest() == r.rest
      ensures match ReadField(old(input.Rest()), INT)
        case Got(block, rest) => r == Got(Some(block), rest)
        case Failed(e, rest) => r == Failed(e, rest)
    {
      var length :- input.ReadSigned(INT);
      if length.0 == 0 {
        assert length.1[..0] == [] && length.1[0..] == length.1;
        return Got(EMPTY.body, length.1);
      }
      var block :- input.ReadBytes(length.0);
      return Got(Some(block.0), block.1);
    }

    /** Fill a new message field by field. */
    method ReadDataMessage(input: ByteBuf) returns (r: Outcome<DataMessage>)
      requires input.Valid()
      modifies input`reader
      ensures input.Valid() && r == ReadData(p, old(input.Rest())) && input.Rest() == r.rest
    {
      var d := EMPTY;
      Powers();
      var id :- input.ReadSigned(LONG);
      d := d.(id := Some(id.0));
      var code :- input.ReadSigned(BYTE);
      var command := GetInstance(code.0);
      d := d.(command := command);
      var dstServer :- ReadTextField(INT, input);
      d := d.(dstServer := dstServer.0);
      var url :- ReadTextField(INT, input);
      d := d.(url := url.0);
      var httpMethod :- ReadTextField(BYTE, input);
      d := d.(httpMethod := httpMethod.0);
      var version :- ReadTextField(BYTE, input);
      d := d.(version := version.0);
      var heads :- ReadHeadsField(input);
      d := d.(heads := heads.0);
      var body :- ReadBodyField(input);
      d := d.(body := body.0);
      return Got(d, input.written[input.reader..]);
    }

    /** Decode at most one message from what the buffer has to read. */
    method DecodeMessage(input: ByteBuf) returns (r: Outcome<Option<Message>>)
      requires input.Valid()
      modifies input`reader
      ensures input.Valid() && r == Decode(p, old(input.Rest())) && input.Rest() == r.rest
    {
      if input.ReadableBytes() == 0 {
        return Got(None, input.written[input.reader..]);
      }
      var length :- input.ReadSigned(INT);
      var kind :- input.ReadSigned(BYTE);
      if kind.0 == SYS_MSG {
        var readableBytes := input.ReadableBytes();
        assert kind.1[..readableBytes] == kind.1 && kind.1[readableBytes..] == [];
        var block := input.ReadBytes(readableBytes);
        var s := p.readSys(block.value);
        return if s.Some? then Got(Some(Sys(s.value)), []) else Failed(Malformed, []);
      }
      if kind.0 == DATA_MSG {
        var d :- ReadDataMessage(input);
        return Got(Some(Data(d.0)), d.1);
      }
      return Got(None, kind.1);
    }
  }
}
