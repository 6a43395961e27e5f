/** What the codec keeps of a message and what it loses. */
module CodecProofs {
  import opened Basics
  import opened Messages
  import opened Wire
  import opened Codec

  // ------------------------------------------------ what is kept

  function NormalText(p: Platform, t: Option<string>): Option<string> {
    if t.Some? && IsBlank(p.blank, t.value) then None else t
  }

  /** Blank text becomes null, missing heads and a missing body become empty, and the
      response code is not on the wire at all. */
  function Normalise(p: Platform, m: Message): Message {
    match m
    case Sys(_) => m
    case Data(d) =>
      Data(d.(dstServer := NormalText(p, d.dstServer), url := NormalText(p, d.url),
              httpMethod := NormalText(p, d.httpMethod), version := NormalText(p, d.version),
              heads := if d.heads.None? then Some(map[]) else d.heads,
              code := 0,
              body := if d.body.None? then Some([]) else d.body))
  }

  /** The length of the text fits the one byte it is written in. */
  predicate Short(p: Platform, t: Option<string>) {
    |TextBytes(p, t)| <= 127
  }

  // ------------------------------------------------ one field

  lemma {:induction false} NotBlankNotEmpty(p: Platform, t: Option<string>)
    requires Lawful(p)
    ensures TextBytes(p, t) == [] <==> t.None? || IsBlank(p.blank, t.value)
  {
    if t.Some? && !IsBlank(p.blank, t.value) {
      assert p.decode(p.encode(t.value)) == t.value;
    }
  }

  lemma {:induction false} TextRoundTrip(p: Platform, t: Option<string>, width: nat, rest: Bytes)
    requires Lawful(p) && 2 * |TextBytes(p, t)| < Power(width)
    ensures ReadText(p, Field(TextBytes(p, t), width) + rest, width) == Got(NormalText(p, t), rest)
  {
    ReadFieldField(TextBytes(p, t), width, rest);
    NotBlankNotEmpty(p, t);
    if t.Some? && !IsBlank(p.blank, t.value) {
      assert p.decode(p.encode(t.value)) == t.value;
    }
  }

  lemma {:induction false} HeadsRoundTrip(p: Platform, h: Option<Heads>, rest: Bytes)
    requires Lawful(p) && 2 * |HeadsBytes(p, h)| < Power(INT)
    ensures ReadHeads(p, Field(HeadsBytes(p, h), INT) + rest) == Got(if h.None? then Some(map[]) else h, rest)
  {
    ReadFieldField(HeadsBytes(p, h), INT, rest);
    if h.Some? {
      assert p.readHeads(p.writeHeads(h.value)) == h;
    }
  }

  /** A text too long for one byte is never read back: its length comes out negative,
      as zero or as a shorter one that cannot hold the text. */
  lemma {:induction false} LongTextIsLost(p: Platform, t: Option<string>, rest: Bytes)
    requires Lawful(p) && !Short(p, t)
    ensures var r := ReadText(p, Field(TextBytes(p, t), BYTE) + rest, BYTE);
      r.Got? ==> r.value != NormalText(p, t)
  {
    var block := TextBytes(p, t);
    var b := Field(block, BYTE) + rest;
    var n := |block| % 0x100;
    assert b[..1] == Word(|block|, BYTE) && b[1..] == block + rest;
    SignedByteWord(|block|);
    NotBlankNotEmpty(p, t);
    if 0 < n < 0x80 {
      assert (block + rest)[..n] == block[..n];
      assert |p.encode(p.decode(block[..n]))| <= 3 * |block[..n]|;
    }
  }

  // ------------------------------------------------ the round trip

  function TailOf(p: Platform, d: DataMessage, rest: Bytes): Bytes {
    Field(HeadsBytes(p, d.heads), INT) + (Field(BodyBytes(d.body), INT) + rest)
  }

  lemma CodeRoundTrip(c: Command)
    ensures CommandOf(Code(c)) == Some(c) && 0 <= Code(c) < 7
  {
  }

  function NormalTexts(p: Platform, d: DataMessage): Texts {
    Texts(NormalText(p, d.dstServer), NormalText(p, d.url), NormalText(p, d.httpMethod), NormalText(p, d.version))
  }

  /** The texts are read back in front of what follows them exactly if the two that are
      counted in one byte are short. */
  lemma {:induction false} TextsRoundTrip(p: Platform, d: DataMessage, rest: Bytes)
    requires Lawful(p) && Writable(p, Data(d))
    ensures var r := ReadTexts(p, FieldsBefore(p, d, rest));
      if Short(p, d.httpMethod) && Short(p, d.version) then r == Got(NormalTexts(p, d), TailOf(p, d, rest))
      else r.Got? ==> r.value != NormalTexts(p, d)
  {
    Powers();
    var b3 := Field(TextBytes(p, d.version), BYTE) + TailOf(p, d, rest);
    var b2 := Field(TextBytes(p, d.httpMethod), BYTE) + b3;
    var b1 := Field(TextBytes(p, d.url), INT) + b2;
    TextRoundTrip(p, d.dstServer, INT, b1);
    TextRoundTrip(p, d.url, INT, b2);
    if Short(p, d.httpMethod) {
      TextRoundTrip(p, d.httpMethod, BYTE, b3);
      if Short(p, d.version) {
        TextRoundTrip(p, d.version, BYTE, TailOf(p, d, rest));
      } else {
        LongTextIsLost(p, d.version, TailOf(p, d, rest));
      }
    } else {
      LongTextIsLost(p, d.httpMethod, b3);
    }
  }

  lemma {:induction false} TailRoundTrip(p: Platform, d: DataMessage, rest: Bytes)
    requires Lawful(p) && Writable(p, Data(d))
    ensures var b8 := Field(BodyBytes(d.body), INT) + rest;
      && ReadHeads(p, TailOf(p, d, rest)) == Got(if d.heads.None? then Some(map[]) else d.heads, b8)
      && ReadField(b8, INT) == Got(BodyBytes(d.body), rest)
  {
    Powers();
    HeadsRoundTrip(p, d.heads, Field(BodyBytes(d.body), INT) + rest);
    ReadFieldField(BodyBytes(d.body), INT, rest);
  }

  lemma {:induction false} NumbersRoundTrip(p: Platform, d: DataMessage, rest: Bytes)
    requires d.id.Some? && d.command.Some?
    ensures var b2 := Word(Code(d.command.value), BYTE) + FieldsBefore(p, d, rest);
      && ReadLong(DataBefore(p, d, rest)) == Got(d.id.value, b2)
      && ReadNumber(b2, BYTE) == Got(Code(d.command.value), FieldsBefore(p, d, rest))
  {
    Powers();
    CodeRoundTrip(d.command.value);
    ReadNumberWord(d.id.value, LONG, Word(Code(d.command.value), BYTE) + FieldsBefore(p, d, rest));
    ReadNumberWord(Code(d.command.value), BYTE, FieldsBefore(p, d, rest));
  }

  lemma TextsOfData(p: Platform, b: Bytes, b1: Bytes, b2: Bytes, id: Long, code: int)
    requires ReadLong(b) == Got(id, b1) && ReadNumber(b1, BYTE) == Got(code, b2)
    ensures var t, r := ReadTexts(p, b2), ReadData(p, b);
      r.Got? ==> t.Got? && t.value == Texts(r.value.dstServer, r.value.url, r.value.httpMethod, r.value.version)
  {
  }

  lemma {:induction false} Assembled(p: Platform, b: Bytes, b1: Bytes, b2: Bytes, b3: Bytes, b4: Bytes, rest: Bytes,
    d: DataMessage)
    requires d.id.Some? && d.command.Some? && d.code == 0 && d.body.Some?
    requires ReadLong(b) == Got(d.id.value, b1) && ReadNumber(b1, BYTE) == Got(Code(d.command.value), b2)
    requires ReadTexts(p, b2) == Got(Texts(d.dstServer, d.url, d.httpMethod, d.version), b3)
    requires ReadHeads(p, b3) == Got(d.heads, b4) && ReadField(b4, INT) == Got(d.body.value, rest)
    ensures ReadData(p, b) == Got(d, rest)
  {
    CodeRoundTrip(d.command.value);
  }

  /** A data message is read back in front of whatever follows it, and reading stops
      where it ends, exactly if its method and version are short. */
  lemma {:induction false} DataRoundTrip(p: Platform, d: DataMessage, rest: Bytes)
    requires Lawful(p) && Writable(p, Data(d))
    ensures var r, normal := ReadData(p, DataBefore(p, d, rest)), Normalise(p, Data(d)).data;
      if Short(p, d.httpMethod) && Short(p, d.version) then r == Got(normal, rest)
      else r.Got? ==> r.value != normal
  {
    var b, b2, b3 := DataBefore(p, d, rest), FieldsBefore(p, d, rest), TailOf(p, d, rest);
    var b1 := Word(Code(d.command.value), BYTE) + b2;
    NumbersRoundTrip(p, d, rest);
    TextsRoundTrip(p, d, rest);
    TextsOfData(p, b, b1, b2, d.id.value, Code(d.command.value));
    if Short(p, d.httpMethod) && Short(p, d.version) {
      TailRoundTrip(p, d, rest);
      Assembled(p, b, b1, b2, b3, Field(BodyBytes(d.body), INT) + rest, rest, Normalise(p, Data(d)).data);
    }
  }

  lemma {:induction false} Split(length: Bytes, kind: Bytes, rest: Bytes)
    requires |length| == 4 && |kind| == 1
    ensures var b := length + (kind + rest);
      && ReadNumber(b, INT) == Got(Signed(length), kind + rest)
        && ReadNumber(kind + rest, BYTE) == Got(Signed(kind), rest)
  {
    assert (length + (kind + rest))[..4] == length && (length + (kind + rest))[4..] == kind + rest;
    assert (kind + rest)[..1] == kind && (kind + rest)[1..] == rest;
  }

  lemma {:induction false} FieldsSuffix(p: Platform, d: DataMessage, rest: Bytes)
    ensures FieldsBefore(p, d, []) + rest == FieldsBefore(p, d, rest)
  {
    var f6 := Field(BodyBytes(d.body), INT) + [];
    var f5 := Field(HeadsBytes(p, d.heads), INT) + f6;
    var f4 := Field(TextBytes(p, d.version), BYTE) + f5;
    var f3 := Field(TextBytes(p, d.httpMethod), BYTE) + f4;
    var f2 := Field(TextBytes(p, d.url), INT) + f3;
    Moves(Field(TextBytes(p, d.dstServer), INT), f2, rest);
    Moves(Field(TextBytes(p, d.url), INT), f3, rest);
    Moves(Field(TextBytes(p, d.httpMethod), BYTE), f4, rest);
    Moves(Field(TextBytes(p, d.version), BYTE), f5, rest);
    Moves(Field(HeadsBytes(p, d.heads), INT), f6, rest);
    Moves(Field(BodyBytes(d.body), INT), [], rest);
    assert [] + rest == rest;
  }

  lemma {:induction false} DataFrame(p: Platform, d: DataMessage, rest: Bytes)
    requires Writable(p, Data(d))
    ensures FrameOf(p, Data(d)) + rest
      == Word(PayloadSize(p, Data(d)), INT) + (Word(DATA_MSG, BYTE) + DataBefore(p, d, rest))
  {
    var f := FieldsBefore(p, d, []);
    FieldsSuffix(p, d, rest);
    Moves(Word(PayloadSize(p, Data(d)), INT), Payload(p, Data(d)), rest);
    Moves(Word(DATA_MSG, BYTE), DataBefore(p, d, []), rest);
    Moves(Word(d.id.value, LONG), Word(Code(d.command.value), BYTE) + f, rest);
    Moves(Word(Code(d.command.value), BYTE), f, rest);
  }

  lemma KindWords()
    ensures Signed(Word(SYS_MSG, BYTE)) == SYS_MSG && Signed(Word(DATA_MSG, BYTE)) == DATA_MSG
  {
    SignedByteWord(SYS_MSG);
    SignedByteWord(DATA_MSG);
  }

  lemma {:induction false} DecodeData(p: Platform, length: Bytes, kind: Bytes, b: Bytes)
    requires |length| == 4 && |kind| == 1 && Signed(kind) == DATA_MSG
    ensures var r := ReadData(p, b);
      Decode(p, length + (kind + b)) == if r.Got? then Got(Some(Data(r.value)), r.rest) else Failed(r.error, r.rest)
  {
    Split(length, kind, b);
  }

  // ------------------------------------------------ whole messages

  /** Encoding then decoding a data message, with anything behind it, gives the
      normalised message and leaves exactly what was behind it if and only if its method
      and its version take at most 127 bytes; otherwise no reading of the frame gives
      that message. */
  lemma {:induction false} RoundTrip(p: Platform, d: DataMessage, rest: Bytes)
    requires Lawful(p) && Writable(p, Data(d))
    ensures var r, normal := Decode(p, FrameOf(p, Data(d)) + rest), Some(Normalise(p, Data(d)));
      && (r == Got(normal, rest) <==> Short(p, d.httpMethod) && Short(p, d.version))
      && (r.Got? && r.value == normal <==> r == Got(normal, rest))
  {
    DataFrame(p, d, rest);
    KindWords();
    DecodeData(p, Word(PayloadSize(p, Data(d)), INT), Word(DATA_MSG, BYTE), DataBefore(p, d, rest));
    DataRoundTrip(p, d, rest);
  }

  /** A system message takes everything there is to read. */
  lemma SysRoundTrip(p: Platform, m: SysMessage)
    requires Lawful(p) && Writable(p, Sys(m))
    ensures Decode(p, FrameOf(p, Sys(m))) == Got(Some(Sys(m)), [])
  {
    KindWords();
    Split(Word(PayloadSize(p, Sys(m)), INT), Word(SYS_MSG, BYTE), p.writeSys(m));
    assert p.readSys(p.writeSys(m)) == Some(m);
  }

  /** The messages that arrive as they were, up to what the format does not carry. */
  predicate Encodable(p: Platform, m: Message) {
    Writable(p, m) && (m.Data? ==> Short(p, m.data.httpMethod) && Short(p, m.data.version))
  }

  /** A frame alone is decoded whole. */
  lemma FrameDecodes(p: Platform, m: Message)
    requires Lawful(p) && Encodable(p, m)
    ensures Decode(p, FrameOf(p, m)) == Got(Some(Normalise(p, m)), [])
  {
    match m
    case Sys(s) => SysRoundTrip(p, s);
    case Data(d) =>
      RoundTrip(p, d, []);
      assert FrameOf(p, m) + [] == FrameOf(p, m);
  }

  /** A frame announces its own length. */
  lemma FrameLength(p: Platform, m: Message)
    requires Writable(p, m)
    ensures 4 + Unsigned(FrameOf(p, m)[..4]) == |FrameOf(p, m)| > 4
  {
    Powers();
    UnsignedWord(PayloadSize(p, m), INT);
    assert FrameOf(p, m)[..4] == Word(PayloadSize(p, m), INT);
  }

  // ------------------------------------------------ the bytes

  /** A word of four bytes, the highest first. */
  function Four(n: nat): (b: Bytes)
    requires n < 0x1_0000_0000
    ensures |b| == 4
  {
    [(n / 0x100_0000) as Byte, (n / 0x1_0000 % 0x100) as Byte, (n / 0x100 % 0x100) as Byte, (n % 0x100) as Byte]
  }

  lemma FourBytes(n: nat)
    requires n < 0x1_0000_0000
    ensures Word(n, INT) == Four(n)
  {
    Powers();
    UnfoldBigEndian(n, 4);
    UnfoldBigEndian(n / 0x100, 3);
    UnfoldBigEndian(n / 0x100 / 0x100, 2);
    UnfoldBigEndian(n / 0x100 / 0x100 / 0x100, 1);
    assert n / 0x100 / 0x100 == n / 0x1_0000 && n / 0x100 / 0x100 / 0x100 == n / 0x100_0000;
  }

  lemma {:induction false} UnfoldBigEndian(n: nat, width: nat)
    requires width > 0
    ensures BigEndian(n, width) == BigEndian(n / 0x100, width - 1) + [(n % 0x100) as Byte]
  {
  }

  /** A signed word of eight bytes: that of its value modulo 2 to the 64. */
  function Eight(v: Long): (b: Bytes)
    ensures |b| == 8
  {
    var n := if v < 0 then v + 0x1_0000_0000_0000_0000 else v;
    Four(n / 0x1_0000_0000) + Four(n % 0x1_0000_0000)
  }

  lemma Regroups(h: nat, p: nat)
    ensures h * (0x100 * p) == 0x100 * (h * p)
  {
  }

  lemma {:induction false} BigEndianJoins(h: nat, l: nat, width: nat, k: nat)
    requires l < Power(k)
    ensures BigEndian(h * Power(k) + l, width + k) == BigEndian(h, width) + BigEndian(l, k)
  {
    if k > 0 {
      var x := h * Power(k - 1);
      Regroups(h, Power(k - 1));
      assert h * Power(k) + l == 0x100 * x + l;
      BigEndianJoins(h, l / 0x100, width, k - 1);
      UnfoldBigEndian(0x100 * x + l, width + k);
      UnfoldBigEndian(l, k);
      assert (0x100 * x + l) / 0x100 == x + l / 0x100 && (0x100 * x + l) % 0x100 == l % 0x100;
    }
  }

  lemma {:induction false} FourIs(n: nat)
    requires n < 0x1_0000_0000
    ensures BigEndian(n, 4) == Four(n)
  {
    Powers();
    FourBytes(n);
    assert n % Power(INT) == n;
  }

  lemma {:induction false} EightBytes(v: Long)
    ensures Word(v, LONG) == Eight(v)
  {
    Powers();
    WrapsOnce(v, Power(LONG));
    var n := if v < 0 then v + 0x1_0000_0000_0000_0000 else v;
    BigEndianJoins(n / 0x1_0000_0000, n % 0x1_0000_0000, 4, INT);
    FourIs(n / 0x1_0000_0000);
    FourIs(n % 0x1_0000_0000);
  }

  lemma OneByte(v: nat)
    ensures Word(v, BYTE) == [(v % 0x100) as Byte]
  {
    Powers();
    UnfoldBigEndian(v % 0x100, 1);
  }

  lemma LongField(block: Bytes)
    requires |block| < 0x1_0000_0000
    ensures Field(block, INT) == Four(|block|) + block
  {
    FourBytes(|block|);
  }

  lemma ShortField(block: Bytes)
    ensures Field(block, BYTE) == [(|block| % 0x100) as Byte] + block
  {
    OneByte(|block|);
  }

  /** The byte a command is written as. */
  function CommandByte(c: Command): Byte {
    match c
    case AUTH => 0
    case REGISTER => 1
    case REQUEST => 2
    case RESPONSE => 3
    case HEALTH => 4
    case CLOSE => 5
    case CANCEL_REGISTER => 6
  }

  /** The variable fields, each behind its own length; the method and the version behind one
      byte of it. */
  function Layout(dst: Bytes, url: Bytes, httpMethod: Bytes, version: Bytes, heads: Bytes, body: Bytes): Bytes
    requires |dst| < 0x8000_0000 && |url| < 0x8000_0000 && |heads| < 0x8000_0000 && |body| < 0x8000_0000
  {
    (Four(|dst|) + dst) + ((Four(|url|) + url) +
      (([(|httpMethod| % 0x100) as Byte] + httpMethod) + (([(|version| % 0x100) as Byte] + version) +
        ((Four(|heads|) + heads) + ((Four(|body|) + body) + [])))))
  }

  /** A missing or blank text, missing heads and a missing body are no bytes at all. */
  lemma MissingIsEmpty(p: Platform, t: Option<string>, h: Option<Heads>, b: Option<Bytes>)
    ensures TextBytes(p, t)
      == if t.None? || (forall k :: 0 <= k < |t.value| ==> p.blank(t.value[k])) then [] else p.encode(t.value)
    ensures HeadsBytes(p, h) == if h.None? then [] else p.writeHeads(h.value)
    ensures BodyBytes(b) == if b.None? then [] else b.value
  {
  }

  lemma {:induction false} FieldsLayout(p: Platform, d: DataMessage)
    requires FieldsSize(p, d) < 0x8000_0000
    ensures FieldsBefore(p, d, []) == Layout(TextBytes(p, d.dstServer), TextBytes(p, d.url),
      TextBytes(p, d.httpMethod), TextBytes(p, d.version), HeadsBytes(p, d.heads), BodyBytes(d.body))
  {
    LongField(TextBytes(p, d.dstServer));
    LongField(TextBytes(p, d.url));
    ShortField(TextBytes(p, d.httpMethod));
    ShortField(TextBytes(p, d.version));
    LongField(HeadsBytes(p, d.heads));
    LongField(BodyBytes(d.body));
  }

  lemma HeadWords(p: Platform, d: DataMessage, size: nat, kind: nat)
    requires Writable(p, Data(d)) && size == PayloadSize(p, Data(d)) && kind == DATA_MSG
    ensures FrameOf(p, Data(d)) == Word(size, INT)
      + (Word(kind, BYTE) + (Word(d.id.value, LONG) + (Word(Code(d.command.value), BYTE) + FieldsBefore(p, d, []))))
  {
  }

  lemma CommandWord(c: Command)
    ensures Word(Code(c), BYTE) == [CommandByte(c)]
  {
    OneByte(Code(c));
  }

  lemma {:induction false} HeadIs(p: Platform, d: DataMessage, size: nat, kind: nat, a: Bytes, b: Bytes, c: Bytes,
    e: Bytes)
    requires Writable(p, Data(d)) && size == PayloadSize(p, Data(d)) && kind == DATA_MSG
    requires a == Word(size, INT) && b == Word(kind, BYTE) && c == Word(d.id.value, LONG)
    requires e == Word(Code(d.command.value), BYTE)
    ensures FrameOf(p, Data(d)) == a + (b + (c + (e + FieldsBefore(p, d, []))))
  {
    HeadWords(p, d, size, kind);
  }

  /** The bytes of a data message's frame: length, kind, id, command, and the fields. */
  lemma {:induction false} FrameLayout(p: Platform, d: DataMessage)
    requires Writable(p, Data(d))
    ensures FrameOf(p, Data(d)) == Four(28 + FieldsSize(p, d))
      + ([1] + (Eight(d.id.value) + ([CommandByte(d.command.value)]
      + Layout(TextBytes(p, d.dstServer), TextBytes(p, d.url), TextBytes(p, d.httpMethod), TextBytes(p, d.version),
               HeadsBytes(p, d.heads), BodyBytes(d.body)))))
  {
    FourBytes(28 + FieldsSize(p, d));
    OneByte(1);
    EightBytes(d.id.value);
    CommandWord(d.command.value);
    HeadIs(p, d, 28 + FieldsSize(p, d), 1, Four(28 + FieldsSize(p, d)), [1], Eight(d.id.value),
      [CommandByte(d.command.value)]);
    FieldsLayout(p, d);
  }

  /** The frame of a system message: length, kind, and the serialised message. */
  lemma {:induction false} SysLayout(p: Platform, m: SysMessage)
    requires Writable(p, Sys(m))
    ensures FrameOf(p, Sys(m)) == Four(1 + |p.writeSys(m)|) + ([0] + p.writeSys(m))
  {
    FourBytes(1 + |p.writeSys(m)|);
    OneByte(0);
  }

  // ------------------------------------------------ errors

  /** Encoding fails with a null pointer exactly if a data message has no id or no command,
      and beyond the largest buffer if its fields, or the serialised message, do not fit. */
  lemma EncodesWhen(p: Platform, m: Message)
    ensures var size := if m.Sys? then 5 + |p.writeSys(m.sys)| else 32 + FieldsSize(p, m.data);
      Encode(p, m) == if m.Data? && (m.data.id.None? || m.data.command.None?) then Thrown(NullPointer)
                      else if size > 0x7fff_ffff then Thrown(IndexOutOfBounds)
                      else Frame(FrameOf(p, m))
  {
  }

  /** What a field with a wrong length does: a word that is cut off, a negative length and a
      block that is cut off are three different ends, and a text of length zero is null. */
  lemma {:induction false} FieldErrors(p: Platform, v: int, width: nat, rest: Bytes, b: Bytes)
    requires 0 <= 2 * v + Power(width) < 2 * Power(width) && |b| < width
    ensures var r := ReadText(p, Word(v, width) + rest, width);
      && (v < 0 ==> r == Failed(IllegalArgument, rest))
      && (v > |rest| ==> r == Failed(IndexOutOfBounds, rest))
      && (v == 0 ==> r == Got(None, rest))
      && (0 < v <= |rest| ==> r == Got(Some(p.decode(rest[..v])), rest[v..]))
    ensures ReadText(p, b, width) == Failed(IndexOutOfBounds, b)
  {
    ReadNumberWord(v, width, rest);
  }

  /** A frame of an unknown kind is read up to its kind and gives nothing, and one that is
      cut off in its length or before its kind is out of bounds. */
  lemma {:induction false} UnknownKinds(p: Platform, length: Bytes, kind: Byte, rest: Bytes)
    requires |length| == 4 && kind != 0 && kind != 1
    ensures Decode(p, length + ([kind] + rest)) == Got(None, rest)
    ensures Decode(p, []) == Got(None, [])
    ensures forall b: Bytes :: 0 < |b| < 4 ==> Decode(p, b) == Failed(IndexOutOfBounds, b)
    ensures Decode(p, length) == Failed(IndexOutOfBounds, [])
  {
    Split(length, [kind], rest);
    KindIs(kind);
    assert length[..4] == length && length[4..] == [];
  }

  lemma KindIs(kind: Byte)
    ensures Signed([kind]) == 0 <==> kind == 0
    ensures Signed([kind]) == 1 <==> kind == 1
  {
    Powers();
    assert [kind][..0] == [];
    assert Unsigned([kind]) == kind as nat;
  }
}
