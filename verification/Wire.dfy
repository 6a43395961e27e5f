/** Big-endian words and length-prefixed fields, as values and as operations on a
    buffer with a read cursor. */
module Wire {
  import opened Basics

  const MAX_LENGTH := 0x7fff_ffff

  // The widths of the numbers of the format, in bytes.
  const BYTE: nat := 1
  const INT: nat := 4
  const LONG: nat := 8

  type Long = x: int | -0x8000_0000_0000_0000 <= x < 0x8000_0000_0000_0000

  /** Why reading or writing a message ends in an exception. */
  datatype Error = IndexOutOfBounds | IllegalArgument | NullPointer | Malformed

  /** What an attempt to read gives, and what is left to read after it. */
  datatype Outcome<+T> = Got(value: T, rest: Bytes) | Failed(error: Error, rest: Bytes) {
    predicate IsFailure() {
      Failed?
    }

    function PropagateFailure<U>(): Outcome<U>
      requires Failed?
    {
      Failed(error, rest)
    }

    function Extract(): (T, Bytes)
      requires Got?
    {
      (value, rest)
    }
  }

  // ------------------------------------------------ words

  function Power(width: nat): (p: nat)
    ensures p > 0 && (width > 0 ==> p % 2 == 0)
  {
    if width == 0 then 1 else 0x100 * Power(width - 1)
  }

  function BigEndian(n: nat, width: nat): (b: Bytes)
    ensures |b| == width
  {
    if width == 0 then [] else BigEndian(n / 0x100, width - 1) + [(n % 0x100) as Byte]
  }

  function Unsigned(b: Bytes): (n: nat)
    ensures n < Power(|b|)
  {
    if b == [] then 0 else 0x100 * Unsigned(b[..|b| - 1]) + b[|b| - 1] as nat
  }

  /** A word as a writer of that width leaves it: the low bits of the value. */
  function Word(v: int, width: nat): (b: Bytes)
    ensures |b| == width
  {
    BigEndian(v % Power(width), width)
  }

  /** A word as a signed reader sees it. */
  function Signed(b: Bytes): (v: int)
    ensures 0 <= 2 * v + Power(|b|) < 2 * Power(|b|)
  {
    var n := Unsigned(b);
    if 2 * n < Power(|b|) then n else n - Power(|b|)
  }

  lemma {:induction false} UnsignedBigEndian(n: nat, width: nat)
    requires n < Power(width)
    ensures Unsigned(BigEndian(n, width)) == n
  {
    if width > 0 {
      var b := BigEndian(n, width);
      UnsignedBigEndian(n / 0x100, width - 1);
      assert b[..|b| - 1] == BigEndian(n / 0x100, width - 1);
    }
  }

  lemma {:induction false} WrapsOnce(v: int, p: nat)
    requires p > 0 && 0 <= 2 * v + p < 2 * p
    ensures v % p == if v >= 0 then v else v + p
  {
    if v < 0 {
      assert 0 <= v + p < p && v == -1 * p + (v + p);
      Quotient(v, p, -1, v + p);
    } else {
      Quotient(v, p, 0, v);
    }
  }

  lemma Multiples(d: int, p: nat)
    ensures d >= 1 ==> d * p >= p
    ensures d <= -1 ==> d * p <= 0 - p
  {
  }

  lemma {:induction false} Quotient(v: int, p: nat, q: int, r: nat)
    requires p > r && v == q * p + r
    ensures v % p == r
  {
    var d := v / p - q;
    assert d * p == r - v % p;
    Multiples(d, p);
  }

  /** A value within the range of a signed word reads back as itself. */
  lemma {:induction false} SignedWord(v: int, width: nat)
    requires 0 <= 2 * v + Power(width) < 2 * Power(width)
    ensures Signed(Word(v, width)) == v
  {
    var r := if v >= 0 then v else v + Power(width);
    WrapsOnce(v, Power(width));
    assert v % Power(width) == r;
    UnsignedBigEndian(r, width);
  }

  lemma {:induction false} UnsignedWord(n: nat, width: nat)
    requires n < Power(width)
    ensures Unsigned(Word(n, width)) == n
  {
    Quotient(n, Power(width), 0, n);
    UnsignedBigEndian(n, width);
  }

  lemma Powers()
    ensures Power(BYTE) == 0x100 && Power(INT) == 0x1_0000_0000 && Power(LONG) == 0x1_0000_0000_0000_0000
  {
    assert Power(2) == 0x1_0000 && Power(3) == 0x100_0000;
    assert Power(5) == 0x100_0000_0000 && Power(6) == 0x1_0000_0000_0000 && Power(7) == 0x100_0000_0000_0000;
  }

  /** A length written as one byte reads back as itself exactly up to 127. */
  lemma {:induction false} SignedByteWord(n: nat)
    ensures Signed(Word(n, BYTE)) == (if n % 0x100 < 0x80 then n % 0x100 else n % 0x100 - 0x100)
  {
    Powers();
    UnsignedBigEndian(n % 0x100, BYTE);
  }

  // ------------------------------------------------ reading

  /** A signed number of a fixed width. */
  function ReadNumber(b: Bytes, width: nat): (r: Outcome<int>)
    ensures r.Got? ==> |r.rest| == |b| - width
    ensures r.Failed? ==> r.rest == b
  {
    if |b| < width then Failed(IndexOutOfBounds, b) else Got(Signed(b[..width]), b[width..])
  }

  function ReadLong(b: Bytes): (r: Outcome<Long>)
    ensures r.Got? ==> |r.rest| == |b| - 8
    ensures r.Failed? ==> r.rest == b
  {
    Powers();
    var (n, tail) :- ReadNumber(b, LONG);
    Got(n, tail)
  }

  function ReadBlock(b: Bytes, length: int): (r: Outcome<Bytes>)
    ensures r.Got? ==> |r.value| == length && b == r.value + r.rest
    ensures r.Failed? ==> r.rest == b
  {
    if length < 0 then Failed(IllegalArgument, b)
    else if |b| < length then Failed(IndexOutOfBounds, b)
    else Got(b[..length], b[length..])
  }

  /** A block behind its length. */
  function ReadField(b: Bytes, width: nat): (r: Outcome<Bytes>)
    ensures |r.rest| <= |b|
  {
    var (length, tail) :- ReadNumber(b, width);
    ReadBlock(tail, length)
  }

  function Field(block: Bytes, width: nat): Bytes {
    Word(|block|, width) + block
  }

  lemma {:induction false} ReadNumberWord(v: int, width: nat, rest: Bytes)
    requires 0 <= 2 * v + Power(width) < 2 * Power(width)
    ensures ReadNumber(Word(v, width) + rest, width) == Got(v, rest)
  {
    SignedWord(v, width);
    assert (Word(v, width) + rest)[..width] == Word(v, width);
    assert (Word(v, width) + rest)[width..] == rest;
  }

  lemma {:induction false} ReadFieldField(block: Bytes, width: nat, rest: Bytes)
    requires 2 * |block| < Power(width)
    ensures ReadField(Field(block, width) + rest, width) == Got(block, rest)
  {
    assert Field(block, width) + rest == Word(|block|, width) + (block + rest);
    ReadNumberWord(|block|, width, block + rest);
    assert (block + rest)[..|block|] == block && (block + rest)[|block|..] == rest;
  }

  // ------------------------------------------------ the buffer

  class ByteBuf {
    var written: Bytes
    var reader: nat

    ghost predicate Valid()
      reads this
    {
      reader <= |written|
    }

    /** What can still be read. */
    ghost function Rest(): Bytes
      reads this
      requires Valid()
    {
      written[reader..]
    }

    constructor ()
      ensures Valid() && written == [] && reader == 0
    {
      written, reader := [], 0;
    }

    function ReadableBytes(): (n: nat)
      reads this
      requires Valid()
      ensures n == |Rest()|
    {
      |written| - reader
    }

    method WriteByte(v: int)
      requires Valid()
      modifies this`written
      ensures Valid() && written == old(written) + Word(v, BYTE)
    {
      written := written + Word(v, BYTE);
    }

    method WriteInt(v: int)
      requires Valid()
      modifies this`written
      ensures Valid() && written == old(written) + Word(v, INT)
    {
      written := written + Word(v, INT);
    }

    method WriteLong(v: Long)
      requires Valid()
      modifies this`written
      ensures Valid() && written == old(written) + Word(v, LONG)
    {
      written := written + Word(v, LONG);
    }

    method WriteBytes(b: Bytes)
      requires Valid()
      modifies this`written
      ensures Valid() && written == old(written) + b
    {
      written := written + b;
    }

    method SetInt(at: nat, v: int)
      requires Valid() && at + 4 <= |written|
      modifies this`written
      ensures Valid() && written == old(written[..at]) + Word(v, INT) + old(written[at + 4..])
    {
      written := written[..at] + Word(v, INT) + written[at + 4..];
    }

    method ReadSigned(width: nat) returns (r: Outcome<int>)
      requires Valid()
      modifies this`reader
      ensures Valid() && r == ReadNumber(old(Rest()), width) && Rest() == r.rest
    {
      if ReadableBytes() < width {
        return Failed(IndexOutOfBounds, written[reader..]);
      }
      var word := written[reader..reader + width];
      assert word == written[reader..][..width] && written[reader..][width..] == written[reader + width..];
      reader := reader + width;
      return Got(Signed(word), written[reader..]);
    }

    method ReadBytes(length: int) returns (r: Outcome<Bytes>)
      requires Valid()
      modifies this`reader
      ensures Valid() && r == ReadBlock(old(Rest()), length) && Rest() == r.rest
    {
      if length < 0 {
        return Failed(IllegalArgument, written[reader..]);
      }
      if ReadableBytes() < length {
        return Failed(IndexOutOfBounds, written[reader..]);
      }
      var block := written[reader..reader + length];
      assert block == written[reader..][..length] && written[reader..][length..] == written[reader + length..];
      reader := reader + length;
      return Got(block, written[reader..]);
    }
  }
}
