/**
 * The second byte reader (reader.rs). It reads N bytes with `read_exact`
 * like the reader of rw.rs, but builds the value itself: starting from 0,
 * it ORs each byte, shifted left by 8 * (N - 1 - i) bits, into an
 * accumulator. Its contract is that it agrees with `ReadBe`, the
 * `from_be_bytes` reader, at every width.
 */
module ShiftReader {
  import opened Numeric
  import opened Results
  import opened Rw

  /**
   * One step of the accumulation loop: with the first i bytes already in the
   * top of the accumulator, OR-ing in byte i puts the first i + 1 there.
   */
  lemma ShiftOrStep(buf: seq<u8>, n: nat, i: nat)
    requires |buf| == n && i < n
    ensures BitOr(FromBeBytes(buf[..i]) * Pow256(n - i), Shl(buf[i], 8 * (n - i - 1), 8 * n))
         == FromBeBytes(buf[..i + 1]) * Pow256(n - (i + 1))
  {
    var k := n - i - 1;
    var f := FromBeBytes(buf[..i]);
    var b := buf[i];
    var p := Pow256(k);
    var t := b * p;
    assert buf[..i + 1][..i] == buf[..i];
    assert FromBeBytes(buf[..i + 1]) == f * 256 + b;
    assert Pow256(k + 1) == 256 * p;
    ByteTimesBelow(b, p);
    Pow256IsPow2(k);
    Pow256IsPow2(k + 1);
    Pow256IsPow2(n);
    Pow256Monotone(k + 1, n);
    ShlNoOverflow(b, 8 * k, 8 * n);
    assert Shl(b, 8 * (n - i - 1), 8 * n) == t;
    BitOrDisjoint(f, t, 8 * (k + 1));
    assert f * Pow2(8 * (k + 1)) == f * Pow256(n - i);
    Distribute(f, 256, b, p);
  }

  lemma ByteTimesBelow(b: u8, p: nat)
    ensures b * p <= 255 * p
  {
  }

  lemma Distribute(f: nat, c: nat, b: nat, p: nat)
    ensures f * (c * p) + b * p == (f * c + b) * p
  {
  }

  /** A stream of bytes consumed from the front. */
  class Reader {
    const data: seq<u8>
    var pos: nat

    ghost predicate Valid()
      reads this
    {
      pos <= |data|
    }

    /** The bytes not yet consumed. */
    function Remaining(): seq<u8>
      reads this
      requires Valid()
    {
      data[pos..]
    }

    constructor (data: seq<u8>)
      ensures Valid() && this.data == data && pos == 0
    {
      this.data := data;
      pos := 0;
    }

    /**
     * `read_n`: fill an N-byte buffer, then OR the shifted bytes into an
     * accumulator that starts at 0. The result is the same as ReadBe's.
     */
    method ReadN(n: nat) returns (r: Result<nat>)
      requires Valid() && IsWidth(n)
      modifies this
      ensures Valid()
      ensures match ReadBe(old(Remaining()), n)
        case Ok(p) => r == Ok(p.value) && Remaining() == p.rest && pos == old(pos) + n
        case Err(e) => r == Err(e) && pos == old(pos)
    {
      if |data| - pos < n {
        return Err(ReadError(n, |data| - pos));
      }
      var buf := data[pos..pos + n];
      assert buf == data[pos..][..n];

      var acc := 0;
      for i := 0 to n
        invariant pos == old(pos)
        invariant acc == FromBeBytes(buf[..i]) * Pow256(n - i)
      {
        ShiftOrStep(buf, n, i);
        acc := BitOr(acc, Shl(buf[i], 8 * (n - i - 1), 8 * n));
      }
      assert buf[..n] == buf;
      pos := pos + n;
      r := Ok(acc);
    }

    method ReadUnsignedByte() returns (r: Result<u8>)
      requires Valid()
      modifies this
      ensures Valid()
      ensures match ReadU8(old(Remaining()))
        case Ok(p) => r == Ok(p.value) && Remaining() == p.rest && pos == old(pos) + 1
        case Err(e) => r == Err(e) && pos == old(pos)
    {
      Pow256Widths();
      ReadU8IsReadBe(Remaining());
      var v :- ReadN(1);
      r := Ok(v);
    }

    method ReadUnsignedShort() returns (r: Result<u16>)
      requires Valid()
      modifies this
      ensures Valid()
      ensures match ReadU16(old(Remaining()))
        case Ok(p) => r == Ok(p.value) && Remaining() == p.rest && pos == old(pos) + 2
        case Err(e) => r == Err(e) && pos == old(pos)
    {
      Pow256Widths();
      ReadU16IsReadBe(Remaining());
      var v :- ReadN(2);
      r := Ok(v);
    }

    method ReadUnsignedInt() returns (r: Result<u32>)
      requires Valid()
      modifies this
      ensures Valid()
      ensures match ReadU32(old(Remaining()))
        case Ok(p) => r == Ok(p.value) && Remaining() == p.rest && pos == old(pos) + 4
        case Err(e) => r == Err(e) && pos == old(pos)
    {
      Pow256Widths();
      ReadU32IsReadBe(Remaining());
      var v :- ReadN(4);
      r := Ok(v);
    }

    method ReadUnsignedLong() returns (r: Result<u64>)
      requires Valid()
      modifies this
      ensures Valid()
      ensures match ReadU64(old(Remaining()))
        case Ok(p) => r == Ok(p.value) && Remaining() == p.rest && pos == old(pos) + 8
        case Err(e) => r == Err(e) && pos == old(pos)
    {
      Pow256Widths();
      ReadU64IsReadBe(Remaining());
      var v :- ReadN(8);
      r := Ok(v);
    }
  }

  /** `test_read_unsigned_byte`: four one-byte reads return the bytes in order. */
  method TestReadUnsignedByte() returns (b0: Result<u8>, b1: Result<u8>, b2: Result<u8>, b3: Result<u8>)
    ensures b0 == Ok(0xca) && b1 == Ok(0xfe) && b2 == Ok(0xba) && b3 == Ok(0xbe)
  {
    ReadU8AfterWrite(0xca, [0xfe, 0xba, 0xbe]);
    ReadU8AfterWrite(0xfe, [0xba, 0xbe]);
    ReadU8AfterWrite(0xba, [0xbe]);
    ReadU8AfterWrite(0xbe, []);
    var reader := new Reader([0xca, 0xfe, 0xba, 0xbe]);
    b0 := reader.ReadUnsignedByte();
    b1 := reader.ReadUnsignedByte();
    b2 := reader.ReadUnsignedByte();
    b3 := reader.ReadUnsignedByte();
  }

  /** `test_read_unsigned_short`: the second read continues where the first stopped. */
  method TestReadUnsignedShort() returns (hi: Result<u16>, lo: Result<u16>)
    ensures hi == Ok(0xcafe) && lo == Ok(0xbabe)
  {
    ReaderTestVectors();
    var reader := new Reader([0xca, 0xfe, 0xba, 0xbe]);
    hi := reader.ReadUnsignedShort();
    lo := reader.ReadUnsignedShort();
  }

  /** `test_read_unsigned_int`: four bytes shifted into one word. */
  method TestReadUnsignedInt() returns (word: Result<u32>)
    ensures word == Ok(0xcafebabe)
  {
    ReaderTestVectors();
    var reader := new Reader([0xca, 0xfe, 0xba, 0xbe]);
    word := reader.ReadUnsignedInt();
  }

  /** `test_read_unsigned_long`: eight bytes shifted into one long. */
  method TestReadUnsignedLong() returns (long: Result<u64>)
    ensures long == Ok(0x00000041000f0a00)
  {
    ReaderTestVectors();
    var reader := new Reader([0x00, 0x00, 0x00, 0x41, 0x00, 0x0f, 0x0a, 0x00]);
    long := reader.ReadUnsignedLong();
  }
}
