/**
 * Big-endian byte primitives (rw.rs): the `HasBeBytes` conversions for
 * u8/u16/u32/u64, a `Reader` that consumes fixed-width unsigned integers
 * from the front of a byte stream, and a `Writer` that appends them to a
 * sink. The stream is a byte sequence and a cursor; the sink is the byte
 * sequence written so far.
 */
module Rw {
  import opened Numeric
  import opened Results

  // ---------------------------------------------------------------------
  // HasBeBytes: from_be_bytes / to_be_bytes, for any width N (the source
  // instantiates N = 1, 2, 4, 8 for u8, u16, u32, u64)
  // ---------------------------------------------------------------------

  /** The value of `buf` read most significant byte first. */
  function FromBeBytes(buf: seq<u8>): (r: nat)
    ensures r < Pow256(|buf|)
  {
    if buf == [] then 0
    else FromBeBytes(buf[..|buf| - 1]) * 256 + buf[|buf| - 1]
  }

  /** The N bytes of `x`, most significant byte first. */
  function ToBeBytes(x: nat, n: nat): (r: seq<u8>)
    requires x < Pow256(n)
    ensures |r| == n
  {
    if n == 0 then [] else ToBeBytes(x / 256, n - 1) + [x % 256]
  }

  lemma {:induction false} FromToBeBytes(x: nat, n: nat)
    requires x < Pow256(n)
    ensures FromBeBytes(ToBeBytes(x, n)) == x
  {
    if n > 0 {
      var hi := ToBeBytes(x / 256, n - 1);
      FromToBeBytes(x / 256, n - 1);
      assert ToBeBytes(x, n)[..n - 1] == hi;
    }
  }

  lemma {:induction false} ToFromBeBytes(buf: seq<u8>)
    ensures ToBeBytes(FromBeBytes(buf), |buf|) == buf
  {
    if buf != [] {
      var init := buf[..|buf| - 1];
      var v := FromBeBytes(buf);
      ToFromBeBytes(init);
      assert v / 256 == FromBeBytes(init) && v % 256 == buf[|buf| - 1];
      assert buf == init + [buf[|buf| - 1]];
    }
  }

  /** The sum over i < N of buf[i] * 256^(N-1-i), taken from the front. */
  function PositionalSum(buf: seq<u8>): nat
  {
    if buf == [] then 0 else buf[0] * Pow256(|buf| - 1) + PositionalSum(buf[1..])
  }

  lemma {:induction false} FromBeBytesIsPositionalSum(buf: seq<u8>)
    ensures FromBeBytes(buf) == PositionalSum(buf)
  {
    if |buf| > 1 {
      var n := |buf|;
      var mid := buf[1..n - 1];
      FromBeBytesIsPositionalSum(buf[..n - 1]);
      FromBeBytesIsPositionalSum(buf[1..]);
      FromBeBytesIsPositionalSum(mid);
      assert buf[..n - 1][1..] == mid;
      assert buf[1..][..n - 2] == mid;
      var p := Pow256(n - 2);
      var ps := PositionalSum(mid);
      assert FromBeBytes(buf) == (buf[0] * p + ps) * 256 + buf[n - 1];
      assert PositionalSum(buf) == buf[0] * (256 * p) + (ps * 256 + buf[n - 1]);
      Distribute(buf[0], p, ps);
    } else if |buf| == 1 {
      assert buf[..0] == [];
      assert buf[1..] == [];
    }
  }

  lemma Distribute(a: nat, p: nat, q: nat)
    ensures (a * p + q) * 256 == a * (256 * p) + q * 256
  {
  }

  /** The value of a concatenation: the front part shifted past the back part. */
  lemma {:induction false} FromBeBytesConcat(p: seq<u8>, q: seq<u8>)
    ensures FromBeBytes(p + q) == FromBeBytes(p) * Pow256(|q|) + FromBeBytes(q)
  {
    if q != [] {
      var q' := q[..|q| - 1];
      assert (p + q)[..|p + q| - 1] == p + q';
      FromBeBytesConcat(p, q');
      Distribute(FromBeBytes(p), Pow256(|q'|), FromBeBytes(q'));
    } else {
      assert p + q == p;
    }
  }

  // ---------------------------------------------------------------------
  // What a read consumes and what a write appends, as functions
  // ---------------------------------------------------------------------

  /** A decoded value and the bytes left after it. */
  datatype Parsed<+T> = Parsed(value: T, rest: seq<u8>)

  /** `read_n`: the first N bytes as a big-endian value, or a short-read error. */
  function ReadBe(s: seq<u8>, n: nat): (r: Result<Parsed<nat>>)
    ensures r.Ok? <==> n <= |s|
    ensures r.Ok? ==> r.value.value < Pow256(n) && r.value.rest == s[n..]
    ensures r.Ok? ==> s == ToBeBytes(r.value.value, n) + r.value.rest
  {
    if |s| < n then Err(ReadError(n, |s|))
    else
      ToFromBeBytes(s[..n]);
      Ok(Parsed(FromBeBytes(s[..n]), s[n..]))
  }

  // The fixed-width reads, written out byte by byte. Each agrees with
  // `ReadBe` at its width (the `Read*IsReadBe` lemmas below).

  /** Two bytes, most significant first. */
  function Be16(hi: u8, lo: u8): u16 {
    hi * 0x100 + lo
  }

  function ReadU8(s: seq<u8>): (r: Result<Parsed<u8>>)
  {
    if |s| < 1 then Err(ReadError(1, |s|)) else Ok(Parsed(s[0], s[1..]))
  }

  function ReadU16(s: seq<u8>): (r: Result<Parsed<u16>>)
  {
    if |s| < 2 then Err(ReadError(2, |s|)) else Ok(Parsed(Be16(s[0], s[1]), s[2..]))
  }

  function ReadU32(s: seq<u8>): (r: Result<Parsed<u32>>)
  {
    if |s| < 4 then Err(ReadError(4, |s|))
    else Ok(Parsed(Be16(s[0], s[1]) * 0x1_0000 + Be16(s[2], s[3]), s[4..]))
  }

  function ReadU64(s: seq<u8>): (r: Result<Parsed<u64>>)
  {
    if |s| < 8 then Err(ReadError(8, |s|))
    else
      var hi := Be16(s[0], s[1]) * 0x1_0000 + Be16(s[2], s[3]);
      var lo := Be16(s[4], s[5]) * 0x1_0000 + Be16(s[6], s[7]);
      Ok(Parsed(hi * 0x1_0000_0000 + lo, s[8..]))
  }

  /** The value of two and of four bytes, most significant first. */
  lemma FromBeBytesShort(s: seq<u8>)
    requires |s| >= 2
    ensures FromBeBytes(s[..2]) == Be16(s[0], s[1])
  {
    assert s[..2][..1] == s[..1];
    assert s[..1][..0] == [];
  }

  lemma FromBeBytesWord(s: seq<u8>)
    requires |s| >= 4
    ensures FromBeBytes(s[..4]) == Be16(s[0], s[1]) * 0x1_0000 + Be16(s[2], s[3])
  {
    var t := s[2..];
    assert s[..4] == s[..2] + t[..2];
    FromBeBytesConcat(s[..2], t[..2]);
    FromBeBytesShort(s);
    FromBeBytesShort(t);
    Pow256Widths();
  }

  /**
   * Each fixed-width read fails exactly when `read_n` at its width fails,
   * with the same error, and otherwise gives the same value and rest.
   */
  lemma ReadU8IsReadBe(s: seq<u8>)
    ensures ReadBe(s, 1).Err? ==> ReadU8(s) == Err(ReadBe(s, 1).error)
    ensures ReadBe(s, 1).Ok? ==> ReadU8(s) == Ok(Parsed(ReadBe(s, 1).value.value, ReadBe(s, 1).value.rest))
  {
    if |s| >= 1 {
      assert s[..1][..0] == [];
    }
  }

  lemma ReadU16IsReadBe(s: seq<u8>)
    ensures ReadBe(s, 2).Err? ==> ReadU16(s) == Err(ReadBe(s, 2).error)
    ensures ReadBe(s, 2).Ok? ==> ReadU16(s) == Ok(Parsed(ReadBe(s, 2).value.value, ReadBe(s, 2).value.rest))
  {
    if |s| >= 2 {
      FromBeBytesShort(s);
    }
  }

  lemma ReadU32IsReadBe(s: seq<u8>)
    ensures ReadBe(s, 4).Err? ==> ReadU32(s) == Err(ReadBe(s, 4).error)
    ensures ReadBe(s, 4).Ok? ==> ReadU32(s) == Ok(Parsed(ReadBe(s, 4).value.value, ReadBe(s, 4).value.rest))
  {
    if |s| >= 4 {
      FromBeBytesWord(s);
    }
  }

  lemma ReadU64IsReadBe(s: seq<u8>)
    ensures ReadBe(s, 8).Err? ==> ReadU64(s) == Err(ReadBe(s, 8).error)
    ensures ReadBe(s, 8).Ok? ==> ReadU64(s) == Ok(Parsed(ReadBe(s, 8).value.value, ReadBe(s, 8).value.rest))
  {
    if |s| >= 8 {
      var t := s[4..];
      assert s[..8] == s[..4] + t[..4];
      FromBeBytesConcat(s[..4], t[..4]);
      FromBeBytesWord(s);
      FromBeBytesWord(t);
      Pow256Widths();
    }
  }

  // The `to_be_bytes` of each width, written out byte by byte. Each is the
  // N-byte big-endian conversion, as the lemmas below show.

  function EncodeU8(x: u8): seq<u8> {
    [x]
  }

  function EncodeU16(x: u16): seq<u8> {
    [x / 0x100, x % 0x100]
  }

  function EncodeU32(x: u32): seq<u8> {
    EncodeU16(x / 0x1_0000) + EncodeU16(x % 0x1_0000)
  }

  function EncodeU64(x: u64): seq<u8> {
    EncodeU32(x / 0x1_0000_0000) + EncodeU32(x % 0x1_0000_0000)
  }

  /**
   * Appending two pieces one after the other appends their concatenation.
   * Stated once so that proofs about long runs of writes can regroup them
   * one step at a time.
   */
  lemma AppendAssoc(a: seq<u8>, b: seq<u8>, c: seq<u8>)
    ensures a + b + c == a + (b + c)
  {
  }

  /** A non-empty sequence is its front followed by its last element. */
  lemma LastSplit<T>(xs: seq<T>)
    requires |xs| > 0
    ensures xs == xs[..|xs| - 1] + [xs[|xs| - 1]]
  {
  }

  /**
   * The big-endian conversion of a 2k-byte value is that of its high half
   * followed by that of its low half.
   */
  lemma ToBeBytesHalves(hi: nat, lo: nat, k: nat)
    requires hi < Pow256(k) && lo < Pow256(k)
    ensures hi * Pow256(k) + lo < Pow256(k + k)
    ensures ToBeBytes(hi * Pow256(k) + lo, k + k) == ToBeBytes(hi, k) + ToBeBytes(lo, k)
  {
    var y := ToBeBytes(hi, k) + ToBeBytes(lo, k);
    FromBeBytesConcat(ToBeBytes(hi, k), ToBeBytes(lo, k));
    FromToBeBytes(hi, k);
    FromToBeBytes(lo, k);
    ToFromBeBytes(y);
  }

  lemma EncodeU8IsToBeBytes(x: u8)
    ensures Pow256(1) == 0x100 && EncodeU8(x) == ToBeBytes(x, 1)
  {
  }

  lemma EncodeU16IsToBeBytes(x: u16)
    ensures Pow256(2) == 0x1_0000 && EncodeU16(x) == ToBeBytes(x, 2)
  {
    Pow256Widths();
    ToBeBytesHalves(x / 0x100, x % 0x100, 1);
  }

  lemma EncodeU32IsToBeBytes(x: u32)
    ensures Pow256(4) == 0x1_0000_0000 && EncodeU32(x) == ToBeBytes(x, 4)
  {
    Pow256Widths();
    ToBeBytesHalves(x / 0x1_0000, x % 0x1_0000, 2);
    EncodeU16IsToBeBytes(x / 0x1_0000);
    EncodeU16IsToBeBytes(x % 0x1_0000);
  }

  lemma EncodeU64IsToBeBytes(x: u64)
    ensures Pow256(8) == 0x1_0000_0000_0000_0000 && EncodeU64(x) == ToBeBytes(x, 8)
  {
    Pow256Widths();
    ToBeBytesHalves(x / 0x1_0000_0000, x % 0x1_0000_0000, 4);
    EncodeU32IsToBeBytes(x / 0x1_0000_0000);
    EncodeU32IsToBeBytes(x % 0x1_0000_0000);
  }

  /** Reading N bytes back from what an N-byte write appended gives the value. */
  lemma ReadBeAfterWrite(x: nat, n: nat, rest: seq<u8>)
    requires x < Pow256(n)
    ensures ReadBe(ToBeBytes(x, n) + rest, n) == Ok(Parsed(x, rest))
  {
    var s := ToBeBytes(x, n) + rest;
    assert s[..n] == ToBeBytes(x, n);
    assert s[n..] == rest;
    FromToBeBytes(x, n);
  }

  lemma ReadU8AfterWrite(x: u8, rest: seq<u8>)
    ensures ReadU8(EncodeU8(x) + rest) == Ok(Parsed(x, rest))
  {
    Pow256Widths();
    EncodeU8IsToBeBytes(x);
    ReadBeAfterWrite(x, 1, rest);
    ReadU8IsReadBe(EncodeU8(x) + rest);
  }

  lemma ReadU16AfterWrite(x: u16, rest: seq<u8>)
    ensures ReadU16(EncodeU16(x) + rest) == Ok(Parsed(x, rest))
  {
    Pow256Widths();
    EncodeU16IsToBeBytes(x);
    ReadBeAfterWrite(x, 2, rest);
    ReadU16IsReadBe(EncodeU16(x) + rest);
  }

  lemma ReadU32AfterWrite(x: u32, rest: seq<u8>)
    ensures ReadU32(EncodeU32(x) + rest) == Ok(Parsed(x, rest))
  {
    Pow256Widths();
    EncodeU32IsToBeBytes(x);
    ReadBeAfterWrite(x, 4, rest);
    ReadU32IsReadBe(EncodeU32(x) + rest);
  }

  lemma ReadU64AfterWrite(x: u64, rest: seq<u8>)
    ensures ReadU64(EncodeU64(x) + rest) == Ok(Parsed(x, rest))
  {
    Pow256Widths();
    EncodeU64IsToBeBytes(x);
    ReadBeAfterWrite(x, 8, rest);
    ReadU64IsReadBe(EncodeU64(x) + rest);
  }

  /**
   * The other direction: whatever a fixed-width read returns, written back
   * at the same width, gives exactly the bytes the read consumed.
   */
  lemma WriteAfterReadU8(s: seq<u8>)
    ensures ReadU8(s).Ok? <==> |s| >= 1
    ensures ReadU8(s).Ok? ==> s == EncodeU8(ReadU8(s).value.value) + ReadU8(s).value.rest
  {
  }

  lemma WriteAfterReadU16(s: seq<u8>)
    ensures ReadU16(s).Ok? <==> |s| >= 2
    ensures ReadU16(s).Ok? ==> s == EncodeU16(ReadU16(s).value.value) + ReadU16(s).value.rest
  {
  }

  lemma WriteAfterReadU32(s: seq<u8>)
    ensures ReadU32(s).Ok? <==> |s| >= 4
    ensures ReadU32(s).Ok? ==> s == EncodeU32(ReadU32(s).value.value) + ReadU32(s).value.rest
  {
    if |s| >= 4 {
      var hi := Be16(s[0], s[1]);
      var lo := Be16(s[2], s[3]);
      var x: u32 := hi as int * 0x1_0000 + lo as int;
      assert ReadU32(s) == Ok(Parsed(x, s[4..]));
      WriteAfterReadU16(s);
      WriteAfterReadU16(s[2..]);
      assert s[2..][2..] == s[4..];
      assert EncodeU32(x) == EncodeU16(hi) + EncodeU16(lo) by {
        assert x / 0x1_0000 == hi && x % 0x1_0000 == lo;
      }
      AppendAssoc(EncodeU16(hi), EncodeU16(lo), s[4..]);
    }
  }

  lemma WriteAfterReadU64(s: seq<u8>)
    ensures ReadU64(s).Ok? <==> |s| >= 8
    ensures ReadU64(s).Ok? ==> s == EncodeU64(ReadU64(s).value.value) + ReadU64(s).value.rest
  {
    if |s| >= 8 {
      ReadU64Halves(s);
      WriteAfterReadU32(s);
      WriteAfterReadU32(s[4..]);
      var hi := ReadU32(s).value.value;
      var lo := ReadU32(s[4..]).value.value;
      EncodeU64Halves(hi, lo);
      AppendAssoc(EncodeU32(hi), EncodeU32(lo), s[8..]);
    }
  }

  /** A long read is a read of its high word followed by a read of its low word. */
  lemma ReadU64Halves(s: seq<u8>)
    requires |s| >= 8
    ensures ReadU32(s) == Ok(Parsed(ReadU32(s).value.value, s[4..]))
    ensures ReadU32(s[4..]) == Ok(Parsed(ReadU32(s[4..]).value.value, s[8..]))
    ensures ReadU64(s) == Ok(Parsed(ReadU32(s).value.value * 0x1_0000_0000 + ReadU32(s[4..]).value.value, s[8..]))
  {
    var t := s[4..];
    assert t[0] == s[4] && t[1] == s[5] && t[2] == s[6] && t[3] == s[7] && t[4..] == s[8..];
  }

  /** A long whose high and low words are given is written as the high word, then the low one. */
  lemma EncodeU64Halves(hi: u32, lo: u32)
    ensures hi * 0x1_0000_0000 + lo < 0x1_0000_0000_0000_0000
    ensures EncodeU64(hi * 0x1_0000_0000 + lo) == EncodeU32(hi) + EncodeU32(lo)
  {
    var x := hi * 0x1_0000_0000 + lo;
    assert x / 0x1_0000_0000 == hi && x % 0x1_0000_0000 == lo;
  }

  /** The byte test vectors of the writer tests. */
  lemma WriterTestVectors()
    ensures EncodeU8(0xca) + EncodeU8(0xfe) + EncodeU8(0xba) + EncodeU8(0xbe) == [0xca, 0xfe, 0xba, 0xbe]
    ensures EncodeU16(0xcafe) + EncodeU16(0xbabe) == [0xca, 0xfe, 0xba, 0xbe]
    ensures EncodeU32(0xcafebabe) == [0xca, 0xfe, 0xba, 0xbe]
    ensures EncodeU64(0x00000041000f0a00) == [0x00, 0x00, 0x00, 0x41, 0x00, 0x0f, 0x0a, 0x00]
  {
  }

  /** The byte test vectors of the reader tests. */
  lemma ReaderTestVectors()
    ensures ReadU8([0xca, 0xfe, 0xba, 0xbe]) == Ok(Parsed(0xca, [0xfe, 0xba, 0xbe]))
    ensures ReadU16([0xca, 0xfe, 0xba, 0xbe]) == Ok(Parsed(0xcafe, [0xba, 0xbe]))
    ensures ReadU16([0xba, 0xbe]) == Ok(Parsed(0xbabe, []))
    ensures ReadU32([0xca, 0xfe, 0xba, 0xbe]) == Ok(Parsed(0xcafebabe, []))
    ensures ReadU64([0x00, 0x00, 0x00, 0x41, 0x00, 0x0f, 0x0a, 0x00]) == Ok(Parsed(0x00000041000f0a00, []))
  {
    var short: seq<u8> := [0xba, 0xbe];
    assert short[2..] == [];
    var word: seq<u8> := [0xca, 0xfe, 0xba, 0xbe];
    assert word[4..] == [];
    var long: seq<u8> := [0x00, 0x00, 0x00, 0x41, 0x00, 0x0f, 0x0a, 0x00];
    assert long[8..] == [];
    assert Be16(long[0], long[1]) * 0x1_0000 + Be16(long[2], long[3]) == 0x41;
    assert Be16(long[4], long[5]) * 0x1_0000 + Be16(long[6], long[7]) == 0x000f0a00;
  }

  // ---------------------------------------------------------------------
  // Reader
  // ---------------------------------------------------------------------

  /** A stream of bytes consumed from the front. */
  class Reader {
    const data: seq<u8>
    var pos: nat

    ghost predicate Valid()
      reads this
    {
      pos <= |data|
    }

    /** The bytes not yet consumed. */
    function Remaining(): seq<u8>
      reads this
      requires Valid()
    {
      data[pos..]
    }

    constructor (data: seq<u8>)
      ensures Valid() && this.data == data && pos == 0
    {
      this.data := data;
      pos := 0;
    }

    /** `read_n`: fill an N-byte buffer with `read_exact`, then convert it. */
    method ReadN(n: nat) returns (r: Result<nat>)
      requires Valid()
      modifies this
      ensures Valid()
      ensures match ReadBe(old(Remaining()), n)
        case Ok(p) => r == Ok(p.value) && Remaining() == p.rest && pos == old(pos) + n
        case Err(e) => r == Err(e) && pos == old(pos)
    {
      if |data| - pos < n {
        return Err(ReadError(n, |data| - pos));
      }
      var buf := data[pos..pos + n];
      assert buf == data[pos..][..n];
      pos := pos + n;
      r := Ok(FromBeBytes(buf));
    }

    method ReadUnsignedByte() returns (r: Result<u8>)
      requires Valid()
      modifies this
      ensures Valid()
      ensures match ReadU8(old(Remaining()))
        case Ok(p) => r == Ok(p.value) && Remaining() == p.rest && pos == old(pos) + 1
        case Err(e) => r == Err(e) && pos == old(pos)
    {
      Pow256Widths();
      ReadU8IsReadBe(Remaining());
      var v :- ReadN(1);
      r := Ok(v);
    }

    method ReadUnsignedShort() returns (r: Result<u16>)
      requires Valid()
      modifies this
      ensures Valid()
      ensures match ReadU16(old(Remaining()))
        case Ok(p) => r == Ok(p.value) && Remaining() == p.rest && pos == old(pos) + 2
        case Err(e) => r == Err(e) && pos == old(pos)
    {
      Pow256Widths();
      ReadU16IsReadBe(Remaining());
      var v :- ReadN(2);
      r := Ok(v);
    }

    method ReadUnsignedInt() returns (r: Result<u32>)
      requires Valid()
      modifies this
      ensures Valid()
      ensures match ReadU32(old(Remaining()))
        case Ok(p) => r == Ok(p.value) && Remaining() == p.rest && pos == old(pos) + 4
        case Err(e) => r == Err(e) && pos == old(pos)
    {
      Pow256Widths();
      ReadU32IsReadBe(Remaining());
      var v :- ReadN(4);
      r := Ok(v);
    }

    method ReadUnsignedLong() returns (r: Result<u64>)
      requires Valid()
      modifies this
      ensures Valid()
      ensures match ReadU64(old(Remaining()))
        case Ok(p) => r == Ok(p.value) && Remaining() == p.rest && pos == old(pos) + 8
        case Err(e) => r == Err(e) && pos == old(pos)
    {
      Pow256Widths();
      ReadU64IsReadBe(Remaining());
      var v :- ReadN(8);
      r := Ok(v);
    }
  }

  // ---------------------------------------------------------------------
  // Writer
  // ---------------------------------------------------------------------

  /** A sink that collects every byte written to it, in order. */
  class Writer {
    var out: seq<u8>

    constructor ()
      ensures out == []
    {
      out := [];
    }

    /**
     * `write_n`: convert to N big-endian bytes, check the width, append.
     * The width check never fails.
     */
    method WriteN(data: nat, n: nat) returns (r: Outcome)
      requires data < Pow256(n)
      modifies this
      ensures r == Pass && out == old(out) + ToBeBytes(data, n)
    {
      var buf := ToBeBytes(data, n);
      var len: int := n;
      if |buf| == len {
        out := out + buf;
        r := Pass;
      } else {
        r := Fail(WriteError(len, |buf|));
      }
    }

    method WriteUnsignedByte(b: u8) returns (r: Outcome)
      modifies this
      ensures r == Pass && out == old(out) + EncodeU8(b)
    {
      EncodeU8IsToBeBytes(b);
      r := WriteN(b, 1);
    }

    method WriteUnsignedShort(s: u16) returns (r: Outcome)
      modifies this
      ensures r == Pass && out == old(out) + EncodeU16(s)
    {
      EncodeU16IsToBeBytes(s);
      r := WriteN(s, 2);
    }

    method WriteUnsignedInt(i: u32) returns (r: Outcome)
      modifies this
      ensures r == Pass && out == old(out) + EncodeU32(i)
    {
      EncodeU32IsToBeBytes(i);
      r := WriteN(i, 4);
    }

    method WriteUnsignedLong(l: u64) returns (r: Outcome)
      modifies this
      ensures r == Pass && out == old(out) + EncodeU64(l)
    {
      EncodeU64IsToBeBytes(l);
      r := WriteN(l, 8);
    }
  }

  /** `test_read_unsigned_byte`: four one-byte reads return the bytes in order. */
  method TestReadUnsignedByte() returns (b0: Result<u8>, b1: Result<u8>, b2: Result<u8>, b3: Result<u8>)
    ensures b0 == Ok(0xca) && b1 == Ok(0xfe) && b2 == Ok(0xba) && b3 == Ok(0xbe)
  {
    ReadU8AfterWrite(0xca, [0xfe, 0xba, 0xbe]);
    ReadU8AfterWrite(0xfe, [0xba, 0xbe]);
    ReadU8AfterWrite(0xba, [0xbe]);
    ReadU8AfterWrite(0xbe, []);
    var reader := new Reader([0xca, 0xfe, 0xba, 0xbe]);
    b0 := reader.ReadUnsignedByte();
    b1 := reader.ReadUnsignedByte();
    b2 := reader.ReadUnsignedByte();
    b3 := reader.ReadUnsignedByte();
  }

  /** `test_read_unsigned_short`: the second read continues where the first stopped. */
  method TestReadUnsignedShort() returns (hi: Result<u16>, lo: Result<u16>)
    ensures hi == Ok(0xcafe) && lo == Ok(0xbabe)
  {
    ReaderTestVectors();
    var reader := new Reader([0xca, 0xfe, 0xba, 0xbe]);
    hi := reader.ReadUnsignedShort();
    lo := reader.ReadUnsignedShort();
  }

  /** `test_read_unsigned_int`: four bytes read as one big-endian word. */
  method TestReadUnsignedInt() returns (word: Result<u32>)
    ensures word == Ok(0xcafebabe)
  {
    ReaderTestVectors();
    var reader := new Reader([0xca, 0xfe, 0xba, 0xbe]);
    word := reader.ReadUnsignedInt();
  }

  /** `test_read_unsigned_long`: eight bytes read as one big-endian long. */
  method TestReadUnsignedLong() returns (long: Result<u64>)
    ensures long == Ok(0x00000041000f0a00)
  {
    ReaderTestVectors();
    var reader := new Reader([0x00, 0x00, 0x00, 0x41, 0x00, 0x0f, 0x0a, 0x00]);
    long := reader.ReadUnsignedLong();
  }

  /** `test_write_unsigned_byte`: each write appends its byte after the earlier ones. */
  method TestWriteUnsignedByte() returns (buf: seq<u8>)
    ensures buf == [0xca, 0xfe, 0xba, 0xbe]
  {
    var writer := new Writer();
    var _ := writer.WriteUnsignedByte(0xca);
    var _ := writer.WriteUnsignedByte(0xfe);
    var _ := writer.WriteUnsignedByte(0xba);
    var _ := writer.WriteUnsignedByte(0xbe);
    WriterTestVectors();
    buf := writer.out;
  }

  /** `test_write_unsigned_short`: two shorts, each most significant byte first. */
  method TestWriteUnsignedShort() returns (buf: seq<u8>)
    ensures buf == [0xca, 0xfe, 0xba, 0xbe]
  {
    var writer := new Writer();
    var _ := writer.WriteUnsignedShort(0xcafe);
    var _ := writer.WriteUnsignedShort(0xbabe);
    WriterTestVectors();
    buf := writer.out;
  }

  /** `test_write_unsigned_int`: one word as four big-endian bytes. */
  method TestWriteUnsignedInt() returns (buf: seq<u8>)
    ensures buf == [0xca, 0xfe, 0xba, 0xbe]
  {
    var writer := new Writer();
    var _ := writer.WriteUnsignedInt(0xcafebabe);
    WriterTestVectors();
    buf := writer.out;
  }

  /** `test_write_unsigned_long`: one long as eight big-endian bytes. */
  method TestWriteUnsignedLong() returns (buf: seq<u8>)
    ensures buf == [0x00, 0x00, 0x00, 0x41, 0x00, 0x0f, 0x0a, 0x00]
  {
    var writer := new Writer();
    var _ := writer.WriteUnsignedLong(0x00000041000f0a00);
    WriterTestVectors();
    buf := writer.out;
  }
}
