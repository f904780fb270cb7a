/**
 * The decoder (deserializer.rs), as written. The pure `Parse*` functions say
 * what each step of `deserialize` reads from the bytes that remain and what
 * it builds; the `Deserializer` class performs those steps with a `Reader`,
 * and each of its methods is proved to return what the matching function
 * gives and to leave the reader where that function stops.
 *
 * Behaviour kept from the source:
 *  - the constant pool is read as `constant_pool_count - 1` entries, one after
 *    the other, with no slot reserved after a Long or a Double;
 *  - only the eleven tags model.rs declares are known; any other tag aborts
 *    (`UnknownTag`), and so does a pool count of 0 (`CountUnderflow`);
 *  - attributes are never read: `deserialize_attributes` consumes nothing
 *    and returns an empty list whatever the count;
 *  - `super_class` and every other index is kept as read.
 */
module Decoder {
  import opened Numeric
  import opened Results
  import opened Rw
  import opened Model
  import opened Encoder

  // ---------------------------------------------------------------------
  // Reading a run of items
  // ---------------------------------------------------------------------

  /**
   * `n` items read one after the other with `parse`, each starting where
   * the previous one stopped; the first failure is the result.
   */
  function ParseSeq<T>(parse: seq<u8> -> Result<Parsed<T>>, s: seq<u8>, n: nat): (r: Result<Parsed<seq<T>>>)
    ensures r.Ok? ==> |r.value.value| == n
  {
    if n == 0 then Ok(Parsed([], s))
    else
      var p :- ParseSeq(parse, s, n - 1);
      var x :- parse(p.rest);
      Ok(Parsed(p.value + [x.value], x.rest))
  }

  /** Once the item after the first `i` fails, every longer run fails with it. */
  lemma {:induction false} ParseSeqStuck<T>(parse: seq<u8> -> Result<Parsed<T>>, s: seq<u8>, i: nat, n: nat, e: Error)
    requires i < n
    requires ParseSeq(parse, s, i).Ok? && parse(ParseSeq(parse, s, i).value.rest) == Err(e)
    ensures ParseSeq(parse, s, n) == Err(e)
    decreases n
  {
    if n > i + 1 {
      ParseSeqStuck(parse, s, i, n - 1, e);
    }
  }

  /** A successful run of `n` reads is a successful run of `n - 1` reads and one more read. */
  lemma ParseSeqLast<T>(parse: seq<u8> -> Result<Parsed<T>>, s: seq<u8>, n: nat)
    requires n > 0 && ParseSeq(parse, s, n).Ok?
    ensures ParseSeq(parse, s, n - 1).Ok?
    ensures var p := ParseSeq(parse, s, n - 1).value;
      parse(p.rest).Ok?
      && ParseSeq(parse, s, n).value == Parsed(p.value + [parse(p.rest).value.value], parse(p.rest).value.rest)
  {
  }

  /**
   * The byte loop of a Utf8 entry: `n` single-byte reads take the next `n`
   * bytes as they are, or fail on the first missing one.
   */
  lemma {:induction false} ParseBytesTakesPrefix(s: seq<u8>, n: nat)
    ensures ParseSeq(ReadU8, s, n) == if n <= |s| then Ok(Parsed(s[..n], s[n..])) else Err(ReadError(1, 0))
  {
    if n > 0 {
      ParseBytesTakesPrefix(s, n - 1);
      if n <= |s| {
        assert s[..n] == s[..n - 1] + [s[n - 1]];
        assert s[n - 1..][1..] == s[n..];
      }
    }
  }

  // ---------------------------------------------------------------------
  // The constant pool
  // ---------------------------------------------------------------------

  /**
   * One entry of the loop of `deserialize_constant_pool`: the tag byte, then
   * the fields of the kind it names, in the source's order of arms.
   */
  function ParseCpInfo(s: seq<u8>): Result<Parsed<CpInfo>> {
    var t :- ReadU8(s);
    var tag := t.value;
    if tag == CONSTANT_METHODREF then
      var c :- ReadU16(t.rest);
      var nt :- ReadU16(c.rest);
      Ok(Parsed(MethodrefInfo(tag, c.value, nt.value), nt.rest))
    else if tag == CONSTANT_CLASS then
      var n :- ReadU16(t.rest);
      Ok(Parsed(ClassInfo(tag, n.value), n.rest))
    else if tag == CONSTANT_FIELDREF then
      var c :- ReadU16(t.rest);
      var nt :- ReadU16(c.rest);
      Ok(Parsed(FieldrefInfo(tag, c.value, nt.value), nt.rest))
    else if tag == CONSTANT_INTERFACEMETHODREF then
      var c :- ReadU16(t.rest);
      var nt :- ReadU16(c.rest);
      Ok(Parsed(InterfaceMethodrefInfo(tag, c.value, nt.value), nt.rest))
    else if tag == CONSTANT_STRING then
      var i :- ReadU16(t.rest);
      Ok(Parsed(StringInfo(tag, i.value), i.rest))
    else if tag == CONSTANT_INTEGER then
      var b :- ReadU32(t.rest);
      Ok(Parsed(IntegerInfo(tag, b.value), b.rest))
    else if tag == CONSTANT_FLOAT then
      var b :- ReadU32(t.rest);
      Ok(Parsed(FloatInfo(tag, b.value), b.rest))
    else if tag == CONSTANT_LONG then
      var hi :- ReadU32(t.rest);
      var lo :- ReadU32(hi.rest);
      Ok(Parsed(LongInfo(tag, hi.value, lo.value), lo.rest))
    else if tag == CONSTANT_DOUBLE then
      var hi :- ReadU32(t.rest);
      var lo :- ReadU32(hi.rest);
      Ok(Parsed(DoubleInfo(tag, hi.value, lo.value), lo.rest))
    else if tag == CONSTANT_NAMEANDTYPE then
      var n :- ReadU16(t.rest);
      var d :- ReadU16(n.rest);
      Ok(Parsed(NameAndTypeInfo(tag, n.value, d.value), d.rest))
    else if tag == CONSTANT_UTF8 then
      var length :- ReadU16(t.rest);
      var bytes :- ParseSeq(ReadU8, length.rest, length.value as nat);
      Ok(Parsed(Utf8Info(tag, length.value, bytes.value), bytes.rest))
    else
      Err(UnknownTag(tag))
  }

  /** `deserialize_constant_pool`: `count - 1` entries; a count of 0 underflows. */
  function ParseConstantPool(s: seq<u8>, count: u16): Result<Parsed<seq<CpInfo>>> {
    if count == 0 then Err(CountUnderflow)
    else ParseSeq(ParseCpInfo, s, count as nat - 1)
  }

  /** An entry that cannot be read fails the whole pool. */
  lemma PoolStuck(s: seq<u8>, i: nat, count: u16, e: Error)
    requires i < count as int - 1
    requires ParseSeq(ParseCpInfo, s, i).Ok? && ParseCpInfo(ParseSeq(ParseCpInfo, s, i).value.rest) == Err(e)
    ensures ParseConstantPool(s, count) == Err(e)
  {
    ParseSeqStuck(ParseCpInfo, s, i, count as nat - 1, e);
  }

  /** The decoded entries as pool slots, in the order they were read. */
  function Occupied(entries: seq<CpInfo>): (r: seq<Option<CpInfo>>)
    ensures |r| == |entries|
    ensures forall i :: 0 <= i < |r| ==> r[i] == Some(entries[i])
  {
    seq(|entries|, i requires 0 <= i < |entries| => Some(entries[i]))
  }

  /**
   * What the decoder builds is always well formed: the entry's kind is the
   * one its tag names, the tag is one of the eleven declared ones, a Utf8
   * entry holds exactly `length` bytes, and the entry is read from the front
   * of the input.
   */
  lemma ParsedEntryWellFormed(s: seq<u8>)
    ensures ParseCpInfo(s).Ok? ==>
      var e := ParseCpInfo(s).value.value;
      && IsCoreKind(e) && WellFormedEntry(e) && e.tag == s[0]
      && |ParseCpInfo(s).value.rest| + EntrySize(e) == |s|
  {
    if ParseCpInfo(s).Ok? && s[0] == CONSTANT_UTF8 {
      var length := ReadU16(s[1..]).value;
      ParseBytesTakesPrefix(length.rest, length.value as nat);
    }
  }

  /** A tag byte followed by its fields, regrouped. */
  lemma TagThen(s: seq<u8>, fields: seq<u8>, rest: seq<u8>)
    requires |s| >= 1 && s[1..] == fields + rest
    ensures s == [s[0]] + fields + rest
  {
    assert s == [s[0]] + s[1..];
    AppendAssoc([s[0]], fields, rest);
  }

  /** Two fields read one after the other, written back. */
  lemma U16PairReadThenWrite(t: seq<u8>)
    requires ReadU16(t).Ok? && ReadU16(ReadU16(t).value.rest).Ok?
    ensures var a := ReadU16(t).value; var b := ReadU16(a.rest).value;
      t == EncodeU16(a.value) + EncodeU16(b.value) + b.rest
  {
    var a := ReadU16(t).value;
    WriteAfterReadU16(t);
    WriteAfterReadU16(a.rest);
    AppendAssoc(EncodeU16(a.value), EncodeU16(ReadU16(a.rest).value.value), ReadU16(a.rest).value.rest);
  }

  lemma U32PairReadThenWrite(t: seq<u8>)
    requires ReadU32(t).Ok? && ReadU32(ReadU32(t).value.rest).Ok?
    ensures var a := ReadU32(t).value; var b := ReadU32(a.rest).value;
      t == EncodeU32(a.value) + EncodeU32(b.value) + b.rest
  {
    var a := ReadU32(t).value;
    WriteAfterReadU32(t);
    WriteAfterReadU32(a.rest);
    AppendAssoc(EncodeU32(a.value), EncodeU32(ReadU32(a.rest).value.value), ReadU32(a.rest).value.rest);
  }

  /** Entries with two 16-bit fields, read then written back. */
  lemma PairEntryReadThenWrite(s: seq<u8>)
    requires ParseCpInfo(s).Ok?
    requires s[0] in {CONSTANT_METHODREF, CONSTANT_FIELDREF, CONSTANT_INTERFACEMETHODREF, CONSTANT_NAMEANDTYPE}
    ensures s == EncodeCpInfo(ParseCpInfo(s).value.value) + ParseCpInfo(s).value.rest
  {
    var t := s[1..];
    var a := ReadU16(t).value;
    var b := ReadU16(a.rest).value;
    assert ParseCpInfo(s).value.rest == b.rest;
    assert EncodeCpInfo(ParseCpInfo(s).value.value) == [s[0]] + (EncodeU16(a.value) + EncodeU16(b.value));
    U16PairReadThenWrite(t);
    TagThen(s, EncodeU16(a.value) + EncodeU16(b.value), b.rest);
  }

  /** Entries with one field, read then written back. */
  lemma SingleEntryReadThenWrite(s: seq<u8>)
    requires ParseCpInfo(s).Ok?
    requires s[0] in {CONSTANT_CLASS, CONSTANT_STRING, CONSTANT_INTEGER, CONSTANT_FLOAT}
    ensures s == EncodeCpInfo(ParseCpInfo(s).value.value) + ParseCpInfo(s).value.rest
  {
    var t := s[1..];
    if s[0] == CONSTANT_CLASS || s[0] == CONSTANT_STRING {
      var a := ReadU16(t).value;
      assert ParseCpInfo(s).value.rest == a.rest;
      assert EncodeCpInfo(ParseCpInfo(s).value.value) == [s[0]] + EncodeU16(a.value);
      WriteAfterReadU16(t);
      TagThen(s, EncodeU16(a.value), a.rest);
    } else {
      var a := ReadU32(t).value;
      assert ParseCpInfo(s).value.rest == a.rest;
      assert EncodeCpInfo(ParseCpInfo(s).value.value) == [s[0]] + EncodeU32(a.value);
      WriteAfterReadU32(t);
      TagThen(s, EncodeU32(a.value), a.rest);
    }
  }

  /** Long and Double entries, read then written back. */
  lemma WideEntryReadThenWrite(s: seq<u8>)
    requires ParseCpInfo(s).Ok?
    requires s[0] == CONSTANT_LONG || s[0] == CONSTANT_DOUBLE
    ensures s == EncodeCpInfo(ParseCpInfo(s).value.value) + ParseCpInfo(s).value.rest
  {
    var t := s[1..];
    var a := ReadU32(t).value;
    var b := ReadU32(a.rest).value;
    assert ParseCpInfo(s).value.rest == b.rest;
    assert EncodeCpInfo(ParseCpInfo(s).value.value) == [s[0]] + (EncodeU32(a.value) + EncodeU32(b.value));
    U32PairReadThenWrite(t);
    TagThen(s, EncodeU32(a.value) + EncodeU32(b.value), b.rest);
  }

  /** A length, then exactly that many bytes, read then written back. */
  lemma CountedBytesReadThenWrite(t: seq<u8>)
    requires ReadU16(t).Ok?
    requires ParseSeq(ReadU8, ReadU16(t).value.rest, ReadU16(t).value.value as nat).Ok?
    ensures var length := ReadU16(t).value;
      var bytes := ParseSeq(ReadU8, length.rest, length.value as nat).value;
      t == EncodeU16(length.value) + bytes.value + bytes.rest
  {
    var length := ReadU16(t).value;
    var bytes := ParseSeq(ReadU8, length.rest, length.value as nat).value;
    assert length.rest == bytes.value + bytes.rest by {
      ParseBytesTakesPrefix(length.rest, length.value as nat);
    }
    WriteAfterReadU16(t);
    AppendAssoc(EncodeU16(length.value), bytes.value, bytes.rest);
  }

  /** Utf8 entries, read then written back: the length, then exactly that many bytes. */
  lemma Utf8EntryReadThenWrite(s: seq<u8>)
    requires ParseCpInfo(s).Ok? && s[0] == CONSTANT_UTF8
    ensures s == EncodeCpInfo(ParseCpInfo(s).value.value) + ParseCpInfo(s).value.rest
  {
    var t := s[1..];
    var length := ReadU16(t).value;
    var bytes := ParseSeq(ReadU8, length.rest, length.value as nat).value;
    assert ParseCpInfo(s).value == Parsed(Utf8Info(s[0], length.value, bytes.value), bytes.rest);
    CountedBytesReadThenWrite(t);
    TagThen(s, EncodeU16(length.value) + bytes.value, bytes.rest);
  }

  /**
   * What the decoder reads is exactly what the encoder writes for the entry
   * it returns: the bytes it consumed are that entry's encoding.
   */
  lemma CpInfoReadThenWrite(s: seq<u8>)
    ensures ParseCpInfo(s).Ok? ==> s == EncodeCpInfo(ParseCpInfo(s).value.value) + ParseCpInfo(s).value.rest
  {
    if ParseCpInfo(s).Ok? {
      var tag := s[0];
      if tag in {CONSTANT_METHODREF, CONSTANT_FIELDREF, CONSTANT_INTERFACEMETHODREF, CONSTANT_NAMEANDTYPE} {
        PairEntryReadThenWrite(s);
      } else if tag in {CONSTANT_CLASS, CONSTANT_STRING, CONSTANT_INTEGER, CONSTANT_FLOAT} {
        SingleEntryReadThenWrite(s);
      } else if tag == CONSTANT_LONG || tag == CONSTANT_DOUBLE {
        WideEntryReadThenWrite(s);
      } else {
        Utf8EntryReadThenWrite(s);
      }
    }
  }

  /**
   * A tag that is not one of the eleven declared ones stops the decoder
   * (`unimplemented!()` in the source); an empty input is a short read.
   */
  lemma UnknownTagRejected(s: seq<u8>)
    ensures |s| == 0 ==> ParseCpInfo(s) == Err(ReadError(1, 0))
    ensures |s| >= 1 && s[0] !in CoreTags ==> ParseCpInfo(s) == Err(UnknownTag(s[0]))
  {
  }

  /**
   * Each of the six kinds the encoder writes but the decoder does not know
   * comes back as an unknown-tag error.
   */
  lemma ExtendedKindRejected(e: CpInfo, rest: seq<u8>)
    requires !IsCoreKind(e) && WellFormedEntry(e)
    ensures ParseCpInfo(EncodeCpInfo(e) + rest) == Err(UnknownTag(e.tag))
  {
    TagTables();
    assert e.tag in ExtendedTags;
    UnknownTagRejected(EncodeCpInfo(e) + rest);
  }

  /** Two 16-bit fields read back in order. */
  lemma ReadU16Pair(a: u16, b: u16, rest: seq<u8>)
    ensures ReadU16(EncodeU16(a) + EncodeU16(b) + rest) == Ok(Parsed(a, EncodeU16(b) + rest))
    ensures ReadU16(EncodeU16(b) + rest) == Ok(Parsed(b, rest))
  {
    AppendAssoc(EncodeU16(a), EncodeU16(b), rest);
    ReadU16AfterWrite(a, EncodeU16(b) + rest);
    ReadU16AfterWrite(b, rest);
  }

  /** Two 32-bit fields read back in order. */
  lemma ReadU32Pair(a: u32, b: u32, rest: seq<u8>)
    ensures ReadU32(EncodeU32(a) + EncodeU32(b) + rest) == Ok(Parsed(a, EncodeU32(b) + rest))
    ensures ReadU32(EncodeU32(b) + rest) == Ok(Parsed(b, rest))
  {
    AppendAssoc(EncodeU32(a), EncodeU32(b), rest);
    ReadU32AfterWrite(a, EncodeU32(b) + rest);
    ReadU32AfterWrite(b, rest);
  }

  /** The tag byte comes first; the fields follow it. */
  lemma ReadTag(e: CpInfo, rest: seq<u8>)
    ensures EncodeCpInfo(e) + rest == [e.tag] + (EncodeCpInfo(e)[1..] + rest)
    ensures ReadU8(EncodeCpInfo(e) + rest) == Ok(Parsed(e.tag, EncodeCpInfo(e)[1..] + rest))
  {
    var r := EncodeCpInfo(e);
    assert r == [e.tag] + r[1..];
    AppendAssoc([e.tag], r[1..], rest);
  }

  /** Entries with two 16-bit fields, read back. */
  lemma ParsePairEntryAfterEncode(e: CpInfo, rest: seq<u8>)
    requires IsCoreKind(e) && WellFormedEntry(e)
    requires e.FieldrefInfo? || e.MethodrefInfo? || e.InterfaceMethodrefInfo? || e.NameAndTypeInfo?
    ensures ParseCpInfo(EncodeCpInfo(e) + rest) == Ok(Parsed(e, rest))
  {
    ReadTag(e, rest);
    var fields := EncodeCpInfo(e)[1..];
    match e
    case FieldrefInfo(_, c, nt) =>
      assert fields == EncodeU16(c) + EncodeU16(nt);
      ReadU16Pair(c, nt, rest);
    case MethodrefInfo(_, c, nt) =>
      assert fields == EncodeU16(c) + EncodeU16(nt);
      ReadU16Pair(c, nt, rest);
    case InterfaceMethodrefInfo(_, c, nt) =>
      assert fields == EncodeU16(c) + EncodeU16(nt);
      ReadU16Pair(c, nt, rest);
    case NameAndTypeInfo(_, n, d) =>
      assert fields == EncodeU16(n) + EncodeU16(d);
      ReadU16Pair(n, d, rest);
  }

  /** Entries with one field, read back. */
  lemma ParseSingleEntryAfterEncode(e: CpInfo, rest: seq<u8>)
    requires IsCoreKind(e) && WellFormedEntry(e)
    requires e.ClassInfo? || e.StringInfo? || e.IntegerInfo? || e.FloatInfo?
    ensures ParseCpInfo(EncodeCpInfo(e) + rest) == Ok(Parsed(e, rest))
  {
    ReadTag(e, rest);
    var fields := EncodeCpInfo(e)[1..];
    match e
    case ClassInfo(_, n) =>
      assert fields == EncodeU16(n);
      ReadU16AfterWrite(n, rest);
    case StringInfo(_, i) =>
      assert fields == EncodeU16(i);
      ReadU16AfterWrite(i, rest);
    case IntegerInfo(_, b) =>
      assert fields == EncodeU32(b);
      ReadU32AfterWrite(b, rest);
    case FloatInfo(_, b) =>
      assert fields == EncodeU32(b);
      ReadU32AfterWrite(b, rest);
  }

  /** Long and Double entries, read back. */
  lemma ParseWideEntryAfterEncode(e: CpInfo, rest: seq<u8>)
    requires IsCoreKind(e) && WellFormedEntry(e) && IsWide(e)
    ensures ParseCpInfo(EncodeCpInfo(e) + rest) == Ok(Parsed(e, rest))
  {
    ReadTag(e, rest);
    var fields := EncodeCpInfo(e)[1..];
    assert fields == EncodeU32(e.highBytes) + EncodeU32(e.lowBytes);
    ReadU32Pair(e.highBytes, e.lowBytes, rest);
  }

  /** Utf8 entries, read back: the length, then exactly that many bytes. */
  lemma ParseUtf8EntryAfterEncode(e: CpInfo, rest: seq<u8>)
    requires IsCoreKind(e) && WellFormedEntry(e) && e.Utf8Info?
    ensures ParseCpInfo(EncodeCpInfo(e) + rest) == Ok(Parsed(e, rest))
  {
    ReadTag(e, rest);
    var fields := EncodeCpInfo(e)[1..];
    assert fields == EncodeU16(e.length) + e.utf8;
    AppendAssoc(EncodeU16(e.length), e.utf8, rest);
    ReadU16AfterWrite(e.length, e.utf8 + rest);
    ParseBytesTakesPrefix(e.utf8 + rest, e.length as nat);
    assert (e.utf8 + rest)[..|e.utf8|] == e.utf8 && (e.utf8 + rest)[|e.utf8|..] == rest;
  }

  /**
   * Every entry of the eleven declared kinds, written by the encoder, is read
   * back as itself, and the decoder stops right after it.
   */
  lemma ParseCpInfoAfterEncode(e: CpInfo, rest: seq<u8>)
    requires IsCoreKind(e) && WellFormedEntry(e)
    ensures ParseCpInfo(EncodeCpInfo(e) + rest) == Ok(Parsed(e, rest))
  {
    if e.FieldrefInfo? || e.MethodrefInfo? || e.InterfaceMethodrefInfo? || e.NameAndTypeInfo? {
      ParsePairEntryAfterEncode(e, rest);
    } else if e.ClassInfo? || e.StringInfo? || e.IntegerInfo? || e.FloatInfo? {
      ParseSingleEntryAfterEncode(e, rest);
    } else if IsWide(e) {
      ParseWideEntryAfterEncode(e, rest);
    } else {
      ParseUtf8EntryAfterEncode(e, rest);
    }
  }

  /**
   * A run of occupied slots of the declared kinds, as the encoder writes it,
   * is read back entry by entry.
   */
  lemma OccupiedSnoc(entries: seq<CpInfo>, e: CpInfo)
    ensures Occupied(entries + [e]) == Occupied(entries) + [Some(e)]
  {
  }

  /** One more item after a successful run extends the run by that item. */
  lemma ParseSeqStep<T>(parse: seq<u8> -> Result<Parsed<T>>, s: seq<u8>, n: nat, p: Parsed<seq<T>>, x: Parsed<T>)
    requires ParseSeq(parse, s, n) == Ok(p) && parse(p.rest) == Ok(x)
    ensures ParseSeq(parse, s, n + 1) == Ok(Parsed(p.value + [x.value], x.rest))
  {
  }

  lemma {:induction false} ParseEntriesAfterEncode(pool: seq<Option<CpInfo>>, rest: seq<u8>)
    requires forall i :: 0 <= i < |pool| ==>
      pool[i].Some? && IsCoreKind(pool[i].value) && WellFormedEntry(pool[i].value)
    ensures ParseSeq(ParseCpInfo, EncodePool(pool) + rest, |pool|).Ok?
    ensures var p := ParseSeq(ParseCpInfo, EncodePool(pool) + rest, |pool|).value;
      Occupied(p.value) == pool && p.rest == rest
  {
    if pool != [] {
      var n := |pool| - 1;
      var last := pool[n].value;
      var s := EncodePool(pool) + rest;
      assert s == EncodePool(pool[..n]) + (EncodeCpInfo(last) + rest) by {
        AppendAssoc(EncodePool(pool[..n]), EncodeCpInfo(last), rest);
      }
      ParseEntriesAfterEncode(pool[..n], EncodeCpInfo(last) + rest);
      var p := ParseSeq(ParseCpInfo, s, n).value;
      ParseCpInfoAfterEncode(last, rest);
      ParseSeqStep(ParseCpInfo, s, n, p, Parsed(last, rest));
      OccupiedSnoc(p.value, last);
      LastSplit(pool);
    }
  }

  /** One more entry written after a run of entries. */
  lemma EntryWritten(s: seq<u8>, entries: seq<CpInfo>, t: seq<u8>, e: CpInfo, rest: seq<u8>)
    requires s == EncodePool(Occupied(entries)) + t && t == EncodeCpInfo(e) + rest
    ensures s == EncodePool(Occupied(entries + [e])) + rest
  {
    var slots := Occupied(entries + [e]);
    OccupiedSnoc(entries, e);
    assert slots[..|slots| - 1] == Occupied(entries) && slots[|slots| - 1] == Some(e);
    assert EncodePool(slots) == EncodePool(Occupied(entries)) + EncodeCpInfo(e);
    AppendAssoc(EncodePool(Occupied(entries)), EncodeCpInfo(e), rest);
  }

  /** The entries a run of reads returns, written back as slots, are the bytes it consumed. */
  lemma {:induction false} EntriesReadThenWrite(s: seq<u8>, n: nat, entries: seq<CpInfo>, rest: seq<u8>)
    requires ParseSeq(ParseCpInfo, s, n) == Ok(Parsed(entries, rest))
    ensures s == EncodePool(Occupied(entries)) + rest
  {
    if n > 0 {
      ParseSeqLast(ParseCpInfo, s, n);
      var p := ParseSeq(ParseCpInfo, s, n - 1).value;
      var x := ParseCpInfo(p.rest).value;
      EntriesReadThenWrite(s, n - 1, p.value, p.rest);
      assert p.rest == EncodeCpInfo(x.value) + x.rest by {
        CpInfoReadThenWrite(p.rest);
      }
      EntryWritten(s, p.value, p.rest, x.value, x.rest);
    } else {
      assert entries == [] && rest == s;
    }
  }

  /**
   * `deserialize_constant_pool` reads `count - 1` entries, and the bytes it
   * consumed are those entries' encoding; a count of 0 is an error.
   */
  lemma ConstantPoolReadThenWrite(s: seq<u8>, count: u16)
    ensures count == 0 ==> ParseConstantPool(s, count) == Err(CountUnderflow)
    ensures ParseConstantPool(s, count).Ok? ==>
      var p := ParseConstantPool(s, count).value;
      |p.value| == count as int - 1 && s == EncodePool(Occupied(p.value)) + p.rest
  {
    if count > 0 && ParseConstantPool(s, count).Ok? {
      var p := ParseConstantPool(s, count).value;
      EntriesReadThenWrite(s, count as nat - 1, p.value, p.rest);
    }
  }

  /** Every entry of a run the decoder reads is of a declared kind and well formed. */
  lemma {:induction false} EntriesWellFormed(s: seq<u8>, n: nat, entries: seq<CpInfo>, rest: seq<u8>)
    requires ParseSeq(ParseCpInfo, s, n) == Ok(Parsed(entries, rest))
    ensures forall i :: 0 <= i < |entries| ==> IsCoreKind(entries[i]) && WellFormedEntry(entries[i])
  {
    if n > 0 {
      ParseSeqLast(ParseCpInfo, s, n);
      var p := ParseSeq(ParseCpInfo, s, n - 1).value;
      var x := ParseCpInfo(p.rest).value;
      EntriesWellFormed(s, n - 1, p.value, p.rest);
      assert IsCoreKind(x.value) && WellFormedEntry(x.value) by {
        ParsedEntryWellFormed(p.rest);
      }
      assert entries == p.value + [x.value];
      forall i | 0 <= i < |entries|
        ensures IsCoreKind(entries[i]) && WellFormedEntry(entries[i])
      {
        if i < |p.value| {
          assert entries[i] == p.value[i];
        }
      }
    }
  }

  // ---------------------------------------------------------------------
  // Fields, methods and the class file
  // ---------------------------------------------------------------------

  /**
   * `deserialize_attributes`: its loop body is empty, so it reads nothing
   * and returns no attribute, whatever the count.
   */
  function ParseAttributes(s: seq<u8>, count: u16): Result<Parsed<seq<AttributeInfo>>> {
    Ok(Parsed([], s))
  }

  /** The loop body of `deserialize_fields` and `deserialize_methods`. */
  function ParseMember(s: seq<u8>): Result<Parsed<MemberInfo>> {
    var accessFlags :- ReadU16(s);
    var nameIndex :- ReadU16(accessFlags.rest);
    var descriptorIndex :- ReadU16(nameIndex.rest);
    var attributesCount :- ReadU16(descriptorIndex.rest);
    var attributes :- ParseAttributes(attributesCount.rest, attributesCount.value);
    Ok(Parsed(MemberInfo(accessFlags.value, nameIndex.value, descriptorIndex.value,
                         attributesCount.value, attributes.value), attributes.rest))
  }

  /** `deserialize`: every part in file order, each count followed by its items. */
  function ParseClassFile(s: seq<u8>): Result<Parsed<ClassFile>> {
    var magic :- ReadU32(s);
    var minorVersion :- ReadU16(magic.rest);
    var majorVersion :- ReadU16(minorVersion.rest);
    var constantPoolCount :- ReadU16(majorVersion.rest);
    var constantPool :- ParseConstantPool(constantPoolCount.rest, constantPoolCount.value);
    var accessFlags :- ReadU16(constantPool.rest);
    var thisClass :- ReadU16(accessFlags.rest);
    var superClass :- ReadU16(thisClass.rest);
    var interfacesCount :- ReadU16(superClass.rest);
    var interfaces :- ParseSeq(ReadU16, interfacesCount.rest, interfacesCount.value as nat);
    var fieldsCount :- ReadU16(interfaces.rest);
    var fields :- ParseSeq(ParseMember, fieldsCount.rest, fieldsCount.value as nat);
    var methodsCount :- ReadU16(fields.rest);
    var methods :- ParseSeq(ParseMember, methodsCount.rest, methodsCount.value as nat);
    var attributesCount :- ReadU16(methods.rest);
    var attributes :- ParseAttributes(attributesCount.rest, attributesCount.value);
    Ok(Parsed(ClassFile(magic.value, minorVersion.value, majorVersion.value,
                        constantPoolCount.value, Occupied(constantPool.value),
                        accessFlags.value, thisClass.value, superClass.value,
                        interfacesCount.value, interfaces.value,
                        fieldsCount.value, fields.value,
                        methodsCount.value, methods.value,
                        attributesCount.value, attributes.value), attributes.rest))
  }

  /**
   * A field or method read back from the encoder's output: its four
   * 16-bit fields as written, but no attributes, and the attribute bytes
   * the encoder wrote are left unread in front of whatever follows.
   */
  lemma ParseMemberAfterEncode(m: MemberInfo, rest: seq<u8>)
    requires AttributesEncodable(m.attributes)
    ensures ParseMember(EncodeMember(m) + rest)
         == Ok(Parsed(m.(attributes := []), EncodeAttributes(m.attributes) + rest))
  {
    var t := EncodeAttributes(m.attributes) + rest;
    var s3 := EncodeU16(m.attributesCount) + t;
    var s2 := EncodeU16(m.descriptorIndex) + s3;
    var s1 := EncodeU16(m.nameIndex) + s2;
    var a := EncodeU16(m.accessFlags);
    assert EncodeMember(m) + rest == a + s1 by {
      var n := EncodeU16(m.nameIndex);
      var d := EncodeU16(m.descriptorIndex);
      var c := EncodeU16(m.attributesCount);
      AppendAssoc(a + n + d + c, EncodeAttributes(m.attributes), rest);
      AppendAssoc(a + n + d, c, t);
      AppendAssoc(a + n, d, s3);
      AppendAssoc(a, n, s2);
    }
    ReadU16AfterWrite(m.accessFlags, s1);
    ReadU16AfterWrite(m.nameIndex, s2);
    ReadU16AfterWrite(m.descriptorIndex, s3);
    ReadU16AfterWrite(m.attributesCount, t);
  }

  /** Members without attributes are always encodable. */
  lemma NoAttributesEncodable(ms: seq<MemberInfo>)
    requires forall i :: 0 <= i < |ms| ==> ms[i].attributes == []
    ensures MembersEncodable(ms)
  {
    forall i | 0 <= i < |ms|
      ensures AttributesEncodable(ms[i].attributes)
    {
      assert ms[i].attributes == [];
    }
  }

  /** Fields or methods without attributes come back as written. */
  lemma {:induction false} ParseMembersAfterEncode(ms: seq<MemberInfo>, rest: seq<u8>)
    requires forall i :: 0 <= i < |ms| ==> ms[i].attributes == []
    ensures MembersEncodable(ms)
    ensures ParseSeq(ParseMember, EncodeMembers(ms) + rest, |ms|) == Ok(Parsed(ms, rest))
  {
    NoAttributesEncodable(ms);
    if ms != [] {
      var n := |ms| - 1;
      var init, last := ms[..n], ms[n];
      LastSplit(ms);
      NoAttributesEncodable(init);
      var s := EncodeMembers(ms) + rest;
      var t := EncodeMember(last) + rest;
      assert s == EncodeMembers(init) + t by {
        AppendAssoc(EncodeMembers(init), EncodeMember(last), rest);
      }
      ParseMembersAfterEncode(init, t);
      assert ParseSeq(ParseMember, s, n) == Ok(Parsed(init, t));
      ParseMemberAfterEncode(last, rest);
      assert last.attributes == [];
      assert ParseMember(t) == Ok(Parsed(last, rest));
      ParseSeqStep(ParseMember, s, n, Parsed(init, t), Parsed(last, rest));
    } else {
      assert EncodeMembers(ms) + rest == rest;
    }
  }

  /** Whatever run of 16-bit values is read, written back, gives the bytes consumed. */
  lemma {:induction false} U16sReadThenWrite(s: seq<u8>, n: nat)
    ensures ParseSeq(ReadU16, s, n).Ok? ==>
      var p := ParseSeq(ReadU16, s, n).value;
      s == EncodeU16s(p.value) + p.rest
  {
    if n > 0 && ParseSeq(ReadU16, s, n).Ok? {
      U16sReadThenWrite(s, n - 1);
      var p := ParseSeq(ReadU16, s, n - 1).value;
      var x := ReadU16(p.rest).value;
      var xs := p.value + [x.value];
      assert ParseSeq(ReadU16, s, n).value == Parsed(xs, x.rest);
      WriteAfterReadU16(p.rest);
      EncodeU16sPrefix(xs, n - 1);
      assert xs[..n - 1] == p.value && xs[..n] == xs;
      AppendAssoc(EncodeU16s(p.value), EncodeU16(x.value), x.rest);
    }
  }

  /** Interface indices come back as written. */
  lemma {:induction false} ParseU16sAfterEncode(xs: seq<u16>, rest: seq<u8>)
    ensures ParseSeq(ReadU16, EncodeU16s(xs) + rest, |xs|) == Ok(Parsed(xs, rest))
  {
    if xs != [] {
      var n := |xs| - 1;
      var s := EncodeU16s(xs) + rest;
      assert s == EncodeU16s(xs[..n]) + (EncodeU16(xs[n]) + rest) by {
        AppendAssoc(EncodeU16s(xs[..n]), EncodeU16(xs[n]), rest);
      }
      ParseU16sAfterEncode(xs[..n], EncodeU16(xs[n]) + rest);
      ReadU16AfterWrite(xs[n], rest);
      assert ParseSeq(ReadU16, s, n) == Ok(Parsed(xs[..n], EncodeU16(xs[n]) + rest));
      ParseSeqStep(ReadU16, s, n, Parsed(xs[..n], EncodeU16(xs[n]) + rest), Parsed(xs[n], rest));
      assert ParseSeq(ReadU16, s, n + 1) == Ok(Parsed(xs[..n] + [xs[n]], rest));
      LastSplit(xs);
      assert n + 1 == |xs|;
    } else {
      assert EncodeU16s(xs) + rest == rest;
    }
  }

  /** An empty slot 0 adds nothing to the pool's encoding. */
  lemma EncodePoolAfterSlotZero(pool: seq<Option<CpInfo>>)
    requires |pool| >= 1 && pool[0] == None
    ensures EncodePool(pool) == EncodePool(pool[1..])
  {
    EncodePoolConcat([None], pool[1..]);
    assert [None] + pool[1..] == pool;
    assert EncodePool([None]) == EncodePool([]) + EncodeSlot(None);
  }

  /**
   * The class files this decoder reads back: no Long or Double and none of
   * the six later constant kinds in the pool, counts equal to the lengths
   * they count, and no attributes anywhere.
   */
  predicate FaithfullyDecodable(cf: ClassFile) {
    && Encodable(cf)
    && |cf.constantPool| == cf.constantPoolCount as int
    && cf.constantPool[0] == None
    && (forall i :: 1 <= i < |cf.constantPool| ==>
          && cf.constantPool[i].Some?
          && IsCoreKind(cf.constantPool[i].value)
          && !IsWide(cf.constantPool[i].value)
          && WellFormedEntry(cf.constantPool[i].value))
    && cf.interfacesCount as int == |cf.interfaces|
    && cf.fieldsCount as int == |cf.fields|
    && cf.methodsCount as int == |cf.methods|
    && (forall i :: 0 <= i < |cf.fields| ==> cf.fields[i].attributes == [])
    && (forall i :: 0 <= i < |cf.methods| ==> cf.methods[i].attributes == [])
    && cf.attributes == []
  }

  /** The encoder's output for `cf`, followed by `rest`, as nested sections. */
  lemma EncodedClassFileSections(cf: ClassFile, rest: seq<u8>)
    requires Encodable(cf) && cf.interfacesCount as int == |cf.interfaces|
    requires |cf.constantPool| >= 1 && cf.constantPool[0] == None && cf.attributes == []
    ensures EncodeClassFile(cf) + rest
         == EncodeU32(cf.magic) + (EncodeU16(cf.minorVersion) + (EncodeU16(cf.majorVersion)
          + (EncodeU16(cf.constantPoolCount) + (EncodePool(cf.constantPool[1..])
          + (EncodeU16(cf.accessFlags) + (EncodeU16(cf.thisClass) + (EncodeU16(Bump(cf.superClass))
          + (EncodeU16(cf.interfacesCount) + (EncodeU16s(cf.interfaces)
          + (EncodeU16(cf.fieldsCount) + (EncodeMembers(cf.fields)
          + (EncodeU16(cf.methodsCount) + (EncodeMembers(cf.methods)
          + (EncodeU16(cf.attributesCount) + rest))))))))))))))
  {
    var pool := cf.constantPool;
    var s14 := EncodeU16(cf.attributesCount) + rest;
    var s13 := EncodeMembers(cf.methods) + s14;
    var s12 := EncodeU16(cf.methodsCount) + s13;
    var s11 := EncodeMembers(cf.fields) + s12;
    var s10 := EncodeU16(cf.fieldsCount) + s11;
    var s9 := EncodeU16s(cf.interfaces) + s10;
    var s8 := EncodeU16(cf.interfacesCount) + s9;
    var s7 := EncodeU16(Bump(cf.superClass)) + s8;
    var s6 := EncodeU16(cf.thisClass) + s7;
    var s5 := EncodeU16(cf.accessFlags) + s6;
    var s4 := EncodePool(pool[1..]) + s5;
    var s3 := EncodeU16(cf.constantPoolCount) + s4;
    var s2 := EncodeU16(cf.majorVersion) + s3;
    var s1 := EncodeU16(cf.minorVersion) + s2;
    var s0 := EncodeU32(cf.magic) + s1;
    var h := EncodeHeader(cf);
    var p := EncodeU16(cf.constantPoolCount) + EncodePool(pool);
    var r := EncodeClassRefs(cf);
    var i := EncodeInterfaces(cf);
    var f := EncodeU16(cf.fieldsCount) + EncodeMembers(cf.fields);
    var m := EncodeU16(cf.methodsCount) + EncodeMembers(cf.methods);
    var a := EncodeU16(cf.attributesCount) + EncodeAttributes(cf.attributes);
    assert a == EncodeU16(cf.attributesCount);
    AppendAssoc(h + p + r + i + f + m, a, rest);
    AppendAssoc(h + p + r + i + f, m, s14);
    AppendAssoc(EncodeU16(cf.methodsCount), EncodeMembers(cf.methods), s14);
    AppendAssoc(h + p + r + i, f, s12);
    AppendAssoc(EncodeU16(cf.fieldsCount), EncodeMembers(cf.fields), s12);
    AppendAssoc(h + p + r, i, s10);
    assert cf.interfaces[..cf.interfacesCount] == cf.interfaces;
    AppendAssoc(EncodeU16(cf.interfacesCount), EncodeU16s(cf.interfaces), s10);
    AppendAssoc(h + p, r, s8);
    AppendAssoc(EncodeU16(cf.accessFlags) + EncodeU16(cf.thisClass), EncodeU16(Bump(cf.superClass)), s8);
    AppendAssoc(EncodeU16(cf.accessFlags), EncodeU16(cf.thisClass), s7);
    AppendAssoc(h, p, s5);
    EncodePoolAfterSlotZero(pool);
    AppendAssoc(EncodeU16(cf.constantPoolCount), EncodePool(pool), s5);
    AppendAssoc(EncodeU32(cf.magic) + EncodeU16(cf.minorVersion), EncodeU16(cf.majorVersion), s3);
    AppendAssoc(EncodeU32(cf.magic), EncodeU16(cf.minorVersion), s2);
  }

  /**
   * `deserialize` reads its parts one after the other: when each part is
   * read from where the previous one stopped, the whole file is read.
   */
  lemma ParseClassFileSteps(cf: ClassFile, entries: seq<CpInfo>, t0: seq<u8>, t1: seq<u8>, t2: seq<u8>, t3: seq<u8>,
                             t4: seq<u8>, t5: seq<u8>, t6: seq<u8>, t7: seq<u8>,
                             t8: seq<u8>, t9: seq<u8>, t10: seq<u8>, t11: seq<u8>,
                             t12: seq<u8>, t13: seq<u8>, t14: seq<u8>, t15: seq<u8>)
    requires ReadU32(t0) == Ok(Parsed(cf.magic, t1))
    requires ReadU16(t1) == Ok(Parsed(cf.minorVersion, t2))
    requires ReadU16(t2) == Ok(Parsed(cf.majorVersion, t3))
    requires ReadU16(t3) == Ok(Parsed(cf.constantPoolCount, t4))
    requires ParseConstantPool(t4, cf.constantPoolCount) == Ok(Parsed(entries, t5))
    requires Occupied(entries) == cf.constantPool
    requires ReadU16(t5) == Ok(Parsed(cf.accessFlags, t6))
    requires ReadU16(t6) == Ok(Parsed(cf.thisClass, t7))
    requires ReadU16(t7) == Ok(Parsed(cf.superClass, t8))
    requires ReadU16(t8) == Ok(Parsed(cf.interfacesCount, t9))
    requires ParseSeq(ReadU16, t9, cf.interfacesCount as nat) == Ok(Parsed(cf.interfaces, t10))
    requires ReadU16(t10) == Ok(Parsed(cf.fieldsCount, t11))
    requires ParseSeq(ParseMember, t11, cf.fieldsCount as nat) == Ok(Parsed(cf.fields, t12))
    requires ReadU16(t12) == Ok(Parsed(cf.methodsCount, t13))
    requires ParseSeq(ParseMember, t13, cf.methodsCount as nat) == Ok(Parsed(cf.methods, t14))
    requires ReadU16(t14) == Ok(Parsed(cf.attributesCount, t15))
    requires cf.attributes == []
    ensures ParseClassFile(t0) == Ok(Parsed(cf, t15))
  {
  }

  /** A run of occupied slots of the declared kinds, as the pool of a count one above its length. */
  lemma OccupiedPoolAfterEncode(count: u16, pool: seq<Option<CpInfo>>, rest: seq<u8>)
    requires count >= 1 && |pool| == count as int - 1
    requires forall i :: 0 <= i < |pool| ==>
      pool[i].Some? && IsCoreKind(pool[i].value) && WellFormedEntry(pool[i].value)
    ensures ParseConstantPool(EncodePool(pool) + rest, count).Ok?
    ensures var p := ParseConstantPool(EncodePool(pool) + rest, count).value;
      Occupied(p.value) == pool && p.rest == rest
  {
    ParseEntriesAfterEncode(pool, rest);
  }

  /** The pool of a faithfully decodable class file comes back without its slot 0. */
  lemma PoolAfterEncode(cf: ClassFile, rest: seq<u8>)
    requires FaithfullyDecodable(cf)
    ensures ParseConstantPool(EncodePool(cf.constantPool[1..]) + rest, cf.constantPoolCount).Ok?
    ensures var p := ParseConstantPool(EncodePool(cf.constantPool[1..]) + rest, cf.constantPoolCount).value;
      Occupied(p.value) == cf.constantPool[1..] && p.rest == rest
  {
    var pool := cf.constantPool[1..];
    forall i | 0 <= i < |pool|
      ensures pool[i].Some? && IsCoreKind(pool[i].value) && WellFormedEntry(pool[i].value)
    {
      assert pool[i] == cf.constantPool[i + 1];
    }
    OccupiedPoolAfterEncode(cf.constantPoolCount, pool, rest);
  }

  /**
   * The reads of `deserialize` over the encoder's sections, each section
   * given with what follows it.
   */
  lemma ParseEncodedSections(cf: ClassFile, t0: seq<u8>, t1: seq<u8>, t2: seq<u8>, t3: seq<u8>,
                             t4: seq<u8>, t5: seq<u8>, t6: seq<u8>, t7: seq<u8>,
                             t8: seq<u8>, t9: seq<u8>, t10: seq<u8>, t11: seq<u8>,
                             t12: seq<u8>, t13: seq<u8>, t14: seq<u8>, t15: seq<u8>)
    requires FaithfullyDecodable(cf)
    requires t0 == EncodeU32(cf.magic) + t1
    requires t1 == EncodeU16(cf.minorVersion) + t2
    requires t2 == EncodeU16(cf.majorVersion) + t3
    requires t3 == EncodeU16(cf.constantPoolCount) + t4
    requires t4 == EncodePool(cf.constantPool[1..]) + t5
    requires t5 == EncodeU16(cf.accessFlags) + t6
    requires t6 == EncodeU16(cf.thisClass) + t7
    requires t7 == EncodeU16(Bump(cf.superClass)) + t8
    requires t8 == EncodeU16(cf.interfacesCount) + t9
    requires t9 == EncodeU16s(cf.interfaces) + t10
    requires t10 == EncodeU16(cf.fieldsCount) + t11
    requires t11 == EncodeMembers(cf.fields) + t12
    requires t12 == EncodeU16(cf.methodsCount) + t13
    requires t13 == EncodeMembers(cf.methods) + t14
    requires t14 == EncodeU16(cf.attributesCount) + t15
    ensures ParseClassFile(t0)
         == Ok(Parsed(cf.(constantPool := cf.constantPool[1..], superClass := Bump(cf.superClass)), t15))
  {
    ReadU32AfterWrite(cf.magic, t1);
    ReadU16AfterWrite(cf.minorVersion, t2);
    ReadU16AfterWrite(cf.majorVersion, t3);
    ReadU16AfterWrite(cf.constantPoolCount, t4);
    PoolAfterEncode(cf, t5);
    ReadU16AfterWrite(cf.accessFlags, t6);
    ReadU16AfterWrite(cf.thisClass, t7);
    ReadU16AfterWrite(Bump(cf.superClass), t8);
    ReadU16AfterWrite(cf.interfacesCount, t9);
    ParseU16sAfterEncode(cf.interfaces, t10);
    ReadU16AfterWrite(cf.fieldsCount, t11);
    ParseMembersAfterEncode(cf.fields, t12);
    ReadU16AfterWrite(cf.methodsCount, t13);
    ParseMembersAfterEncode(cf.methods, t14);
    ReadU16AfterWrite(cf.attributesCount, t15);
    var entries := ParseConstantPool(t4, cf.constantPoolCount).value.value;
    var d := ClassFile(cf.magic, cf.minorVersion, cf.majorVersion, cf.constantPoolCount, cf.constantPool[1..],
                       cf.accessFlags, cf.thisClass, Bump(cf.superClass), cf.interfacesCount, cf.interfaces,
                       cf.fieldsCount, cf.fields, cf.methodsCount, cf.methods, cf.attributesCount, []);
    ParseClassFileSteps(d, entries, t0, t1, t2, t3, t4, t5, t6, t7, t8, t9, t10, t11, t12, t13, t14, t15);
    assert d == cf.(constantPool := cf.constantPool[1..], superClass := Bump(cf.superClass));
  }

  /** The fields or methods the decoder reads never carry attributes. */
  lemma {:induction false} ParsedMembersBare(s: seq<u8>, n: nat, ms: seq<MemberInfo>, rest: seq<u8>)
    requires ParseSeq(ParseMember, s, n) == Ok(Parsed(ms, rest))
    ensures forall i :: 0 <= i < |ms| ==> ms[i].attributes == []
  {
    if n > 0 {
      ParseSeqLast(ParseMember, s, n);
      var p := ParseSeq(ParseMember, s, n - 1).value;
      var x := ParseMember(p.rest).value;
      ParsedMembersBare(s, n - 1, p.value, p.rest);
      assert x.value.attributes == [] by {
        assert ParseAttributes(p.rest, 0).value.value == [];
      }
      assert ms == p.value + [x.value];
      forall i | 0 <= i < |ms|
        ensures ms[i].attributes == []
      {
        if i < |p.value| {
          assert ms[i] == p.value[i];
        }
      }
    }
  }

  /** The shape of a class file assembled from the decoder's reads of its parts. */
  lemma ClassFileShapeOf(cf: ClassFile, t4: seq<u8>, t9: seq<u8>, t11: seq<u8>, t13: seq<u8>)
    requires ParseConstantPool(t4, cf.constantPoolCount).Ok?
    requires cf.constantPool == Occupied(ParseConstantPool(t4, cf.constantPoolCount).value.value)
    requires ParseSeq(ReadU16, t9, cf.interfacesCount as nat).Ok?
    requires cf.interfaces == ParseSeq(ReadU16, t9, cf.interfacesCount as nat).value.value
    requires ParseSeq(ParseMember, t11, cf.fieldsCount as nat).Ok?
    requires cf.fields == ParseSeq(ParseMember, t11, cf.fieldsCount as nat).value.value
    requires ParseSeq(ParseMember, t13, cf.methodsCount as nat).Ok?
    requires cf.methods == ParseSeq(ParseMember, t13, cf.methodsCount as nat).value.value
    requires cf.attributes == []
    ensures cf.constantPoolCount > 0
    ensures |cf.constantPool| == cf.constantPoolCount as int - 1
    ensures forall i :: 0 <= i < |cf.constantPool| ==>
      cf.constantPool[i].Some? && IsCoreKind(cf.constantPool[i].value)
      && WellFormedEntry(cf.constantPool[i].value)
    ensures cf.interfacesCount as int == |cf.interfaces|
    ensures cf.fieldsCount as int == |cf.fields|
    ensures cf.methodsCount as int == |cf.methods|
    ensures forall i :: 0 <= i < |cf.fields| ==> cf.fields[i].attributes == []
    ensures forall i :: 0 <= i < |cf.methods| ==> cf.methods[i].attributes == []
  {
    var pool := ParseConstantPool(t4, cf.constantPoolCount).value;
    ConstantPoolReadThenWrite(t4, cf.constantPoolCount);
    assert ParseConstantPool(t4, cf.constantPoolCount) == ParseSeq(ParseCpInfo, t4, cf.constantPoolCount as nat - 1);
    EntriesWellFormed(t4, cf.constantPoolCount as nat - 1, pool.value, pool.rest);
    ParsedMembersBare(t11, cf.fieldsCount as nat, cf.fields, ParseSeq(ParseMember, t11, cf.fieldsCount as nat).value.rest);
    ParsedMembersBare(t13, cf.methodsCount as nat, cf.methods, ParseSeq(ParseMember, t13, cf.methodsCount as nat).value.rest);
  }

  /**
   * What `deserialize` returns: a positive pool count and one occupied slot
   * of a declared kind for each of the `count - 1` entries read, as many
   * interfaces, fields and methods as their counts say, and no attributes
   * on the class or on any of its members.
   */
  lemma ParsedClassFileShape(s: seq<u8>)
    ensures ParseClassFile(s).Ok? ==>
      var cf := ParseClassFile(s).value.value;
      && cf.constantPoolCount > 0
      && |cf.constantPool| == cf.constantPoolCount as int - 1
      && (forall i :: 0 <= i < |cf.constantPool| ==>
            cf.constantPool[i].Some? && IsCoreKind(cf.constantPool[i].value)
            && WellFormedEntry(cf.constantPool[i].value))
      && cf.interfacesCount as int == |cf.interfaces|
      && cf.fieldsCount as int == |cf.fields|
      && cf.methodsCount as int == |cf.methods|
      && (forall i :: 0 <= i < |cf.fields| ==> cf.fields[i].attributes == [])
      && (forall i :: 0 <= i < |cf.methods| ==> cf.methods[i].attributes == [])
      && cf.attributes == []
  {
    if ParseClassFile(s).Ok? {
      var magic := ReadU32(s).value;
      var minorVersion := ReadU16(magic.rest).value;
      var majorVersion := ReadU16(minorVersion.rest).value;
      var constantPoolCount := ReadU16(majorVersion.rest).value;
      var constantPool := ParseConstantPool(constantPoolCount.rest, constantPoolCount.value).value;
      var accessFlags := ReadU16(constantPool.rest).value;
      var thisClass := ReadU16(accessFlags.rest).value;
      var superClass := ReadU16(thisClass.rest).value;
      var interfacesCount := ReadU16(superClass.rest).value;
      var interfaces := ParseSeq(ReadU16, interfacesCount.rest, interfacesCount.value as nat).value;
      var fieldsCount := ReadU16(interfaces.rest).value;
      var fields := ParseSeq(ParseMember, fieldsCount.rest, fieldsCount.value as nat).value;
      var methodsCount := ReadU16(fields.rest).value;
      var methods := ParseSeq(ParseMember, methodsCount.rest, methodsCount.value as nat).value;
      var cf := ClassFile(magic.value, minorVersion.value, majorVersion.value,
                          constantPoolCount.value, Occupied(constantPool.value),
                          accessFlags.value, thisClass.value, superClass.value,
                          interfacesCount.value, interfaces.value,
                          fieldsCount.value, fields.value,
                          methodsCount.value, methods.value,
                          ReadU16(methods.rest).value.value, []);
      assert ParseClassFile(s).value.value == cf;
      ClassFileShapeOf(cf, constantPoolCount.rest, interfacesCount.rest, fieldsCount.rest, methodsCount.rest);
    }
  }

  /**
   * Decoding what the encoder wrote gives the class file back, except that
   * the pool loses its empty slot 0 (the decoder keeps only the entries it
   * read) and `super_class` comes back as the encoder's k+1, because the
   * decoder does not undo that adjustment.
   */
  lemma FaithfulRoundTrip(cf: ClassFile, rest: seq<u8>)
    requires FaithfullyDecodable(cf)
    ensures ParseClassFile(EncodeClassFile(cf) + rest)
         == Ok(Parsed(cf.(constantPool := cf.constantPool[1..], superClass := Bump(cf.superClass)), rest))
  {
    var s14 := EncodeU16(cf.attributesCount) + rest;
    var s13 := EncodeMembers(cf.methods) + s14;
    var s12 := EncodeU16(cf.methodsCount) + s13;
    var s11 := EncodeMembers(cf.fields) + s12;
    var s10 := EncodeU16(cf.fieldsCount) + s11;
    var s9 := EncodeU16s(cf.interfaces) + s10;
    var s8 := EncodeU16(cf.interfacesCount) + s9;
    var s7 := EncodeU16(Bump(cf.superClass)) + s8;
    var s6 := EncodeU16(cf.thisClass) + s7;
    var s5 := EncodeU16(cf.accessFlags) + s6;
    var s4 := EncodePool(cf.constantPool[1..]) + s5;
    var s3 := EncodeU16(cf.constantPoolCount) + s4;
    var s2 := EncodeU16(cf.majorVersion) + s3;
    var s1 := EncodeU16(cf.minorVersion) + s2;
    var s0 := EncodeU32(cf.magic) + s1;
    EncodedClassFileSections(cf, rest);
    ParseEncodedSections(cf, s0, s1, s2, s3, s4, s5, s6, s7, s8, s9, s10, s11, s12, s13, s14, rest);
  }

  /** The pool part of `WideEntryMisread`. */
  lemma WidePoolMisread(rest: seq<u8>)
    requires |rest| >= 1 && rest[0] == 0
    ensures ParseConstantPool(EncodePool([Some(LongInfo(CONSTANT_LONG, 0, 7)), None]) + rest, 3) == Err(UnknownTag(0))
  {
    var long := LongInfo(CONSTANT_LONG, 0, 7);
    var pool := EncodePool([Some(long), None]) + rest;
    // The Long and the empty slot after it encode to the Long's bytes alone.
    assert pool == EncodePool([Some(long)]) + rest by {
      assert [Some(long), None][..1] == [Some(long)];
      assert EncodePool([Some(long), None]) == EncodePool([Some(long)]);
    }
    assert EncodePool([Some(long)]) == EncodeCpInfo(long) by {
      assert [Some(long)][..0] == [];
    }
    ParseCpInfoAfterEncode(long, rest);
    ParseSeqStep(ParseCpInfo, pool, 0, Parsed([], pool), Parsed(long, rest));
    // The second read starts at the zero byte after the Long.
    UnknownTagRejected(rest);
    ParseSeqStuck(ParseCpInfo, pool, 1, 2, UnknownTag(0));
    assert ParseConstantPool(pool, 3) == Err(UnknownTag(0));
  }

  /** The reads of `WideEntryMisread` up to the failing one. */
  lemma WideHeaderMisread(cf: ClassFile, t0: seq<u8>, t1: seq<u8>, t2: seq<u8>, t3: seq<u8>,
                          t4: seq<u8>, t5: seq<u8>, t6: seq<u8>)
    requires cf.accessFlags < 0x100
    requires t0 == EncodeU32(cf.magic) + t1
    requires t1 == EncodeU16(cf.minorVersion) + t2
    requires t2 == EncodeU16(cf.majorVersion) + t3
    requires t3 == EncodeU16(3) + t4
    requires t4 == EncodePool([Some(LongInfo(CONSTANT_LONG, 0, 7)), None]) + t5
    requires t5 == EncodeU16(cf.accessFlags) + t6
    ensures ParseClassFile(t0) == Err(UnknownTag(0))
  {
    ReadU32AfterWrite(cf.magic, t1);
    ReadU16AfterWrite(cf.minorVersion, t2);
    ReadU16AfterWrite(cf.majorVersion, t3);
    ReadU16AfterWrite(3, t4);
    // The bytes after the pool start with the high byte of access_flags.
    assert t5[0] == 0;
    WidePoolMisread(t5);
  }

  /**
   * The decoder does not skip the unusable slot after a Long or Double: a
   * pool of count 3 holding one Long is written as nine bytes, and the
   * decoder then reads a second entry from the bytes that follow. When
   * those start with a zero byte, as the high byte of any `access_flags`
   * below 0x100 is, the whole class file is rejected.
   */
  lemma WideEntryMisread(cf: ClassFile, rest: seq<u8>)
    requires Encodable(cf) && cf.interfacesCount as int == |cf.interfaces| && cf.attributes == []
    requires cf.constantPoolCount == 3 && cf.accessFlags < 0x100
    requires cf.constantPool == [None, Some(LongInfo(CONSTANT_LONG, 0, 7)), None]
    ensures ParseClassFile(EncodeClassFile(cf) + rest) == Err(UnknownTag(0))
  {
    var long := LongInfo(CONSTANT_LONG, 0, 7);
    var s14 := EncodeU16(cf.attributesCount) + rest;
    var s13 := EncodeMembers(cf.methods) + s14;
    var s12 := EncodeU16(cf.methodsCount) + s13;
    var s11 := EncodeMembers(cf.fields) + s12;
    var s10 := EncodeU16(cf.fieldsCount) + s11;
    var s9 := EncodeU16s(cf.interfaces) + s10;
    var s8 := EncodeU16(cf.interfacesCount) + s9;
    var s7 := EncodeU16(Bump(cf.superClass)) + s8;
    var s6 := EncodeU16(cf.thisClass) + s7;
    var s5 := EncodeU16(cf.accessFlags) + s6;
    var s4 := EncodePool(cf.constantPool[1..]) + s5;
    var s3 := EncodeU16(cf.constantPoolCount) + s4;
    var s2 := EncodeU16(cf.majorVersion) + s3;
    var s1 := EncodeU16(cf.minorVersion) + s2;
    var s0 := EncodeU32(cf.magic) + s1;
    EncodedClassFileSections(cf, rest);
    assert cf.constantPool[1..] == [Some(long), None];
    WideHeaderMisread(cf, s0, s1, s2, s3, s4, s5, s6);
  }

  // ---------------------------------------------------------------------
  // The deserializer
  // ---------------------------------------------------------------------

  /**
   * `Deserializer`: reads a class file from a `Reader`. Each method returns
   * what the matching `Parse*` function gives for the bytes that remained
   * when it was called and, on success, leaves the reader where that
   * function stops.
   */
  class Deserializer {
    const reader: Reader

    constructor (reader: Reader)
      ensures this.reader == reader
    {
      this.reader := reader;
    }

    /** `deserialize_attributes`: the loop does nothing; the list stays empty. */
    method DeserializeAttributes(attributesCount: u16) returns (r: Result<seq<AttributeInfo>>)
      ensures r == Ok([])
    {
      var attributes: seq<AttributeInfo> := [];
      for i := 0 to attributesCount as int {
      }
      return Ok(attributes);
    }

    /** The loop body of `deserialize_fields` and `deserialize_methods`. */
    method DeserializeMember() returns (r: Result<MemberInfo>)
      requires reader.Valid()
      modifies reader
      ensures reader.Valid()
      ensures match ParseMember(old(reader.Remaining()))
        case Ok(p) => r == Ok(p.value) && reader.Remaining() == p.rest
        case Err(e) => r == Err(e)
    {
      var accessFlags :- reader.ReadUnsignedShort();
      var nameIndex :- reader.ReadUnsignedShort();
      var descriptorIndex :- reader.ReadUnsignedShort();
      var attributesCount :- reader.ReadUnsignedShort();
      // `deserialize_attributes` never fails.
      var attributes := DeserializeAttributes(attributesCount);
      return Ok(MemberInfo(accessFlags, nameIndex, descriptorIndex, attributesCount, attributes.value));
    }

    /** `deserialize_fields` and `deserialize_methods`: `count` members in a row. */
    method DeserializeMembers(count: u16) returns (r: Result<seq<MemberInfo>>)
      requires reader.Valid()
      modifies reader
      ensures reader.Valid()
      ensures match ParseSeq(ParseMember, old(reader.Remaining()), count as nat)
        case Ok(p) => r == Ok(p.value) && reader.Remaining() == p.rest
        case Err(e) => r == Err(e)
    {
      ghost var start := reader.Remaining();
      var members: seq<MemberInfo> := [];
      for i := 0 to count as int
        invariant reader.Valid()
        invariant ParseSeq(ParseMember, start, i) == Ok(Parsed(members, reader.Remaining()))
      {
        ghost var before := reader.Remaining();
        var m := DeserializeMember();
        if m.Err? {
          ParseSeqStuck(ParseMember, start, i, count as nat, m.error);
          return Err(m.error);
        }
        ParseSeqStep(ParseMember, start, i, Parsed(members, before), Parsed(m.value, reader.Remaining()));
        members := members + [m.value];
      }
      return Ok(members);
    }

    /** The byte loop of a Utf8 entry. */
    method DeserializeUtf8Bytes(length: u16) returns (r: Result<seq<u8>>)
      requires reader.Valid()
      modifies reader
      ensures reader.Valid()
      ensures match ParseSeq(ReadU8, old(reader.Remaining()), length as nat)
        case Ok(p) => r == Ok(p.value) && reader.Remaining() == p.rest
        case Err(e) => r == Err(e)
    {
      ghost var start := reader.Remaining();
      var bytes: seq<u8> := [];
      for i := 0 to length as int
        invariant reader.Valid()
        invariant ParseSeq(ReadU8, start, i) == Ok(Parsed(bytes, reader.Remaining()))
      {
        ghost var before := reader.Remaining();
        var b := reader.ReadUnsignedByte();
        if b.Err? {
          ParseSeqStuck(ReadU8, start, i, length as nat, b.error);
          return Err(b.error);
        }
        ParseSeqStep(ReadU8, start, i, Parsed(bytes, before), Parsed(b.value, reader.Remaining()));
        bytes := bytes + [b.value];
      }
      return Ok(bytes);
    }

    /** One pass of the loop of `deserialize_constant_pool`. */
    method DeserializeCpInfo() returns (r: Result<CpInfo>)
      requires reader.Valid()
      modifies reader
      ensures reader.Valid()
      ensures match ParseCpInfo(old(reader.Remaining()))
        case Ok(p) => r == Ok(p.value) && reader.Remaining() == p.rest
        case Err(e) => r == Err(e)
    {
      var tag :- reader.ReadUnsignedByte();
      if tag == CONSTANT_METHODREF {
        var classIndex :- reader.ReadUnsignedShort();
        var nameAndTypeIndex :- reader.ReadUnsignedShort();
        return Ok(MethodrefInfo(tag, classIndex, nameAndTypeIndex));
      } else if tag == CONSTANT_CLASS {
        var nameIndex :- reader.ReadUnsignedShort();
        return Ok(ClassInfo(tag, nameIndex));
      } else if tag == CONSTANT_FIELDREF {
        var classIndex :- reader.ReadUnsignedShort();
        var nameAndTypeIndex :- reader.ReadUnsignedShort();
        return Ok(FieldrefInfo(tag, classIndex, nameAndTypeIndex));
      } else if tag == CONSTANT_INTERFACEMETHODREF {
        var classIndex :- reader.ReadUnsignedShort();
        var nameAndTypeIndex :- reader.ReadUnsignedShort();
        return Ok(InterfaceMethodrefInfo(tag, classIndex, nameAndTypeIndex));
      } else if tag == CONSTANT_STRING {
        var stringIndex :- reader.ReadUnsignedShort();
        return Ok(StringInfo(tag, stringIndex));
      } else if tag == CONSTANT_INTEGER {
        var bytes :- reader.ReadUnsignedInt();
        return Ok(IntegerInfo(tag, bytes));
      } else if tag == CONSTANT_FLOAT {
        var bytes :- reader.ReadUnsignedInt();
        return Ok(FloatInfo(tag, bytes));
      } else if tag == CONSTANT_LONG {
        var highBytes :- reader.ReadUnsignedInt();
        var lowBytes :- reader.ReadUnsignedInt();
        return Ok(LongInfo(tag, highBytes, lowBytes));
      } else if tag == CONSTANT_DOUBLE {
        var highBytes :- reader.ReadUnsignedInt();
        var lowBytes :- reader.ReadUnsignedInt();
        return Ok(DoubleInfo(tag, highBytes, lowBytes));
      } else if tag == CONSTANT_NAMEANDTYPE {
        var nameIndex :- reader.ReadUnsignedShort();
        var descriptorIndex :- reader.ReadUnsignedShort();
        return Ok(NameAndTypeInfo(tag, nameIndex, descriptorIndex));
      } else if tag == CONSTANT_UTF8 {
        var length :- reader.ReadUnsignedShort();
        var bytes :- DeserializeUtf8Bytes(length);
        return Ok(Utf8Info(tag, length, bytes));
      } else {
        // `unimplemented!()`
        return Err(UnknownTag(tag));
      }
    }

    /** `deserialize_constant_pool`: `count - 1` entries, in the order read. */
    method DeserializeConstantPool(count: u16) returns (r: Result<seq<CpInfo>>)
      requires reader.Valid()
      modifies reader
      ensures reader.Valid()
      ensures match ParseConstantPool(old(reader.Remaining()), count)
        case Ok(p) => r == Ok(p.value) && reader.Remaining() == p.rest
        case Err(e) => r == Err(e)
    {
      if count == 0 {
        // `0 - 1` overflows a u16.
        return Err(CountUnderflow);
      }
      ghost var start := reader.Remaining();
      var constantPool: seq<CpInfo> := [];
      for idx := 0 to count as int - 1
        invariant reader.Valid()
        invariant ParseSeq(ParseCpInfo, start, idx) == Ok(Parsed(constantPool, reader.Remaining()))
      {
        ghost var before := reader.Remaining();
        var entry := DeserializeCpInfo();
        if entry.Err? {
          PoolStuck(start, idx, count, entry.error);
          return Err(entry.error);
        }
        ParseSeqStep(ParseCpInfo, start, idx, Parsed(constantPool, before), Parsed(entry.value, reader.Remaining()));
        constantPool := constantPool + [entry.value];
      }
      assert ParseConstantPool(start, count) == Ok(Parsed(constantPool, reader.Remaining()));
      return Ok(constantPool);
    }

    /** The interface loop of `deserialize`: `count` indices as read. */
    method DeserializeInterfaces(count: u16) returns (r: Result<seq<u16>>)
      requires reader.Valid()
      modifies reader
      ensures reader.Valid()
      ensures match ParseSeq(ReadU16, old(reader.Remaining()), count as nat)
        case Ok(p) => r == Ok(p.value) && reader.Remaining() == p.rest
        case Err(e) => r == Err(e)
    {
      ghost var start := reader.Remaining();
      var interfaces: seq<u16> := [];
      for i := 0 to count as int
        invariant reader.Valid()
        invariant ParseSeq(ReadU16, start, i) == Ok(Parsed(interfaces, reader.Remaining()))
      {
        ghost var before := reader.Remaining();
        var index := reader.ReadUnsignedShort();
        if index.Err? {
          ParseSeqStuck(ReadU16, start, i, count as nat, index.error);
          return Err(index.error);
        }
        ParseSeqStep(ReadU16, start, i, Parsed(interfaces, before), Parsed(index.value, reader.Remaining()));
        interfaces := interfaces + [index.value];
      }
      return Ok(interfaces);
    }

    /** `deserialize`: the whole class file, part after part. */
    method Deserialize() returns (r: Result<ClassFile>)
      requires reader.Valid()
      modifies reader
      ensures reader.Valid()
      ensures match ParseClassFile(old(reader.Remaining()))
        case Ok(p) => r == Ok(p.value) && reader.Remaining() == p.rest
        case Err(e) => r == Err(e)
    {
      // Headers
      var magic :- reader.ReadUnsignedInt();
      var minorVersion :- reader.ReadUnsignedShort();
      var majorVersion :- reader.ReadUnsignedShort();
      // Constant pool
      var constantPoolCount :- reader.ReadUnsignedShort();
      var constantPool :- DeserializeConstantPool(constantPoolCount);
      var accessFlags :- reader.ReadUnsignedShort();
      var thisClass :- reader.ReadUnsignedShort();
      var superClass :- reader.ReadUnsignedShort();
      var interfacesCount :- reader.ReadUnsignedShort();
      var interfaces :- DeserializeInterfaces(interfacesCount);
      // Fields
      var fieldsCount :- reader.ReadUnsignedShort();
      var fields :- DeserializeMembers(fieldsCount);
      // Methods
      var methodsCount :- reader.ReadUnsignedShort();
      var methods :- DeserializeMembers(methodsCount);
      // Class attributes
      var attributesCount :- reader.ReadUnsignedShort();
      var attributes := DeserializeAttributes(attributesCount);
      return Ok(ClassFile(magic, minorVersion, majorVersion, constantPoolCount, Occupied(constantPool),
                          accessFlags, thisClass, superClass, interfacesCount, interfaces,
                          fieldsCount, fields, methodsCount, methods, attributesCount, attributes.value));
    }
  }
}
