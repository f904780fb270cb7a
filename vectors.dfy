/**
 * The Minimal class of the encoder's own test (serializer.rs): the model the
 * test builds, the bytes it expects at the head of the file and around
 * super_class, and the fact that the encoder's output for it is read back as
 * the same class. The test's model stores `super_class` as 12, which is
 * written as 13, the pool index of java/lang/Object.
 */
module Vectors {
  import opened Numeric
  import opened Results
  import opened Rw
  import opened Model
  import opened Encoder
  import Decoder
  import Mirror

  const MinimalPool: seq<Option<CpInfo>> := [
    None,
    Some(MethodrefInfo(10, 13, 7)),
    Some(Utf8Info(1, 16, [106, 97, 118, 97, 47, 108, 97, 110, 103, 47, 79, 98, 106, 101, 99, 116])),
    Some(Utf8Info(1, 10, [83, 111, 117, 114, 99, 101, 70, 105, 108, 101])),
    Some(Utf8Info(1, 6, [60, 105, 110, 105, 116, 62])),
    Some(Utf8Info(1, 4, [109, 97, 105, 110])),
    Some(Utf8Info(1, 7, [77, 105, 110, 105, 109, 97, 108])),
    Some(NameAndTypeInfo(12, 4, 11)),
    Some(Utf8Info(1, 4, [67, 111, 100, 101])),
    Some(Utf8Info(1, 12, [77, 105, 110, 105, 109, 97, 108, 46, 106, 97, 118, 97])),
    Some(Utf8Info(1, 22, [40, 91, 76, 106, 97, 118, 97, 47, 108, 97, 110, 103, 47, 83, 116, 114, 105, 110, 103, 59, 41, 86])),
    Some(Utf8Info(1, 3, [40, 41, 86])),
    Some(ClassInfo(7, 6)),
    Some(ClassInfo(7, 2))
  ]

  /** A method of the Minimal class: one Code attribute with `code_length` bytes of code. */
  function MinimalMethod(flags: u16, name: u16, descriptor: u16, len: u32, code: seq<u8>): MemberInfo
    requires |code| < 0x1_0000_0000
  {
    MemberInfo(flags, name, descriptor, 1, [Code(8, len, 1, 1, |code|, code, 0, [], 0, [])])
  }

  const Minimal: ClassFile := ClassFile(
    0xCAFEBABE, 3, 45,
    14, MinimalPool,
    33, 12, 12,
    0, [],
    0, [],
    2, [MinimalMethod(1, 4, 11, 17, [42, 183, 0, 1, 177]), MinimalMethod(9, 5, 10, 13, [177])],
    1, [SourceFile(3, 2, 9)])

  /** The first `n` bytes of `x + y` are those of `x` when `x` has that many. */
  lemma PrefixOfAppend(x: seq<u8>, y: seq<u8>, n: nat)
    requires n <= |x|
    ensures (x + y)[..n] == x[..n]
  {
  }

  /** A class file's first ten bytes are its header and its pool count. */
  lemma ClassFilePrefix(cf: ClassFile)
    requires Encodable(cf)
    ensures EncodeClassFile(cf)[..10] == EncodeHeader(cf) + EncodeU16(cf.constantPoolCount)
  {
    var x0 := EncodeHeader(cf) + (EncodeU16(cf.constantPoolCount) + EncodePool(cf.constantPool));
    var x1 := x0 + EncodeClassRefs(cf);
    var x2 := x1 + EncodeInterfaces(cf);
    var x3 := x2 + (EncodeU16(cf.fieldsCount) + EncodeMembers(cf.fields));
    var x4 := x3 + (EncodeU16(cf.methodsCount) + EncodeMembers(cf.methods));
    assert EncodeClassFile(cf) == x4 + (EncodeU16(cf.attributesCount) + EncodeAttributes(cf.attributes));
    PrefixOfAppend(x4, EncodeU16(cf.attributesCount) + EncodeAttributes(cf.attributes), 10);
    PrefixOfAppend(x3, EncodeU16(cf.methodsCount) + EncodeMembers(cf.methods), 10);
    PrefixOfAppend(x2, EncodeU16(cf.fieldsCount) + EncodeMembers(cf.fields), 10);
    PrefixOfAppend(x1, EncodeInterfaces(cf), 10);
    PrefixOfAppend(x0, EncodeClassRefs(cf), 10);
    AppendAssoc(EncodeHeader(cf), EncodeU16(cf.constantPoolCount), EncodePool(cf.constantPool));
    PrefixOfAppend(EncodeHeader(cf) + EncodeU16(cf.constantPoolCount), EncodePool(cf.constantPool), 10);
  }

  /** The test's bytes up to the pool count: magic, minor 3, major 45, count 14. */
  lemma MinimalHeader()
    ensures EncodeHeader(Minimal) + EncodeU16(Minimal.constantPoolCount)
         == [0xca, 0xfe, 0xba, 0xbe, 0x00, 0x03, 0x00, 0x2d, 0x00, 0x0e]
  {
  }

  /** access_flags 33, this_class 12 as stored, super_class 12 written as 13. */
  lemma MinimalClassRefs()
    ensures EncodeClassRefs(Minimal) == [0x00, 0x21, 0x00, 0x0c, 0x00, 0x0d]
  {
  }

  /** The test's pool is well formed: fourteen slots, none of them wide. */
  lemma MinimalPoolWellFormed()
    ensures WellFormedPool(14, MinimalPool)
  {
    forall i | 1 <= i < |MinimalPool|
      ensures MinimalPool[i].Some? && !IsWideSlot(MinimalPool[i]) && WellFormedEntry(MinimalPool[i].value)
    {
    }
  }

  /** The Code attributes' lengths agree with their contents. */
  lemma MinimalMethodsWellFormed()
    ensures forall i :: 0 <= i < |Minimal.methods| ==> WellFormedMember(Minimal.methods[i])
  {
    assert WellFormedMember(Minimal.methods[0]);
    assert WellFormedMember(Minimal.methods[1]);
  }

  /** Slot 8 holds "Code" and slot 3 "SourceFile", the names the attributes use. */
  lemma MinimalNames()
    ensures Mirror.MembersResolve(MinimalPool, Minimal.methods)
    ensures Mirror.AllNamesResolve(MinimalPool, Minimal.attributes)
  {
    var code := Mirror.Ascii(CODE);
    assert code == [67, 111, 100, 101] by {
      assert code[0] == 67 && code[1] == 111 && code[2] == 100 && code[3] == 101;
    }
    assert Mirror.Utf8At(MinimalPool, 8) == Some(code);
    var source := Mirror.Ascii(SOURCE_FILE);
    assert source == [83, 111, 117, 114, 99, 101, 70, 105, 108, 101] by {
      assert source[0] == 83 && source[1] == 111 && source[2] == 117 && source[3] == 114 && source[4] == 99;
      assert source[5] == 101 && source[6] == 70 && source[7] == 105 && source[8] == 108 && source[9] == 101;
    }
    assert Mirror.Utf8At(MinimalPool, 3) == Some(source);
    assert Mirror.NamesResolve(MinimalPool, Minimal.methods[0].attributes[0]);
    assert Mirror.NamesResolve(MinimalPool, Minimal.methods[1].attributes[0]);
    assert Mirror.NamesResolve(MinimalPool, Minimal.attributes[0]);
  }

  /** The model of the test is one the round trip applies to. */
  lemma MinimalDecodable()
    ensures Mirror.Decodable(Minimal)
  {
    MinimalPoolWellFormed();
    MinimalMethodsWellFormed();
    MinimalNames();
    assert WellFormedClassFile(Minimal);
    assert Encodable(Minimal);
  }

  /** What the encoder writes for the Minimal class is read back as the same class. */
  lemma MinimalReadBack()
    ensures Encodable(Minimal)
    ensures Mirror.ParseClassFile(EncodeClassFile(Minimal)) == Ok(Parsed(Minimal, []))
  {
    MinimalDecodable();
    Mirror.RoundTrip(Minimal, []);
    assert EncodeClassFile(Minimal) + [] == EncodeClassFile(Minimal);
  }

  /** The first ten bytes the test expects: magic, minor 3, major 45, pool count 14. */
  const MinimalHead: seq<u8> := [0xca, 0xfe, 0xba, 0xbe, 0x00, 0x03, 0x00, 0x2d, 0x00, 0x0e]

  /** The test's pool bytes slot by slot: nothing for slot 0, then the thirteen entries. */
  const MinimalSlotBytes: seq<seq<u8>> := [
    [],
    [0x0a, 0x00, 0x0d, 0x00, 0x07],
    [0x01, 0x00, 0x10] + [0x6a, 0x61, 0x76, 0x61, 0x2f, 0x6c, 0x61, 0x6e, 0x67, 0x2f, 0x4f, 0x62, 0x6a, 0x65, 0x63, 0x74],
    [0x01, 0x00, 0x0a] + [0x53, 0x6f, 0x75, 0x72, 0x63, 0x65, 0x46, 0x69, 0x6c, 0x65],
    [0x01, 0x00, 0x06] + [0x3c, 0x69, 0x6e, 0x69, 0x74, 0x3e],
    [0x01, 0x00, 0x04] + [0x6d, 0x61, 0x69, 0x6e],
    [0x01, 0x00, 0x07] + [0x4d, 0x69, 0x6e, 0x69, 0x6d, 0x61, 0x6c],
    [0x0c, 0x00, 0x04, 0x00, 0x0b],
    [0x01, 0x00, 0x04] + [0x43, 0x6f, 0x64, 0x65],
    [0x01, 0x00, 0x0c] + [0x4d, 0x69, 0x6e, 0x69, 0x6d, 0x61, 0x6c, 0x2e, 0x6a, 0x61, 0x76, 0x61],
    [0x01, 0x00, 0x16] + [0x28, 0x5b, 0x4c, 0x6a, 0x61, 0x76, 0x61, 0x2f, 0x6c, 0x61, 0x6e, 0x67, 0x2f, 0x53, 0x74, 0x72, 0x69, 0x6e, 0x67, 0x3b, 0x29, 0x56],
    [0x01, 0x00, 0x03] + [0x28, 0x29, 0x56],
    [0x07, 0x00, 0x06],
    [0x07, 0x00, 0x02]
  ]

  /**
   * `<init>`, field by field: flags, name, descriptor, attribute count; the
   * Code attribute's name, length, max_stack, max_locals and code_length;
   * the code; the empty exception table's length and the nested count.
   */
  const MinimalInitBytes: seq<u8> :=
    ([0x00, 0x01] + [0x00, 0x04] + [0x00, 0x0b] + [0x00, 0x01])
    + ([0x00, 0x08] + [0x00, 0x00, 0x00, 0x11] + [0x00, 0x01] + [0x00, 0x01] + [0x00, 0x00, 0x00, 0x05])
    + [0x2a, 0xb7, 0x00, 0x01, 0xb1]
    + ([0x00, 0x00] + [0x00, 0x00])

  /** `main`, laid out the same way. */
  const MinimalMainBytes: seq<u8> :=
    ([0x00, 0x09] + [0x00, 0x05] + [0x00, 0x0a] + [0x00, 0x01])
    + ([0x00, 0x08] + [0x00, 0x00, 0x00, 0x0d] + [0x00, 0x01] + [0x00, 0x01] + [0x00, 0x00, 0x00, 0x01])
    + [0xb1]
    + ([0x00, 0x00] + [0x00, 0x00])

  /**
   * The 217 bytes the Minimal test expects, section by section: head and
   * pool, class references, no interfaces, no fields, the methods, and the
   * SourceFile attribute.
   */
  const MinimalExpected: seq<u8> :=
    MinimalHead + Join(MinimalSlotBytes)
    + [0x00, 0x21, 0x00, 0x0c, 0x00, 0x0d]
    + [0x00, 0x00]
    + [0x00, 0x00]
    + ([0x00, 0x02] + Join([MinimalInitBytes, MinimalMainBytes]))
    + [0x00, 0x01, 0x00, 0x03, 0x00, 0x00, 0x00, 0x02, 0x00, 0x09]

  /** Byte runs laid end to end. */
  function Join(chunks: seq<seq<u8>>): seq<u8> {
    if chunks == [] then [] else Join(chunks[..|chunks| - 1]) + chunks[|chunks| - 1]
  }

  /** A pool whose slots encode to the given runs encodes to those runs in order. */
  lemma {:induction false} PoolAsRuns(pool: seq<Option<CpInfo>>, runs: seq<seq<u8>>)
    requires |pool| == |runs|
    requires forall k :: 0 <= k < |pool| ==> EncodeSlot(pool[k]) == runs[k]
    ensures EncodePool(pool) == Join(runs)
  {
    if pool != [] {
      PoolAsRuns(pool[..|pool| - 1], runs[..|runs| - 1]);
    }
  }

  /** Slots 0 and 1: nothing for the empty slot, then the Methodref. */
  lemma MinimalSlotsHead()
    ensures EncodeSlot(MinimalPool[0]) == MinimalSlotBytes[0]
    ensures EncodeSlot(MinimalPool[1]) == MinimalSlotBytes[1]
  {
    assert MinimalPool[0] == None by {}
    assert MinimalSlotBytes[0] == [] by {}
    assert EncodeSlot(None) == [] by {}
    assert MinimalPool[1] == Some(MethodrefInfo(10, 13, 7)) by {}
    assert MinimalSlotBytes[1] == [0x0a, 0x00, 0x0d, 0x00, 0x07] by {}
    assert EncodeSlot(Some(MethodrefInfo(10, 13, 7))) == [0x0a, 0x00, 0x0d, 0x00, 0x07] by {}
  }

  /** Slots 2 and 3: `java/lang/Object` and `SourceFile`. */
  lemma MinimalSlotsObject()
    ensures EncodeSlot(MinimalPool[2]) == MinimalSlotBytes[2]
    ensures EncodeSlot(MinimalPool[3]) == MinimalSlotBytes[3]
  {
    assert MinimalPool[2] == Some(Utf8Info(1, 16, [106, 97, 118, 97, 47, 108, 97, 110, 103, 47, 79, 98, 106, 101, 99, 116])) by {}
    assert MinimalSlotBytes[2] == [0x01, 0x00, 0x10] + [0x6a, 0x61, 0x76, 0x61, 0x2f, 0x6c, 0x61, 0x6e, 0x67, 0x2f, 0x4f, 0x62, 0x6a, 0x65, 0x63, 0x74] by {}
    assert EncodeSlot(Some(Utf8Info(1, 16, [106, 97, 118, 97, 47, 108, 97, 110, 103, 47, 79, 98, 106, 101, 99, 116]))) == [0x01, 0x00, 0x10] + [0x6a, 0x61, 0x76, 0x61, 0x2f, 0x6c, 0x61, 0x6e, 0x67, 0x2f, 0x4f, 0x62, 0x6a, 0x65, 0x63, 0x74] by {}
    assert MinimalPool[3] == Some(Utf8Info(1, 10, [83, 111, 117, 114, 99, 101, 70, 105, 108, 101])) by {}
    assert MinimalSlotBytes[3] == [0x01, 0x00, 0x0a] + [0x53, 0x6f, 0x75, 0x72, 0x63, 0x65, 0x46, 0x69, 0x6c, 0x65] by {}
    assert EncodeSlot(Some(Utf8Info(1, 10, [83, 111, 117, 114, 99, 101, 70, 105, 108, 101]))) == [0x01, 0x00, 0x0a] + [0x53, 0x6f, 0x75, 0x72, 0x63, 0x65, 0x46, 0x69, 0x6c, 0x65] by {}
  }

  /** Slots 4 to 6: `<init>`, `main` and `Minimal`. */
  lemma MinimalSlotsNames()
    ensures EncodeSlot(MinimalPool[4]) == MinimalSlotBytes[4]
    ensures EncodeSlot(MinimalPool[5]) == MinimalSlotBytes[5]
    ensures EncodeSlot(MinimalPool[6]) == MinimalSlotBytes[6]
  {
    assert MinimalPool[4] == Some(Utf8Info(1, 6, [60, 105, 110, 105, 116, 62])) by {}
    assert MinimalSlotBytes[4] == [0x01, 0x00, 0x06] + [0x3c, 0x69, 0x6e, 0x69, 0x74, 0x3e] by {}
    assert EncodeSlot(Some(Utf8Info(1, 6, [60, 105, 110, 105, 116, 62]))) == [0x01, 0x00, 0x06] + [0x3c, 0x69, 0x6e, 0x69, 0x74, 0x3e] by {}
    assert MinimalPool[5] == Some(Utf8Info(1, 4, [109, 97, 105, 110])) by {}
    assert MinimalSlotBytes[5] == [0x01, 0x00, 0x04] + [0x6d, 0x61, 0x69, 0x6e] by {}
    assert EncodeSlot(Some(Utf8Info(1, 4, [109, 97, 105, 110]))) == [0x01, 0x00, 0x04] + [0x6d, 0x61, 0x69, 0x6e] by {}
    assert MinimalPool[6] == Some(Utf8Info(1, 7, [77, 105, 110, 105, 109, 97, 108])) by {}
    assert MinimalSlotBytes[6] == [0x01, 0x00, 0x07] + [0x4d, 0x69, 0x6e, 0x69, 0x6d, 0x61, 0x6c] by {}
    assert EncodeSlot(Some(Utf8Info(1, 7, [77, 105, 110, 105, 109, 97, 108]))) == [0x01, 0x00, 0x07] + [0x4d, 0x69, 0x6e, 0x69, 0x6d, 0x61, 0x6c] by {}
  }

  /** Slots 7 to 9: the NameAndType, `Code` and `Minimal.java`. */
  lemma MinimalSlotsCode()
    ensures EncodeSlot(MinimalPool[7]) == MinimalSlotBytes[7]
    ensures EncodeSlot(MinimalPool[8]) == MinimalSlotBytes[8]
    ensures EncodeSlot(MinimalPool[9]) == MinimalSlotBytes[9]
  {
    assert MinimalPool[7] == Some(NameAndTypeInfo(12, 4, 11)) by {}
    assert MinimalSlotBytes[7] == [0x0c, 0x00, 0x04, 0x00, 0x0b] by {}
    assert EncodeSlot(Some(NameAndTypeInfo(12, 4, 11))) == [0x0c, 0x00, 0x04, 0x00, 0x0b] by {}
    assert MinimalPool[8] == Some(Utf8Info(1, 4, [67, 111, 100, 101])) by {}
    assert MinimalSlotBytes[8] == [0x01, 0x00, 0x04] + [0x43, 0x6f, 0x64, 0x65] by {}
    assert EncodeSlot(Some(Utf8Info(1, 4, [67, 111, 100, 101]))) == [0x01, 0x00, 0x04] + [0x43, 0x6f, 0x64, 0x65] by {}
    assert MinimalPool[9] == Some(Utf8Info(1, 12, [77, 105, 110, 105, 109, 97, 108, 46, 106, 97, 118, 97])) by {}
    assert MinimalSlotBytes[9] == [0x01, 0x00, 0x0c] + [0x4d, 0x69, 0x6e, 0x69, 0x6d, 0x61, 0x6c, 0x2e, 0x6a, 0x61, 0x76, 0x61] by {}
    assert EncodeSlot(Some(Utf8Info(1, 12, [77, 105, 110, 105, 109, 97, 108, 46, 106, 97, 118, 97]))) == [0x01, 0x00, 0x0c] + [0x4d, 0x69, 0x6e, 0x69, 0x6d, 0x61, 0x6c, 0x2e, 0x6a, 0x61, 0x76, 0x61] by {}
  }

  /** Slots 10 to 13: the two descriptors and the two Class entries. */
  lemma MinimalSlotsTail()
    ensures EncodeSlot(MinimalPool[10]) == MinimalSlotBytes[10]
    ensures EncodeSlot(MinimalPool[11]) == MinimalSlotBytes[11]
    ensures EncodeSlot(MinimalPool[12]) == MinimalSlotBytes[12]
    ensures EncodeSlot(MinimalPool[13]) == MinimalSlotBytes[13]
  {
    assert MinimalPool[10] == Some(Utf8Info(1, 22, [40, 91, 76, 106, 97, 118, 97, 47, 108, 97, 110, 103, 47, 83, 116, 114, 105, 110, 103, 59, 41, 86])) by {}
    assert MinimalSlotBytes[10] == [0x01, 0x00, 0x16] + [0x28, 0x5b, 0x4c, 0x6a, 0x61, 0x76, 0x61, 0x2f, 0x6c, 0x61, 0x6e, 0x67, 0x2f, 0x53, 0x74, 0x72, 0x69, 0x6e, 0x67, 0x3b, 0x29, 0x56] by {}
    assert EncodeSlot(Some(Utf8Info(1, 22, [40, 91, 76, 106, 97, 118, 97, 47, 108, 97, 110, 103, 47, 83, 116, 114, 105, 110, 103, 59, 41, 86]))) == [0x01, 0x00, 0x16] + [0x28, 0x5b, 0x4c, 0x6a, 0x61, 0x76, 0x61, 0x2f, 0x6c, 0x61, 0x6e, 0x67, 0x2f, 0x53, 0x74, 0x72, 0x69, 0x6e, 0x67, 0x3b, 0x29, 0x56] by {}
    assert MinimalPool[11] == Some(Utf8Info(1, 3, [40, 41, 86])) by {}
    assert MinimalSlotBytes[11] == [0x01, 0x00, 0x03] + [0x28, 0x29, 0x56] by {}
    assert EncodeSlot(Some(Utf8Info(1, 3, [40, 41, 86]))) == [0x01, 0x00, 0x03] + [0x28, 0x29, 0x56] by {}
    assert MinimalPool[12] == Some(ClassInfo(7, 6)) by {}
    assert MinimalSlotBytes[12] == [0x07, 0x00, 0x06] by {}
    assert EncodeSlot(Some(ClassInfo(7, 6))) == [0x07, 0x00, 0x06] by {}
    assert MinimalPool[13] == Some(ClassInfo(7, 2)) by {}
    assert MinimalSlotBytes[13] == [0x07, 0x00, 0x02] by {}
    assert EncodeSlot(Some(ClassInfo(7, 2))) == [0x07, 0x00, 0x02] by {}
  }

  /** Each slot of the test's pool encodes to the test's bytes for it. */
  lemma MinimalSlotsEncoded()
    ensures forall k :: 0 <= k < |MinimalPool| ==> EncodeSlot(MinimalPool[k]) == MinimalSlotBytes[k]
  {
    forall k | 0 <= k < |MinimalPool|
      ensures EncodeSlot(MinimalPool[k]) == MinimalSlotBytes[k]
    {
      if k <= 1 {
        MinimalSlotsHead();
      } else if k <= 3 {
        MinimalSlotsObject();
      } else if k <= 6 {
        MinimalSlotsNames();
      } else if k <= 9 {
        MinimalSlotsCode();
      } else {
        MinimalSlotsTail();
      }
    }
  }

  /** The pool's slots are written in order, the leading `None` as nothing. */
  lemma MinimalPoolEncoding()
    ensures EncodePool(MinimalPool) == Join(MinimalSlotBytes)
  {
    MinimalSlotsEncoded();
    PoolAsRuns(MinimalPool, MinimalSlotBytes);
  }

  /** `<init>` is written as the test expects. */
  lemma MinimalInitEncoding()
    ensures AttributesEncodable(Minimal.methods[0].attributes)
    ensures EncodeMember(Minimal.methods[0]) == MinimalInitBytes
  {
    var m := MinimalMethod(1, 4, 11, 17, [42, 183, 0, 1, 177]);
    assert Minimal.methods[0] == m by {}
    CodeMethodLayout(m);
    assert EncodeU16(0) == [0x00, 0x00];
    assert EncodeU16(1) == [0x00, 0x01];
    assert EncodeU16(4) == [0x00, 0x04];
    assert EncodeU16(8) == [0x00, 0x08];
    assert EncodeU16(11) == [0x00, 0x0b];
    assert EncodeU32(5) == [0x00, 0x00, 0x00, 0x05];
    assert EncodeU32(17) == [0x00, 0x00, 0x00, 0x11];
    assert EncodeAttributes([]) == [];
  }

  /** `main` is written as the test expects. */
  lemma MinimalMainEncoding()
    ensures AttributesEncodable(Minimal.methods[1].attributes)
    ensures EncodeMember(Minimal.methods[1]) == MinimalMainBytes
  {
    var m := MinimalMethod(9, 5, 10, 13, [177]);
    assert Minimal.methods[1] == m by {}
    CodeMethodLayout(m);
    assert EncodeU16(0) == [0x00, 0x00];
    assert EncodeU16(1) == [0x00, 0x01];
    assert EncodeU16(5) == [0x00, 0x05];
    assert EncodeU16(8) == [0x00, 0x08];
    assert EncodeU16(9) == [0x00, 0x09];
    assert EncodeU16(10) == [0x00, 0x0a];
    assert EncodeU32(1) == [0x00, 0x00, 0x00, 0x01];
    assert EncodeU32(13) == [0x00, 0x00, 0x00, 0x0d];
    assert EncodeAttributes([]) == [];
  }

  /** The methods count, then `<init>` and `main` in order. */
  lemma MinimalMethodsEncoding()
    ensures MembersEncodable(Minimal.methods)
    ensures EncodeU16(Minimal.methodsCount) + EncodeMembers(Minimal.methods)
         == [0x00, 0x02] + Join([MinimalInitBytes, MinimalMainBytes])
  {
    MinimalInitEncoding();
    MinimalMainEncoding();
    assert |Minimal.methods| == 2 && EncodeU16(Minimal.methodsCount) == [0x00, 0x02] by {}
    MembersAsRuns(Minimal.methods, [MinimalInitBytes, MinimalMainBytes]);
  }

  /** Members whose encodings are the given runs encode to those runs in order. */
  lemma {:induction false} MembersAsRuns(ms: seq<MemberInfo>, runs: seq<seq<u8>>)
    requires |ms| == |runs|
    requires forall k :: 0 <= k < |ms| ==> AttributesEncodable(ms[k].attributes) && EncodeMember(ms[k]) == runs[k]
    ensures MembersEncodable(ms)
    ensures EncodeMembers(ms) == Join(runs)
  {
    if ms != [] {
      MembersAsRuns(ms[..|ms| - 1], runs[..|runs| - 1]);
    }
  }

  /** A line-number table whose entries encode to the given runs encodes to those runs in order. */
  lemma {:induction false} LineNumbersAsRuns(table: seq<LineNumber>, runs: seq<seq<u8>>)
    requires |table| == |runs|
    requires forall k :: 0 <= k < |table| ==> EncodeU16(table[k].startPc) + EncodeU16(table[k].lineNumber) == runs[k]
    ensures EncodeLineNumbers(table) == Join(runs)
  {
    if table != [] {
      var n := |table| - 1;
      LineNumbersAsRuns(table[..n], runs[..n]);
      AppendAssoc(EncodeLineNumbers(table[..n]), EncodeU16(table[n].startPc), EncodeU16(table[n].lineNumber));
    }
  }

  /**
   * A method with one Code attribute and no exception handlers: its member
   * fields, the Code attribute's fixed fields, the code, the two counts,
   * then the nested attributes.
   */
  lemma CodeMethodLayout(m: MemberInfo)
    requires |m.attributes| == 1 && m.attributes[0].Code? && m.attributes[0].exceptionTable == []
    requires AttributesEncodable(m.attributes[0].codeAttributes)
    ensures AttributesEncodable(m.attributes)
    ensures var a := m.attributes[0];
      EncodeMember(m)
      == (EncodeU16(m.accessFlags) + EncodeU16(m.nameIndex) + EncodeU16(m.descriptorIndex) + EncodeU16(m.attributesCount))
       + (EncodeU16(a.attributeNameIndex) + EncodeU32(a.attributeLength) + EncodeU16(a.maxStack)
          + EncodeU16(a.maxLocals) + EncodeU32(a.codeLength))
       + a.code
       + (EncodeU16(a.exceptionTableLength) + EncodeU16(a.codeAttributesCount))
       + EncodeAttributes(a.codeAttributes)
  {
    var a := m.attributes[0];
    assert m.attributes[..0] == [];
    assert AttributesEncodable(m.attributes);
    assert EncodeAttributes(m.attributes) == EncodeAttribute(a);
    assert EncodeHandlers(a.exceptionTable) == [];
  }

  /** A nested LineNumberTable alone: its name, length and count, then its entries. */
  lemma OneLineNumberTable(lnt: AttributeInfo)
    requires lnt.LineNumberTable?
    ensures AttributesEncodable([lnt])
    ensures EncodeAttributes([lnt])
         == EncodeU16(lnt.attributeNameIndex) + EncodeU32(lnt.attributeLength)
          + EncodeU16(lnt.lineNumberTableLength) + EncodeLineNumbers(lnt.lineNumberTable)
  {
    assert [lnt][..0] == [];
  }

  /** A class file's encoding is its seven sections in order, whatever bytes they are. */
  lemma ClassFileLayout(cf: ClassFile, head: seq<u8>, pool: seq<u8>, refs: seq<u8>, interfaces: seq<u8>,
                        fields: seq<u8>, methods: seq<u8>, attributes: seq<u8>)
    requires Encodable(cf)
    requires EncodeHeader(cf) + EncodeU16(cf.constantPoolCount) == head
    requires EncodePool(cf.constantPool) == pool
    requires EncodeClassRefs(cf) == refs
    requires EncodeInterfaces(cf) == interfaces
    requires EncodeU16(cf.fieldsCount) + EncodeMembers(cf.fields) == fields
    requires EncodeU16(cf.methodsCount) + EncodeMembers(cf.methods) == methods
    requires EncodeU16(cf.attributesCount) + EncodeAttributes(cf.attributes) == attributes
    ensures EncodeClassFile(cf) == head + pool + refs + interfaces + fields + methods + attributes
  {
    AppendAssoc(EncodeHeader(cf), EncodeU16(cf.constantPoolCount), EncodePool(cf.constantPool));
  }

  /** The class's one attribute: SourceFile, name 3, length 2, index 9. */
  lemma MinimalAttributesEncoding()
    ensures AttributesEncodable(Minimal.attributes)
    ensures EncodeU16(Minimal.attributesCount) + EncodeAttributes(Minimal.attributes)
         == [0x00, 0x01, 0x00, 0x03, 0x00, 0x00, 0x00, 0x02, 0x00, 0x09]
  {
    var attrs := Minimal.attributes;
    assert attrs == [SourceFile(3, 2, 9)] by {}
    assert attrs[..0] == [];
  }

  /**
   * What the encoder writes for the test's Minimal class is exactly the
   * byte array the test compares it with.
   */
  lemma MinimalBytes()
    ensures Encodable(Minimal)
    ensures EncodeClassFile(Minimal) == MinimalExpected
  {
    MinimalMethodsEncoding();
    MinimalAttributesEncoding();
    assert Encodable(Minimal);
    MinimalHeader();
    MinimalPoolEncoding();
    MinimalClassRefs();
    assert EncodeInterfaces(Minimal) == [0x00, 0x00];
    assert EncodeU16(Minimal.fieldsCount) + EncodeMembers(Minimal.fields) == [0x00, 0x00];
    ClassFileLayout(Minimal, MinimalHead, Join(MinimalSlotBytes), [0x00, 0x21, 0x00, 0x0c, 0x00, 0x0d],
      [0x00, 0x00], [0x00, 0x00], [0x00, 0x02] + Join([MinimalInitBytes, MinimalMainBytes]),
      [0x00, 0x01, 0x00, 0x03, 0x00, 0x00, 0x00, 0x02, 0x00, 0x09]);
  }

  /**
   * The HelloWorld test's constructor body: five bytes of code and a
   * one-line LineNumberTable make an attribute_length of 29, and the
   * attribute takes 6 + 29 bytes on the wire.
   */
  lemma HelloWorldInitCode()
    ensures var a := Code(23, 29, 1, 1, 5, [42, 183, 0, 1, 177], 0, [], 1,
                          [LineNumberTable(24, 6, 1, [LineNumber(0, 1)])]);
            WellFormedAttribute(a) && |EncodeAttribute(a)| == 35
  {
    var lnt := LineNumberTable(24, 6, 1, [LineNumber(0, 1)]);
    var a := Code(23, 29, 1, 1, 5, [42, 183, 0, 1, 177], 0, [], 1, [lnt]);
    assert [lnt][..0] == [];
    assert NestedSize([lnt]) == 12;
    assert WellFormedAttribute(a);
    assert AttributeEncodable(a);
    AttributeSize(a);
  }
}
