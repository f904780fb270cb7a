/**
 * The HelloWorld class of the encoder's integration test
 * (tests/test_serializer.rs): the model the test builds, the 422 bytes it
 * expects written section by section, and the proof that the encoder
 * writes exactly those bytes for it. The model stores `super_class` as 1,
 * which is written as 2, the pool index of java/lang/Object.
 */
module HelloWorldVector {
  import opened Numeric
  import opened Results
  import opened Rw
  import opened Model
  import opened Encoder
  import opened Vectors

  /** The test's constant pool, slot by slot. */
  const HelloWorldPool: seq<Option<CpInfo>> := [
    None,
    Some(MethodrefInfo(10, 2, 3)),
    Some(ClassInfo(7, 4)),
    Some(NameAndTypeInfo(12, 5, 6)),
    Some(Utf8Info(1, 16, [106, 97, 118, 97, 47, 108, 97, 110, 103, 47, 79, 98, 106, 101, 99, 116])),
    Some(Utf8Info(1, 6, [60, 105, 110, 105, 116, 62])),
    Some(Utf8Info(1, 3, [40, 41, 86])),
    Some(FieldrefInfo(9, 8, 9)),
    Some(ClassInfo(7, 10)),
    Some(NameAndTypeInfo(12, 11, 12)),
    Some(Utf8Info(1, 16, [106, 97, 118, 97, 47, 108, 97, 110, 103, 47, 83, 121, 115, 116, 101, 109])),
    Some(Utf8Info(1, 3, [111, 117, 116])),
    Some(Utf8Info(1, 21, [76, 106, 97, 118, 97, 47, 105, 111, 47, 80, 114, 105, 110, 116, 83, 116, 114, 101, 97, 109, 59])),
    Some(StringInfo(8, 14)),
    Some(Utf8Info(1, 12, [72, 101, 108, 108, 111, 44, 32, 119, 111, 114, 108, 100])),
    Some(MethodrefInfo(10, 16, 17)),
    Some(ClassInfo(7, 18)),
    Some(NameAndTypeInfo(12, 19, 20)),
    Some(Utf8Info(1, 19, [106, 97, 118, 97, 47, 105, 111, 47, 80, 114, 105, 110, 116, 83, 116, 114, 101, 97, 109])),
    Some(Utf8Info(1, 7, [112, 114, 105, 110, 116, 108, 110])),
    Some(Utf8Info(1, 21, [40, 76, 106, 97, 118, 97, 47, 108, 97, 110, 103, 47, 83, 116, 114, 105, 110, 103, 59, 41, 86])),
    Some(ClassInfo(7, 22)),
    Some(Utf8Info(1, 10, [72, 101, 108, 108, 111, 87, 111, 114, 108, 100])),
    Some(Utf8Info(1, 4, [67, 111, 100, 101])),
    Some(Utf8Info(1, 15, [76, 105, 110, 101, 78, 117, 109, 98, 101, 114, 84, 97, 98, 108, 101])),
    Some(Utf8Info(1, 4, [109, 97, 105, 110])),
    Some(Utf8Info(1, 22, [40, 91, 76, 106, 97, 118, 97, 47, 108, 97, 110, 103, 47, 83, 116, 114, 105, 110, 103, 59, 41, 86])),
    Some(Utf8Info(1, 10, [83, 111, 117, 114, 99, 101, 70, 105, 108, 101])),
    Some(Utf8Info(1, 15, [72, 101, 108, 108, 111, 87, 111, 114, 108, 100, 46, 106, 97, 118, 97]))
  ]

  /** The method `<init>`. */
  const HelloWorldInit: MemberInfo :=
    MemberInfo(1, 5, 6, 1, [Code(23, 29, 1, 1, 5, [42, 183, 0, 1, 177], 0, [], 1, [LineNumberTable(24, 6, 1, [LineNumber(0, 1)])])])

  /** The method `main`. */
  const HelloWorldMain: MemberInfo :=
    MemberInfo(9, 25, 26, 1, [Code(23, 33, 2, 1, 9, [178, 0, 7, 18, 13, 182, 0, 15, 177], 0, [], 1, [LineNumberTable(24, 6, 1, [LineNumber(0, 2)])])])

  /** The class as the test builds it. */
  const HelloWorld: ClassFile := ClassFile(
    0xCAFEBABE, 0, 65,
    29, HelloWorldPool,
    33, 21, 1,
    0, [],
    0, [],
    2, [HelloWorldInit, HelloWorldMain],
    1, [SourceFile(27, 2, 28)])

  /** magic, minor_version, major_version and constant_pool_count. */
  const HelloWorldHead: seq<u8> := [0xca, 0xfe, 0xba, 0xbe] + [0x00, 0x00] + [0x00, 0x41] + [0x00, 0x1d]

  /** The test's pool bytes slot by slot: nothing for an empty slot, each entry's bytes otherwise. */
  const HelloWorldSlotBytes: seq<seq<u8>> := [
    [],
    [0x0a, 0x00, 0x02, 0x00, 0x03],
    [0x07, 0x00, 0x04],
    [0x0c, 0x00, 0x05, 0x00, 0x06],
    [0x01, 0x00, 0x10] + [0x6a, 0x61, 0x76, 0x61, 0x2f, 0x6c, 0x61, 0x6e, 0x67, 0x2f, 0x4f, 0x62, 0x6a, 0x65, 0x63, 0x74],
    [0x01, 0x00, 0x06] + [0x3c, 0x69, 0x6e, 0x69, 0x74, 0x3e],
    [0x01, 0x00, 0x03] + [0x28, 0x29, 0x56],
    [0x09, 0x00, 0x08, 0x00, 0x09],
    [0x07, 0x00, 0x0a],
    [0x0c, 0x00, 0x0b, 0x00, 0x0c],
    [0x01, 0x00, 0x10] + [0x6a, 0x61, 0x76, 0x61, 0x2f, 0x6c, 0x61, 0x6e, 0x67, 0x2f, 0x53, 0x79, 0x73, 0x74, 0x65, 0x6d],
    [0x01, 0x00, 0x03] + [0x6f, 0x75, 0x74],
    [0x01, 0x00, 0x15] + [0x4c, 0x6a, 0x61, 0x76, 0x61, 0x2f, 0x69, 0x6f, 0x2f, 0x50, 0x72, 0x69, 0x6e, 0x74, 0x53, 0x74, 0x72, 0x65, 0x61, 0x6d, 0x3b],
    [0x08, 0x00, 0x0e],
    [0x01, 0x00, 0x0c] + [0x48, 0x65, 0x6c, 0x6c, 0x6f, 0x2c, 0x20, 0x77, 0x6f, 0x72, 0x6c, 0x64],
    [0x0a, 0x00, 0x10, 0x00, 0x11],
    [0x07, 0x00, 0x12],
    [0x0c, 0x00, 0x13, 0x00, 0x14],
    [0x01, 0x00, 0x13] + [0x6a, 0x61, 0x76, 0x61, 0x2f, 0x69, 0x6f, 0x2f, 0x50, 0x72, 0x69, 0x6e, 0x74, 0x53, 0x74, 0x72, 0x65, 0x61, 0x6d],
    [0x01, 0x00, 0x07] + [0x70, 0x72, 0x69, 0x6e, 0x74, 0x6c, 0x6e],
    [0x01, 0x00, 0x15] + [0x28, 0x4c, 0x6a, 0x61, 0x76, 0x61, 0x2f, 0x6c, 0x61, 0x6e, 0x67, 0x2f, 0x53, 0x74, 0x72, 0x69, 0x6e, 0x67, 0x3b, 0x29, 0x56],
    [0x07, 0x00, 0x16],
    [0x01, 0x00, 0x0a] + [0x48, 0x65, 0x6c, 0x6c, 0x6f, 0x57, 0x6f, 0x72, 0x6c, 0x64],
    [0x01, 0x00, 0x04] + [0x43, 0x6f, 0x64, 0x65],
    [0x01, 0x00, 0x0f] + [0x4c, 0x69, 0x6e, 0x65, 0x4e, 0x75, 0x6d, 0x62, 0x65, 0x72, 0x54, 0x61, 0x62, 0x6c, 0x65],
    [0x01, 0x00, 0x04] + [0x6d, 0x61, 0x69, 0x6e],
    [0x01, 0x00, 0x16] + [0x28, 0x5b, 0x4c, 0x6a, 0x61, 0x76, 0x61, 0x2f, 0x6c, 0x61, 0x6e, 0x67, 0x2f, 0x53, 0x74, 0x72, 0x69, 0x6e, 0x67, 0x3b, 0x29, 0x56],
    [0x01, 0x00, 0x0a] + [0x53, 0x6f, 0x75, 0x72, 0x63, 0x65, 0x46, 0x69, 0x6c, 0x65],
    [0x01, 0x00, 0x0f] + [0x48, 0x65, 0x6c, 0x6c, 0x6f, 0x57, 0x6f, 0x72, 0x6c, 0x64, 0x2e, 0x6a, 0x61, 0x76, 0x61]
  ]

  /** `<init>`'s line-number entries: start_pc and line_number each. */
  const HelloWorldInitLines: seq<seq<u8>> := [
    [0x00, 0x00] + [0x00, 0x01]
  ]

  /**
   * `<init>`, field by field: flags, name, descriptor, attribute count; the
   * Code attribute's name, length, max_stack, max_locals and code_length;
   * the code; the exception table's length and the nested count; then the
   * LineNumberTable's name, length and count and its entries.
   */
  const HelloWorldInitBytes: seq<u8> :=
    ([0x00, 0x01] + [0x00, 0x05] + [0x00, 0x06] + [0x00, 0x01])
    + ([0x00, 0x17] + [0x00, 0x00, 0x00, 0x1d] + [0x00, 0x01] + [0x00, 0x01] + [0x00, 0x00, 0x00, 0x05])
    + [0x2a, 0xb7, 0x00, 0x01, 0xb1]
    + ([0x00, 0x00] + [0x00, 0x01])
    + ([0x00, 0x18] + [0x00, 0x00, 0x00, 0x06] + [0x00, 0x01] + Join(HelloWorldInitLines))

  /** `main`'s line-number entries: start_pc and line_number each. */
  const HelloWorldMainLines: seq<seq<u8>> := [
    [0x00, 0x00] + [0x00, 0x02]
  ]

  /**
   * `main`, field by field: flags, name, descriptor, attribute count; the
   * Code attribute's name, length, max_stack, max_locals and code_length;
   * the code; the exception table's length and the nested count; then the
   * LineNumberTable's name, length and count and its entries.
   */
  const HelloWorldMainBytes: seq<u8> :=
    ([0x00, 0x09] + [0x00, 0x19] + [0x00, 0x1a] + [0x00, 0x01])
    + ([0x00, 0x17] + [0x00, 0x00, 0x00, 0x21] + [0x00, 0x02] + [0x00, 0x01] + [0x00, 0x00, 0x00, 0x09])
    + [0xb2, 0x00, 0x07, 0x12, 0x0d, 0xb6, 0x00, 0x0f, 0xb1]
    + ([0x00, 0x00] + [0x00, 0x01])
    + ([0x00, 0x18] + [0x00, 0x00, 0x00, 0x06] + [0x00, 0x01] + Join(HelloWorldMainLines))

  /**
   * The 422 bytes the test expects, section by section: head and pool, class
   * references, no interfaces, the fields, the methods, and the SourceFile
   * attribute.
   */
  const HelloWorldExpected: seq<u8> :=
    HelloWorldHead + Join(HelloWorldSlotBytes)
    + ([0x00, 0x21] + [0x00, 0x15] + [0x00, 0x02])
    + [0x00, 0x00]
    + [0x00, 0x00]
    + ([0x00, 0x02] + Join([HelloWorldInitBytes, HelloWorldMainBytes]))
    + ([0x00, 0x01] + ([0x00, 0x1b] + [0x00, 0x00, 0x00, 0x02] + [0x00, 0x1c]))

  /** Slots 0 to 1. */
  lemma HelloWorldSlots0To1()
    ensures EncodeSlot(HelloWorldPool[0]) == HelloWorldSlotBytes[0]
    ensures EncodeSlot(HelloWorldPool[1]) == HelloWorldSlotBytes[1]
  {
    assert HelloWorldPool[0] == None by {}
    assert HelloWorldSlotBytes[0] == [] by {}
    assert EncodeSlot(None) == [] by {}
    assert HelloWorldPool[1] == Some(MethodrefInfo(10, 2, 3)) by {}
    assert HelloWorldSlotBytes[1] == [0x0a, 0x00, 0x02, 0x00, 0x03] by {}
    assert EncodeSlot(Some(MethodrefInfo(10, 2, 3))) == [0x0a, 0x00, 0x02, 0x00, 0x03] by {}
  }

  /** Slots 2 to 3. */
  lemma HelloWorldSlots2To3()
    ensures EncodeSlot(HelloWorldPool[2]) == HelloWorldSlotBytes[2]
    ensures EncodeSlot(HelloWorldPool[3]) == HelloWorldSlotBytes[3]
  {
    assert HelloWorldPool[2] == Some(ClassInfo(7, 4)) by {}
    assert HelloWorldSlotBytes[2] == [0x07, 0x00, 0x04] by {}
    assert EncodeSlot(Some(ClassInfo(7, 4))) == [0x07, 0x00, 0x04] by {}
    assert HelloWorldPool[3] == Some(NameAndTypeInfo(12, 5, 6)) by {}
    assert HelloWorldSlotBytes[3] == [0x0c, 0x00, 0x05, 0x00, 0x06] by {}
    assert EncodeSlot(Some(NameAndTypeInfo(12, 5, 6))) == [0x0c, 0x00, 0x05, 0x00, 0x06] by {}
  }

  /** Slot 4. */
  lemma HelloWorldSlot4()
    ensures EncodeSlot(HelloWorldPool[4]) == HelloWorldSlotBytes[4]
  {
    assert HelloWorldPool[4] == Some(Utf8Info(1, 16, [106, 97, 118, 97, 47, 108, 97, 110, 103, 47, 79, 98, 106, 101, 99, 116])) by {}
    assert HelloWorldSlotBytes[4] == [0x01, 0x00, 0x10] + [0x6a, 0x61, 0x76, 0x61, 0x2f, 0x6c, 0x61, 0x6e, 0x67, 0x2f, 0x4f, 0x62, 0x6a, 0x65, 0x63, 0x74] by {}
    assert EncodeSlot(Some(Utf8Info(1, 16, [106, 97, 118, 97, 47, 108, 97, 110, 103, 47, 79, 98, 106, 101, 99, 116]))) == [0x01, 0x00, 0x10] + [0x6a, 0x61, 0x76, 0x61, 0x2f, 0x6c, 0x61, 0x6e, 0x67, 0x2f, 0x4f, 0x62, 0x6a, 0x65, 0x63, 0x74] by {}
  }

  /** Slot 5. */
  lemma HelloWorldSlot5()
    ensures EncodeSlot(HelloWorldPool[5]) == HelloWorldSlotBytes[5]
  {
    assert HelloWorldPool[5] == Some(Utf8Info(1, 6, [60, 105, 110, 105, 116, 62])) by {}
    assert HelloWorldSlotBytes[5] == [0x01, 0x00, 0x06] + [0x3c, 0x69, 0x6e, 0x69, 0x74, 0x3e] by {}
    assert EncodeSlot(Some(Utf8Info(1, 6, [60, 105, 110, 105, 116, 62]))) == [0x01, 0x00, 0x06] + [0x3c, 0x69, 0x6e, 0x69, 0x74, 0x3e] by {}
  }

  /** Slots 6 to 7. */
  lemma HelloWorldSlots6To7()
    ensures EncodeSlot(HelloWorldPool[6]) == HelloWorldSlotBytes[6]
    ensures EncodeSlot(HelloWorldPool[7]) == HelloWorldSlotBytes[7]
  {
    assert HelloWorldPool[6] == Some(Utf8Info(1, 3, [40, 41, 86])) by {}
    assert HelloWorldSlotBytes[6] == [0x01, 0x00, 0x03] + [0x28, 0x29, 0x56] by {}
    assert EncodeSlot(Some(Utf8Info(1, 3, [40, 41, 86]))) == [0x01, 0x00, 0x03] + [0x28, 0x29, 0x56] by {}
    assert HelloWorldPool[7] == Some(FieldrefInfo(9, 8, 9)) by {}
    assert HelloWorldSlotBytes[7] == [0x09, 0x00, 0x08, 0x00, 0x09] by {}
    assert EncodeSlot(Some(FieldrefInfo(9, 8, 9))) == [0x09, 0x00, 0x08, 0x00, 0x09] by {}
  }

  /** Slots 8 to 9. */
  lemma HelloWorldSlots8To9()
    ensures EncodeSlot(HelloWorldPool[8]) == HelloWorldSlotBytes[8]
    ensures EncodeSlot(HelloWorldPool[9]) == HelloWorldSlotBytes[9]
  {
    assert HelloWorldPool[8] == Some(ClassInfo(7, 10)) by {}
    assert HelloWorldSlotBytes[8] == [0x07, 0x00, 0x0a] by {}
    assert EncodeSlot(Some(ClassInfo(7, 10))) == [0x07, 0x00, 0x0a] by {}
    assert HelloWorldPool[9] == Some(NameAndTypeInfo(12, 11, 12)) by {}
    assert HelloWorldSlotBytes[9] == [0x0c, 0x00, 0x0b, 0x00, 0x0c] by {}
    assert EncodeSlot(Some(NameAndTypeInfo(12, 11, 12))) == [0x0c, 0x00, 0x0b, 0x00, 0x0c] by {}
  }

  /** Slot 10. */
  lemma HelloWorldSlot10()
    ensures EncodeSlot(HelloWorldPool[10]) == HelloWorldSlotBytes[10]
  {
    assert HelloWorldPool[10] == Some(Utf8Info(1, 16, [106, 97, 118, 97, 47, 108, 97, 110, 103, 47, 83, 121, 115, 116, 101, 109])) by {}
    assert HelloWorldSlotBytes[10] == [0x01, 0x00, 0x10] + [0x6a, 0x61, 0x76, 0x61, 0x2f, 0x6c, 0x61, 0x6e, 0x67, 0x2f, 0x53, 0x79, 0x73, 0x74, 0x65, 0x6d] by {}
    assert EncodeSlot(Some(Utf8Info(1, 16, [106, 97, 118, 97, 47, 108, 97, 110, 103, 47, 83, 121, 115, 116, 101, 109]))) == [0x01, 0x00, 0x10] + [0x6a, 0x61, 0x76, 0x61, 0x2f, 0x6c, 0x61, 0x6e, 0x67, 0x2f, 0x53, 0x79, 0x73, 0x74, 0x65, 0x6d] by {}
  }

  /** Slot 11. */
  lemma HelloWorldSlot11()
    ensures EncodeSlot(HelloWorldPool[11]) == HelloWorldSlotBytes[11]
  {
    assert HelloWorldPool[11] == Some(Utf8Info(1, 3, [111, 117, 116])) by {}
    assert HelloWorldSlotBytes[11] == [0x01, 0x00, 0x03] + [0x6f, 0x75, 0x74] by {}
    assert EncodeSlot(Some(Utf8Info(1, 3, [111, 117, 116]))) == [0x01, 0x00, 0x03] + [0x6f, 0x75, 0x74] by {}
  }

  /** Slot 12. */
  lemma HelloWorldSlot12()
    ensures EncodeSlot(HelloWorldPool[12]) == HelloWorldSlotBytes[12]
  {
    assert HelloWorldPool[12] == Some(Utf8Info(1, 21, [76, 106, 97, 118, 97, 47, 105, 111, 47, 80, 114, 105, 110, 116, 83, 116, 114, 101, 97, 109, 59])) by {}
    assert HelloWorldSlotBytes[12] == [0x01, 0x00, 0x15] + [0x4c, 0x6a, 0x61, 0x76, 0x61, 0x2f, 0x69, 0x6f, 0x2f, 0x50, 0x72, 0x69, 0x6e, 0x74, 0x53, 0x74, 0x72, 0x65, 0x61, 0x6d, 0x3b] by {}
    assert EncodeSlot(Some(Utf8Info(1, 21, [76, 106, 97, 118, 97, 47, 105, 111, 47, 80, 114, 105, 110, 116, 83, 116, 114, 101, 97, 109, 59]))) == [0x01, 0x00, 0x15] + [0x4c, 0x6a, 0x61, 0x76, 0x61, 0x2f, 0x69, 0x6f, 0x2f, 0x50, 0x72, 0x69, 0x6e, 0x74, 0x53, 0x74, 0x72, 0x65, 0x61, 0x6d, 0x3b] by {}
  }

  /** Slot 13. */
  lemma HelloWorldSlot13()
    ensures EncodeSlot(HelloWorldPool[13]) == HelloWorldSlotBytes[13]
  {
    assert HelloWorldPool[13] == Some(StringInfo(8, 14)) by {}
    assert HelloWorldSlotBytes[13] == [0x08, 0x00, 0x0e] by {}
    assert EncodeSlot(Some(StringInfo(8, 14))) == [0x08, 0x00, 0x0e] by {}
  }

  /** Slot 14. */
  lemma HelloWorldSlot14()
    ensures EncodeSlot(HelloWorldPool[14]) == HelloWorldSlotBytes[14]
  {
    assert HelloWorldPool[14] == Some(Utf8Info(1, 12, [72, 101, 108, 108, 111, 44, 32, 119, 111, 114, 108, 100])) by {}
    assert HelloWorldSlotBytes[14] == [0x01, 0x00, 0x0c] + [0x48, 0x65, 0x6c, 0x6c, 0x6f, 0x2c, 0x20, 0x77, 0x6f, 0x72, 0x6c, 0x64] by {}
    assert EncodeSlot(Some(Utf8Info(1, 12, [72, 101, 108, 108, 111, 44, 32, 119, 111, 114, 108, 100]))) == [0x01, 0x00, 0x0c] + [0x48, 0x65, 0x6c, 0x6c, 0x6f, 0x2c, 0x20, 0x77, 0x6f, 0x72, 0x6c, 0x64] by {}
  }

  /** Slots 15 to 16. */
  lemma HelloWorldSlots15To16()
    ensures EncodeSlot(HelloWorldPool[15]) == HelloWorldSlotBytes[15]
    ensures EncodeSlot(HelloWorldPool[16]) == HelloWorldSlotBytes[16]
  {
    assert HelloWorldPool[15] == Some(MethodrefInfo(10, 16, 17)) by {}
    assert HelloWorldSlotBytes[15] == [0x0a, 0x00, 0x10, 0x00, 0x11] by {}
    assert EncodeSlot(Some(MethodrefInfo(10, 16, 17))) == [0x0a, 0x00, 0x10, 0x00, 0x11] by {}
    assert HelloWorldPool[16] == Some(ClassInfo(7, 18)) by {}
    assert HelloWorldSlotBytes[16] == [0x07, 0x00, 0x12] by {}
    assert EncodeSlot(Some(ClassInfo(7, 18))) == [0x07, 0x00, 0x12] by {}
  }

  /** Slot 17. */
  lemma HelloWorldSlot17()
    ensures EncodeSlot(HelloWorldPool[17]) == HelloWorldSlotBytes[17]
  {
    assert HelloWorldPool[17] == Some(NameAndTypeInfo(12, 19, 20)) by {}
    assert HelloWorldSlotBytes[17] == [0x0c, 0x00, 0x13, 0x00, 0x14] by {}
    assert EncodeSlot(Some(NameAndTypeInfo(12, 19, 20))) == [0x0c, 0x00, 0x13, 0x00, 0x14] by {}
  }

  /** Slot 18. */
  lemma HelloWorldSlot18()
    ensures EncodeSlot(HelloWorldPool[18]) == HelloWorldSlotBytes[18]
  {
    assert HelloWorldPool[18] == Some(Utf8Info(1, 19, [106, 97, 118, 97, 47, 105, 111, 47, 80, 114, 105, 110, 116, 83, 116, 114, 101, 97, 109])) by {}
    assert HelloWorldSlotBytes[18] == [0x01, 0x00, 0x13] + [0x6a, 0x61, 0x76, 0x61, 0x2f, 0x69, 0x6f, 0x2f, 0x50, 0x72, 0x69, 0x6e, 0x74, 0x53, 0x74, 0x72, 0x65, 0x61, 0x6d] by {}
    assert EncodeSlot(Some(Utf8Info(1, 19, [106, 97, 118, 97, 47, 105, 111, 47, 80, 114, 105, 110, 116, 83, 116, 114, 101, 97, 109]))) == [0x01, 0x00, 0x13] + [0x6a, 0x61, 0x76, 0x61, 0x2f, 0x69, 0x6f, 0x2f, 0x50, 0x72, 0x69, 0x6e, 0x74, 0x53, 0x74, 0x72, 0x65, 0x61, 0x6d] by {}
  }

  /** Slot 19. */
  lemma HelloWorldSlot19()
    ensures EncodeSlot(HelloWorldPool[19]) == HelloWorldSlotBytes[19]
  {
    assert HelloWorldPool[19] == Some(Utf8Info(1, 7, [112, 114, 105, 110, 116, 108, 110])) by {}
    assert HelloWorldSlotBytes[19] == [0x01, 0x00, 0x07] + [0x70, 0x72, 0x69, 0x6e, 0x74, 0x6c, 0x6e] by {}
    assert EncodeSlot(Some(Utf8Info(1, 7, [112, 114, 105, 110, 116, 108, 110]))) == [0x01, 0x00, 0x07] + [0x70, 0x72, 0x69, 0x6e, 0x74, 0x6c, 0x6e] by {}
  }

  /** Slot 20. */
  lemma HelloWorldSlot20()
    ensures EncodeSlot(HelloWorldPool[20]) == HelloWorldSlotBytes[20]
  {
    assert HelloWorldPool[20] == Some(Utf8Info(1, 21, [40, 76, 106, 97, 118, 97, 47, 108, 97, 110, 103, 47, 83, 116, 114, 105, 110, 103, 59, 41, 86])) by {}
    assert HelloWorldSlotBytes[20] == [0x01, 0x00, 0x15] + [0x28, 0x4c, 0x6a, 0x61, 0x76, 0x61, 0x2f, 0x6c, 0x61, 0x6e, 0x67, 0x2f, 0x53, 0x74, 0x72, 0x69, 0x6e, 0x67, 0x3b, 0x29, 0x56] by {}
    assert EncodeSlot(Some(Utf8Info(1, 21, [40, 76, 106, 97, 118, 97, 47, 108, 97, 110, 103, 47, 83, 116, 114, 105, 110, 103, 59, 41, 86]))) == [0x01, 0x00, 0x15] + [0x28, 0x4c, 0x6a, 0x61, 0x76, 0x61, 0x2f, 0x6c, 0x61, 0x6e, 0x67, 0x2f, 0x53, 0x74, 0x72, 0x69, 0x6e, 0x67, 0x3b, 0x29, 0x56] by {}
  }

  /** Slot 21. */
  lemma HelloWorldSlot21()
    ensures EncodeSlot(HelloWorldPool[21]) == HelloWorldSlotBytes[21]
  {
    assert HelloWorldPool[21] == Some(ClassInfo(7, 22)) by {}
    assert HelloWorldSlotBytes[21] == [0x07, 0x00, 0x16] by {}
    assert EncodeSlot(Some(ClassInfo(7, 22))) == [0x07, 0x00, 0x16] by {}
  }

  /** Slot 22. */
  lemma HelloWorldSlot22()
    ensures EncodeSlot(HelloWorldPool[22]) == HelloWorldSlotBytes[22]
  {
    assert HelloWorldPool[22] == Some(Utf8Info(1, 10, [72, 101, 108, 108, 111, 87, 111, 114, 108, 100])) by {}
    assert HelloWorldSlotBytes[22] == [0x01, 0x00, 0x0a] + [0x48, 0x65, 0x6c, 0x6c, 0x6f, 0x57, 0x6f, 0x72, 0x6c, 0x64] by {}
    assert EncodeSlot(Some(Utf8Info(1, 10, [72, 101, 108, 108, 111, 87, 111, 114, 108, 100]))) == [0x01, 0x00, 0x0a] + [0x48, 0x65, 0x6c, 0x6c, 0x6f, 0x57, 0x6f, 0x72, 0x6c, 0x64] by {}
  }

  /** Slot 23. */
  lemma HelloWorldSlot23()
    ensures EncodeSlot(HelloWorldPool[23]) == HelloWorldSlotBytes[23]
  {
    assert HelloWorldPool[23] == Some(Utf8Info(1, 4, [67, 111, 100, 101])) by {}
    assert HelloWorldSlotBytes[23] == [0x01, 0x00, 0x04] + [0x43, 0x6f, 0x64, 0x65] by {}
    assert EncodeSlot(Some(Utf8Info(1, 4, [67, 111, 100, 101]))) == [0x01, 0x00, 0x04] + [0x43, 0x6f, 0x64, 0x65] by {}
  }

  /** Slot 24. */
  lemma HelloWorldSlot24()
    ensures EncodeSlot(HelloWorldPool[24]) == HelloWorldSlotBytes[24]
  {
    assert HelloWorldPool[24] == Some(Utf8Info(1, 15, [76, 105, 110, 101, 78, 117, 109, 98, 101, 114, 84, 97, 98, 108, 101])) by {}
    assert HelloWorldSlotBytes[24] == [0x01, 0x00, 0x0f] + [0x4c, 0x69, 0x6e, 0x65, 0x4e, 0x75, 0x6d, 0x62, 0x65, 0x72, 0x54, 0x61, 0x62, 0x6c, 0x65] by {}
    assert EncodeSlot(Some(Utf8Info(1, 15, [76, 105, 110, 101, 78, 117, 109, 98, 101, 114, 84, 97, 98, 108, 101]))) == [0x01, 0x00, 0x0f] + [0x4c, 0x69, 0x6e, 0x65, 0x4e, 0x75, 0x6d, 0x62, 0x65, 0x72, 0x54, 0x61, 0x62, 0x6c, 0x65] by {}
  }

  /** Slot 25. */
  lemma HelloWorldSlot25()
    ensures EncodeSlot(HelloWorldPool[25]) == HelloWorldSlotBytes[25]
  {
    assert HelloWorldPool[25] == Some(Utf8Info(1, 4, [109, 97, 105, 110])) by {}
    assert HelloWorldSlotBytes[25] == [0x01, 0x00, 0x04] + [0x6d, 0x61, 0x69, 0x6e] by {}
    assert EncodeSlot(Some(Utf8Info(1, 4, [109, 97, 105, 110]))) == [0x01, 0x00, 0x04] + [0x6d, 0x61, 0x69, 0x6e] by {}
  }

  /** Slot 26. */
  lemma HelloWorldSlot26()
    ensures EncodeSlot(HelloWorldPool[26]) == HelloWorldSlotBytes[26]
  {
    assert HelloWorldPool[26] == Some(Utf8Info(1, 22, [40, 91, 76, 106, 97, 118, 97, 47, 108, 97, 110, 103, 47, 83, 116, 114, 105, 110, 103, 59, 41, 86])) by {}
    assert HelloWorldSlotBytes[26] == [0x01, 0x00, 0x16] + [0x28, 0x5b, 0x4c, 0x6a, 0x61, 0x76, 0x61, 0x2f, 0x6c, 0x61, 0x6e, 0x67, 0x2f, 0x53, 0x74, 0x72, 0x69, 0x6e, 0x67, 0x3b, 0x29, 0x56] by {}
    assert EncodeSlot(Some(Utf8Info(1, 22, [40, 91, 76, 106, 97, 118, 97, 47, 108, 97, 110, 103, 47, 83, 116, 114, 105, 110, 103, 59, 41, 86]))) == [0x01, 0x00, 0x16] + [0x28, 0x5b, 0x4c, 0x6a, 0x61, 0x76, 0x61, 0x2f, 0x6c, 0x61, 0x6e, 0x67, 0x2f, 0x53, 0x74, 0x72, 0x69, 0x6e, 0x67, 0x3b, 0x29, 0x56] by {}
  }

  /** Slot 27. */
  lemma HelloWorldSlot27()
    ensures EncodeSlot(HelloWorldPool[27]) == HelloWorldSlotBytes[27]
  {
    assert HelloWorldPool[27] == Some(Utf8Info(1, 10, [83, 111, 117, 114, 99, 101, 70, 105, 108, 101])) by {}
    assert HelloWorldSlotBytes[27] == [0x01, 0x00, 0x0a] + [0x53, 0x6f, 0x75, 0x72, 0x63, 0x65, 0x46, 0x69, 0x6c, 0x65] by {}
    assert EncodeSlot(Some(Utf8Info(1, 10, [83, 111, 117, 114, 99, 101, 70, 105, 108, 101]))) == [0x01, 0x00, 0x0a] + [0x53, 0x6f, 0x75, 0x72, 0x63, 0x65, 0x46, 0x69, 0x6c, 0x65] by {}
  }

  /** Slot 28. */
  lemma HelloWorldSlot28()
    ensures EncodeSlot(HelloWorldPool[28]) == HelloWorldSlotBytes[28]
  {
    assert HelloWorldPool[28] == Some(Utf8Info(1, 15, [72, 101, 108, 108, 111, 87, 111, 114, 108, 100, 46, 106, 97, 118, 97])) by {}
    assert HelloWorldSlotBytes[28] == [0x01, 0x00, 0x0f] + [0x48, 0x65, 0x6c, 0x6c, 0x6f, 0x57, 0x6f, 0x72, 0x6c, 0x64, 0x2e, 0x6a, 0x61, 0x76, 0x61] by {}
    assert EncodeSlot(Some(Utf8Info(1, 15, [72, 101, 108, 108, 111, 87, 111, 114, 108, 100, 46, 106, 97, 118, 97]))) == [0x01, 0x00, 0x0f] + [0x48, 0x65, 0x6c, 0x6c, 0x6f, 0x57, 0x6f, 0x72, 0x6c, 0x64, 0x2e, 0x6a, 0x61, 0x76, 0x61] by {}
  }

  /** Each slot of the test's pool encodes to the test's bytes for it. */
  lemma HelloWorldSlotsEncoded()
    ensures forall k :: 0 <= k < |HelloWorldPool| ==> EncodeSlot(HelloWorldPool[k]) == HelloWorldSlotBytes[k]
  {
    forall k | 0 <= k < |HelloWorldPool|
      ensures EncodeSlot(HelloWorldPool[k]) == HelloWorldSlotBytes[k]
    {
      if k == 0 {
        HelloWorldSlots0To1();
      } else if k == 1 {
        HelloWorldSlots0To1();
      } else if k == 2 {
        HelloWorldSlots2To3();
      } else if k == 3 {
        HelloWorldSlots2To3();
      } else if k == 4 {
        HelloWorldSlot4();
      } else if k == 5 {
        HelloWorldSlot5();
      } else if k == 6 {
        HelloWorldSlots6To7();
      } else if k == 7 {
        HelloWorldSlots6To7();
      } else if k == 8 {
        HelloWorldSlots8To9();
      } else if k == 9 {
        HelloWorldSlots8To9();
      } else if k == 10 {
        HelloWorldSlot10();
      } else if k == 11 {
        HelloWorldSlot11();
      } else if k == 12 {
        HelloWorldSlot12();
      } else if k == 13 {
        HelloWorldSlot13();
      } else if k == 14 {
        HelloWorldSlot14();
      } else if k == 15 {
        HelloWorldSlots15To16();
      } else if k == 16 {
        HelloWorldSlots15To16();
      } else if k == 17 {
        HelloWorldSlot17();
      } else if k == 18 {
        HelloWorldSlot18();
      } else if k == 19 {
        HelloWorldSlot19();
      } else if k == 20 {
        HelloWorldSlot20();
      } else if k == 21 {
        HelloWorldSlot21();
      } else if k == 22 {
        HelloWorldSlot22();
      } else if k == 23 {
        HelloWorldSlot23();
      } else if k == 24 {
        HelloWorldSlot24();
      } else if k == 25 {
        HelloWorldSlot25();
      } else if k == 26 {
        HelloWorldSlot26();
      } else if k == 27 {
        HelloWorldSlot27();
      } else {
        HelloWorldSlot28();
      }
    }
  }

  /** The pool's slots are written in order, empty slots as nothing. */
  lemma HelloWorldPoolEncoding()
    ensures EncodePool(HelloWorld.constantPool) == Join(HelloWorldSlotBytes)
  {
    HelloWorldSlotsEncoded();
    PoolAsRuns(HelloWorldPool, HelloWorldSlotBytes);
  }

  /** `<init>` is written as the test expects. */
  lemma HelloWorldInitEncoding()
    ensures AttributesEncodable(HelloWorldInit.attributes)
    ensures EncodeMember(HelloWorldInit) == HelloWorldInitBytes
  {
    var m := HelloWorldInit;
    var lnt := m.attributes[0].codeAttributes[0];
    assert m.attributes[0].codeAttributes == [lnt];
    OneLineNumberTable(lnt);
    CodeMethodLayout(m);
    assert EncodeU16(0) == [0x00, 0x00];
    assert EncodeU16(1) == [0x00, 0x01];
    assert EncodeU16(5) == [0x00, 0x05];
    assert EncodeU16(6) == [0x00, 0x06];
    assert EncodeU16(23) == [0x00, 0x17];
    assert EncodeU16(24) == [0x00, 0x18];
    assert EncodeU32(5) == [0x00, 0x00, 0x00, 0x05];
    assert EncodeU32(6) == [0x00, 0x00, 0x00, 0x06];
    assert EncodeU32(29) == [0x00, 0x00, 0x00, 0x1d];
    LineNumbersAsRuns(lnt.lineNumberTable, HelloWorldInitLines);
  }

  /** `main` is written as the test expects. */
  lemma HelloWorldMainEncoding()
    ensures AttributesEncodable(HelloWorldMain.attributes)
    ensures EncodeMember(HelloWorldMain) == HelloWorldMainBytes
  {
    var m := HelloWorldMain;
    var lnt := m.attributes[0].codeAttributes[0];
    assert m.attributes[0].codeAttributes == [lnt];
    OneLineNumberTable(lnt);
    CodeMethodLayout(m);
    assert EncodeU16(0) == [0x00, 0x00];
    assert EncodeU16(1) == [0x00, 0x01];
    assert EncodeU16(2) == [0x00, 0x02];
    assert EncodeU16(9) == [0x00, 0x09];
    assert EncodeU16(23) == [0x00, 0x17];
    assert EncodeU16(24) == [0x00, 0x18];
    assert EncodeU16(25) == [0x00, 0x19];
    assert EncodeU16(26) == [0x00, 0x1a];
    assert EncodeU32(6) == [0x00, 0x00, 0x00, 0x06];
    assert EncodeU32(9) == [0x00, 0x00, 0x00, 0x09];
    assert EncodeU32(33) == [0x00, 0x00, 0x00, 0x21];
    LineNumbersAsRuns(lnt.lineNumberTable, HelloWorldMainLines);
  }

  /** The methods count, then the methods in order. */
  lemma HelloWorldMethodsEncoding()
    ensures MembersEncodable(HelloWorld.methods)
    ensures EncodeU16(HelloWorld.methodsCount) + EncodeMembers(HelloWorld.methods) == [0x00, 0x02] + Join([HelloWorldInitBytes, HelloWorldMainBytes])
  {
    HelloWorldInitEncoding();
    HelloWorldMainEncoding();
    assert HelloWorld.methods == [HelloWorldInit, HelloWorldMain];
    assert EncodeU16(2) == [0x00, 0x02];
    MembersAsRuns(HelloWorld.methods, [HelloWorldInitBytes, HelloWorldMainBytes]);
  }

  /** The class's one attribute, SourceFile. */
  lemma HelloWorldAttributesEncoding()
    ensures AttributesEncodable(HelloWorld.attributes)
    ensures EncodeU16(HelloWorld.attributesCount) + EncodeAttributes(HelloWorld.attributes) == [0x00, 0x01] + ([0x00, 0x1b] + [0x00, 0x00, 0x00, 0x02] + [0x00, 0x1c])
  {
    var attrs := HelloWorld.attributes;
    assert attrs == [SourceFile(27, 2, 28)] by {}
    assert attrs[..0] == [];
    assert EncodeU16(1) == [0x00, 0x01];
    assert EncodeU16(27) == [0x00, 0x1b];
    assert EncodeU16(28) == [0x00, 0x1c];
    assert EncodeU32(2) == [0x00, 0x00, 0x00, 0x02];
  }

  /** magic, minor_version, major_version and the pool count, as stored. */
  lemma HelloWorldHeadEncoding()
    ensures EncodeHeader(HelloWorld) + EncodeU16(HelloWorld.constantPoolCount) == HelloWorldHead
  {
    assert EncodeU16(0) == [0x00, 0x00];
    assert EncodeU16(29) == [0x00, 0x1d];
    assert EncodeU16(65) == [0x00, 0x41];
    assert EncodeU32(3405691582) == [0xca, 0xfe, 0xba, 0xbe];
  }

  /** access_flags and this_class as stored, super_class 1 written as 2. */
  lemma HelloWorldRefsEncoding()
    ensures HelloWorld.superClass != 0xFFFF
    ensures EncodeClassRefs(HelloWorld) == [0x00, 0x21] + [0x00, 0x15] + [0x00, 0x02]
  {
    assert EncodeU16(2) == [0x00, 0x02];
    assert EncodeU16(21) == [0x00, 0x15];
    assert EncodeU16(33) == [0x00, 0x21];
    assert Bump(1) == 2;
  }

  /** No interfaces: a zero count and nothing after it. */
  lemma HelloWorldInterfacesEncoding()
    ensures HelloWorld.interfacesCount as int <= |HelloWorld.interfaces|
    ensures EncodeInterfaces(HelloWorld) == [0x00, 0x00]
  {
    assert HelloWorld.interfaces[..0] == [];
  }

  /** No fields: a zero count and nothing after it. */
  lemma HelloWorldFieldsEncoding()
    ensures MembersEncodable(HelloWorld.fields)
    ensures EncodeU16(HelloWorld.fieldsCount) + EncodeMembers(HelloWorld.fields) == [0x00, 0x00]
  {
  }

  /** What the encoder writes for the test's class is exactly the byte array the test compares it with. */
  lemma HelloWorldBytes()
    ensures Encodable(HelloWorld)
    ensures EncodeClassFile(HelloWorld) == HelloWorldExpected
  {
    HelloWorldHeadEncoding();
    HelloWorldPoolEncoding();
    HelloWorldRefsEncoding();
    HelloWorldInterfacesEncoding();
    HelloWorldFieldsEncoding();
    HelloWorldMethodsEncoding();
    HelloWorldAttributesEncoding();
    assert Encodable(HelloWorld);
    ClassFileLayout(HelloWorld, HelloWorldHead, Join(HelloWorldSlotBytes), [0x00, 0x21] + [0x00, 0x15] + [0x00, 0x02],
      [0x00, 0x00], [0x00, 0x00],
      ([0x00, 0x02] + Join([HelloWorldInitBytes, HelloWorldMainBytes])),
      [0x00, 0x01] + ([0x00, 0x1b] + [0x00, 0x00, 0x00, 0x02] + [0x00, 0x1c]));
  }
}
