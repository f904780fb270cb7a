/**
 * The Fields class of the encoder's integration test
 * (tests/test_serializer.rs): five fields without attributes, a pool
 * holding a Double constant and the empty slot after it, and two methods
 * whose Code attributes carry line-number tables. The model the test
 * builds, the bytes it expects written section by section, and the proof
 * that the encoder writes exactly those bytes for it.
 */
module FieldsVector {
  import opened Numeric
  import opened Results
  import opened Rw
  import opened Model
  import opened Encoder
  import opened Vectors

  /** The test's constant pool, slots 0 to 35. */
  const FieldsPoolLow: seq<Option<CpInfo>> := [
    None,
    Some(MethodrefInfo(10, 2, 3)),
    Some(ClassInfo(7, 4)),
    Some(NameAndTypeInfo(12, 5, 6)),
    Some(Utf8Info(1, 16, [106, 97, 118, 97, 47, 108, 97, 110, 103, 47, 79, 98, 106, 101, 99, 116])),
    Some(Utf8Info(1, 6, [60, 105, 110, 105, 116, 62])),
    Some(Utf8Info(1, 3, [40, 41, 86])),
    Some(FieldrefInfo(9, 8, 9)),
    Some(ClassInfo(7, 10)),
    Some(NameAndTypeInfo(12, 11, 12)),
    Some(Utf8Info(1, 6, [70, 105, 101, 108, 100, 115])),
    Some(Utf8Info(1, 3, [111, 110, 101])),
    Some(Utf8Info(1, 1, [73])),
    Some(FieldrefInfo(9, 8, 14)),
    Some(NameAndTypeInfo(12, 15, 16)),
    Some(Utf8Info(1, 3, [116, 119, 111])),
    Some(Utf8Info(1, 18, [76, 106, 97, 118, 97, 47, 108, 97, 110, 103, 47, 83, 116, 114, 105, 110, 103, 59])),
    Some(FieldrefInfo(9, 8, 18)),
    Some(NameAndTypeInfo(12, 19, 20)),
    Some(Utf8Info(1, 5, [116, 104, 114, 101, 101])),
    Some(Utf8Info(1, 1, [68])),
    Some(FieldrefInfo(9, 8, 22)),
    Some(NameAndTypeInfo(12, 23, 24)),
    Some(Utf8Info(1, 4, [102, 111, 117, 114])),
    Some(Utf8Info(1, 1, [90])),
    Some(FieldrefInfo(9, 8, 26)),
    Some(NameAndTypeInfo(12, 27, 28)),
    Some(Utf8Info(1, 4, [102, 105, 118, 101])),
    Some(Utf8Info(1, 19, [76, 106, 97, 118, 97, 47, 108, 97, 110, 103, 47, 73, 110, 116, 101, 103, 101, 114, 59])),
    Some(StringInfo(8, 15)),
    Some(DoubleInfo(6, 1074266112, 0)),
    None,
    Some(MethodrefInfo(10, 33, 34)),
    Some(ClassInfo(7, 35)),
    Some(NameAndTypeInfo(12, 36, 37)),
    Some(Utf8Info(1, 17, [106, 97, 118, 97, 47, 108, 97, 110, 103, 47, 73, 110, 116, 101, 103, 101, 114]))
  ]

  /** The test's constant pool, slots 36 to 70. */
  const FieldsPoolHigh: seq<Option<CpInfo>> := [
    Some(Utf8Info(1, 7, [118, 97, 108, 117, 101, 79, 102])),
    Some(Utf8Info(1, 22, [40, 73, 41, 76, 106, 97, 118, 97, 47, 108, 97, 110, 103, 47, 73, 110, 116, 101, 103, 101, 114, 59])),
    Some(MethodrefInfo(10, 8, 39)),
    Some(NameAndTypeInfo(12, 5, 40)),
    Some(Utf8Info(1, 43, [40, 73, 76, 106, 97, 118, 97, 47, 108, 97, 110, 103, 47, 83, 116, 114, 105, 110, 103, 59, 68, 90, 76, 106, 97, 118, 97, 47, 108, 97, 110, 103, 47, 73, 110, 116, 101, 103, 101, 114, 59, 41, 86])),
    Some(FieldrefInfo(9, 42, 43)),
    Some(ClassInfo(7, 44)),
    Some(NameAndTypeInfo(12, 45, 46)),
    Some(Utf8Info(1, 16, [106, 97, 118, 97, 47, 108, 97, 110, 103, 47, 83, 121, 115, 116, 101, 109])),
    Some(Utf8Info(1, 3, [111, 117, 116])),
    Some(Utf8Info(1, 21, [76, 106, 97, 118, 97, 47, 105, 111, 47, 80, 114, 105, 110, 116, 83, 116, 114, 101, 97, 109, 59])),
    Some(StringInfo(8, 48)),
    Some(Utf8Info(1, 19, [37, 100, 44, 32, 37, 115, 44, 32, 37, 102, 44, 32, 37, 98, 44, 32, 37, 100, 10])),
    Some(MethodrefInfo(10, 50, 51)),
    Some(ClassInfo(7, 52)),
    Some(NameAndTypeInfo(12, 36, 53)),
    Some(Utf8Info(1, 16, [106, 97, 118, 97, 47, 108, 97, 110, 103, 47, 68, 111, 117, 98, 108, 101])),
    Some(Utf8Info(1, 21, [40, 68, 41, 76, 106, 97, 118, 97, 47, 108, 97, 110, 103, 47, 68, 111, 117, 98, 108, 101, 59])),
    Some(MethodrefInfo(10, 55, 56)),
    Some(ClassInfo(7, 57)),
    Some(NameAndTypeInfo(12, 36, 58)),
    Some(Utf8Info(1, 17, [106, 97, 118, 97, 47, 108, 97, 110, 103, 47, 66, 111, 111, 108, 101, 97, 110])),
    Some(Utf8Info(1, 22, [40, 90, 41, 76, 106, 97, 118, 97, 47, 108, 97, 110, 103, 47, 66, 111, 111, 108, 101, 97, 110, 59])),
    Some(MethodrefInfo(10, 60, 61)),
    Some(ClassInfo(7, 62)),
    Some(NameAndTypeInfo(12, 63, 64)),
    Some(Utf8Info(1, 19, [106, 97, 118, 97, 47, 105, 111, 47, 80, 114, 105, 110, 116, 83, 116, 114, 101, 97, 109])),
    Some(Utf8Info(1, 6, [112, 114, 105, 110, 116, 102])),
    Some(Utf8Info(1, 60, [40, 76, 106, 97, 118, 97, 47, 108, 97, 110, 103, 47, 83, 116, 114, 105, 110, 103, 59, 91, 76, 106, 97, 118, 97, 47, 108, 97, 110, 103, 47, 79, 98, 106, 101, 99, 116, 59, 41, 76, 106, 97, 118, 97, 47, 105, 111, 47, 80, 114, 105, 110, 116, 83, 116, 114, 101, 97, 109, 59])),
    Some(Utf8Info(1, 4, [67, 111, 100, 101])),
    Some(Utf8Info(1, 15, [76, 105, 110, 101, 78, 117, 109, 98, 101, 114, 84, 97, 98, 108, 101])),
    Some(Utf8Info(1, 4, [109, 97, 105, 110])),
    Some(Utf8Info(1, 22, [40, 91, 76, 106, 97, 118, 97, 47, 108, 97, 110, 103, 47, 83, 116, 114, 105, 110, 103, 59, 41, 86])),
    Some(Utf8Info(1, 10, [83, 111, 117, 114, 99, 101, 70, 105, 108, 101])),
    Some(Utf8Info(1, 11, [70, 105, 101, 108, 100, 115, 46, 106, 97, 118, 97]))
  ]

  /** The test's constant pool: both halves. */
  const FieldsPool: seq<Option<CpInfo>> := FieldsPoolLow + FieldsPoolHigh

  /** The method `<init>`. */
  const FieldsInit: MemberInfo :=
    MemberInfo(0, 5, 40, 1, [Code(65, 80, 3, 7, 32, [42, 183, 0, 1, 42, 27, 181, 0, 7, 42, 44, 181, 0, 13, 42, 41, 181, 0, 17, 42, 21, 5, 181, 0, 21, 42, 25, 6, 181, 0, 25, 177], 0, [], 1, [LineNumberTable(66, 30, 7, [LineNumber(0, 8), LineNumber(4, 9), LineNumber(9, 10), LineNumber(14, 11), LineNumber(19, 12), LineNumber(25, 13), LineNumber(31, 14)])])])

  /** The method `main`. */
  const FieldsMain: MemberInfo :=
    MemberInfo(9, 67, 68, 1, [Code(65, 117, 8, 2, 77, [187, 0, 8, 89, 4, 18, 29, 20, 0, 30, 4, 8, 184, 0, 32, 183, 0, 38, 76, 178, 0, 41, 18, 47, 8, 189, 0, 2, 89, 3, 43, 180, 0, 7, 184, 0, 32, 83, 89, 4, 43, 180, 0, 13, 83, 89, 5, 43, 180, 0, 17, 184, 0, 49, 83, 89, 6, 43, 180, 0, 21, 184, 0, 54, 83, 89, 7, 43, 180, 0, 25, 83, 182, 0, 59, 87, 177], 0, [], 1, [LineNumberTable(66, 22, 5, [LineNumber(0, 17), LineNumber(19, 18), LineNumber(51, 19), LineNumber(72, 18), LineNumber(76, 20)])])])

  /** The class as the test builds it. */
  const Fields: ClassFile := ClassFile(
    0xCAFEBABE, 0, 65,
    71, FieldsPool,
    33, 8, 1,
    0, [],
    5, [
      MemberInfo(2, 11, 12, 0, []),
      MemberInfo(2, 15, 16, 0, []),
      MemberInfo(1, 19, 20, 0, []),
      MemberInfo(4, 23, 24, 0, []),
      MemberInfo(0, 27, 28, 0, [])
    ],
    2, [FieldsInit, FieldsMain],
    1, [SourceFile(69, 2, 70)])

  /** magic, minor_version, major_version and constant_pool_count. */
  const FieldsHead: seq<u8> := [0xca, 0xfe, 0xba, 0xbe] + [0x00, 0x00] + [0x00, 0x41] + [0x00, 0x47]

  /** The test's bytes for slots 0 to 35: nothing for an empty slot, each entry's bytes otherwise. */
  const FieldsSlotsLow: seq<seq<u8>> := [
    [],
    [0x0a, 0x00, 0x02, 0x00, 0x03],
    [0x07, 0x00, 0x04],
    [0x0c, 0x00, 0x05, 0x00, 0x06],
    [0x01, 0x00, 0x10] + [0x6a, 0x61, 0x76, 0x61, 0x2f, 0x6c, 0x61, 0x6e, 0x67, 0x2f, 0x4f, 0x62, 0x6a, 0x65, 0x63, 0x74],
    [0x01, 0x00, 0x06] + [0x3c, 0x69, 0x6e, 0x69, 0x74, 0x3e],
    [0x01, 0x00, 0x03] + [0x28, 0x29, 0x56],
    [0x09, 0x00, 0x08, 0x00, 0x09],
    [0x07, 0x00, 0x0a],
    [0x0c, 0x00, 0x0b, 0x00, 0x0c],
    [0x01, 0x00, 0x06] + [0x46, 0x69, 0x65, 0x6c, 0x64, 0x73],
    [0x01, 0x00, 0x03] + [0x6f, 0x6e, 0x65],
    [0x01, 0x00, 0x01] + [0x49],
    [0x09, 0x00, 0x08, 0x00, 0x0e],
    [0x0c, 0x00, 0x0f, 0x00, 0x10],
    [0x01, 0x00, 0x03] + [0x74, 0x77, 0x6f],
    [0x01, 0x00, 0x12] + [0x4c, 0x6a, 0x61, 0x76, 0x61, 0x2f, 0x6c, 0x61, 0x6e, 0x67, 0x2f, 0x53, 0x74, 0x72, 0x69, 0x6e, 0x67, 0x3b],
    [0x09, 0x00, 0x08, 0x00, 0x12],
    [0x0c, 0x00, 0x13, 0x00, 0x14],
    [0x01, 0x00, 0x05] + [0x74, 0x68, 0x72, 0x65, 0x65],
    [0x01, 0x00, 0x01] + [0x44],
    [0x09, 0x00, 0x08, 0x00, 0x16],
    [0x0c, 0x00, 0x17, 0x00, 0x18],
    [0x01, 0x00, 0x04] + [0x66, 0x6f, 0x75, 0x72],
    [0x01, 0x00, 0x01] + [0x5a],
    [0x09, 0x00, 0x08, 0x00, 0x1a],
    [0x0c, 0x00, 0x1b, 0x00, 0x1c],
    [0x01, 0x00, 0x04] + [0x66, 0x69, 0x76, 0x65],
    [0x01, 0x00, 0x13] + [0x4c, 0x6a, 0x61, 0x76, 0x61, 0x2f, 0x6c, 0x61, 0x6e, 0x67, 0x2f, 0x49, 0x6e, 0x74, 0x65, 0x67, 0x65, 0x72, 0x3b],
    [0x08, 0x00, 0x0f],
    [0x06, 0x40, 0x08, 0x00, 0x00, 0x00, 0x00, 0x00, 0x00],
    [],
    [0x0a, 0x00, 0x21, 0x00, 0x22],
    [0x07, 0x00, 0x23],
    [0x0c, 0x00, 0x24, 0x00, 0x25],
    [0x01, 0x00, 0x11] + [0x6a, 0x61, 0x76, 0x61, 0x2f, 0x6c, 0x61, 0x6e, 0x67, 0x2f, 0x49, 0x6e, 0x74, 0x65, 0x67, 0x65, 0x72]
  ]

  /** The test's bytes for slots 36 to 70: nothing for an empty slot, each entry's bytes otherwise. */
  const FieldsSlotsHigh: seq<seq<u8>> := [
    [0x01, 0x00, 0x07] + [0x76, 0x61, 0x6c, 0x75, 0x65, 0x4f, 0x66],
    [0x01, 0x00, 0x16] + [0x28, 0x49, 0x29, 0x4c, 0x6a, 0x61, 0x76, 0x61, 0x2f, 0x6c, 0x61, 0x6e, 0x67, 0x2f, 0x49, 0x6e, 0x74, 0x65, 0x67, 0x65, 0x72, 0x3b],
    [0x0a, 0x00, 0x08, 0x00, 0x27],
    [0x0c, 0x00, 0x05, 0x00, 0x28],
    [0x01, 0x00, 0x2b] + [0x28, 0x49, 0x4c, 0x6a, 0x61, 0x76, 0x61, 0x2f, 0x6c, 0x61, 0x6e, 0x67, 0x2f, 0x53, 0x74, 0x72, 0x69, 0x6e, 0x67, 0x3b, 0x44, 0x5a, 0x4c, 0x6a, 0x61, 0x76, 0x61, 0x2f, 0x6c, 0x61, 0x6e, 0x67, 0x2f, 0x49, 0x6e, 0x74, 0x65, 0x67, 0x65, 0x72, 0x3b, 0x29, 0x56],
    [0x09, 0x00, 0x2a, 0x00, 0x2b],
    [0x07, 0x00, 0x2c],
    [0x0c, 0x00, 0x2d, 0x00, 0x2e],
    [0x01, 0x00, 0x10] + [0x6a, 0x61, 0x76, 0x61, 0x2f, 0x6c, 0x61, 0x6e, 0x67, 0x2f, 0x53, 0x79, 0x73, 0x74, 0x65, 0x6d],
    [0x01, 0x00, 0x03] + [0x6f, 0x75, 0x74],
    [0x01, 0x00, 0x15] + [0x4c, 0x6a, 0x61, 0x76, 0x61, 0x2f, 0x69, 0x6f, 0x2f, 0x50, 0x72, 0x69, 0x6e, 0x74, 0x53, 0x74, 0x72, 0x65, 0x61, 0x6d, 0x3b],
    [0x08, 0x00, 0x30],
    [0x01, 0x00, 0x13] + [0x25, 0x64, 0x2c, 0x20, 0x25, 0x73, 0x2c, 0x20, 0x25, 0x66, 0x2c, 0x20, 0x25, 0x62, 0x2c, 0x20, 0x25, 0x64, 0x0a],
    [0x0a, 0x00, 0x32, 0x00, 0x33],
    [0x07, 0x00, 0x34],
    [0x0c, 0x00, 0x24, 0x00, 0x35],
    [0x01, 0x00, 0x10] + [0x6a, 0x61, 0x76, 0x61, 0x2f, 0x6c, 0x61, 0x6e, 0x67, 0x2f, 0x44, 0x6f, 0x75, 0x62, 0x6c, 0x65],
    [0x01, 0x00, 0x15] + [0x28, 0x44, 0x29, 0x4c, 0x6a, 0x61, 0x76, 0x61, 0x2f, 0x6c, 0x61, 0x6e, 0x67, 0x2f, 0x44, 0x6f, 0x75, 0x62, 0x6c, 0x65, 0x3b],
    [0x0a, 0x00, 0x37, 0x00, 0x38],
    [0x07, 0x00, 0x39],
    [0x0c, 0x00, 0x24, 0x00, 0x3a],
    [0x01, 0x00, 0x11] + [0x6a, 0x61, 0x76, 0x61, 0x2f, 0x6c, 0x61, 0x6e, 0x67, 0x2f, 0x42, 0x6f, 0x6f, 0x6c, 0x65, 0x61, 0x6e],
    [0x01, 0x00, 0x16] + [0x28, 0x5a, 0x29, 0x4c, 0x6a, 0x61, 0x76, 0x61, 0x2f, 0x6c, 0x61, 0x6e, 0x67, 0x2f, 0x42, 0x6f, 0x6f, 0x6c, 0x65, 0x61, 0x6e, 0x3b],
    [0x0a, 0x00, 0x3c, 0x00, 0x3d],
    [0x07, 0x00, 0x3e],
    [0x0c, 0x00, 0x3f, 0x00, 0x40],
    [0x01, 0x00, 0x13] + [0x6a, 0x61, 0x76, 0x61, 0x2f, 0x69, 0x6f, 0x2f, 0x50, 0x72, 0x69, 0x6e, 0x74, 0x53, 0x74, 0x72, 0x65, 0x61, 0x6d],
    [0x01, 0x00, 0x06] + [0x70, 0x72, 0x69, 0x6e, 0x74, 0x66],
    [0x01, 0x00, 0x3c] + [0x28, 0x4c, 0x6a, 0x61, 0x76, 0x61, 0x2f, 0x6c, 0x61, 0x6e, 0x67, 0x2f, 0x53, 0x74, 0x72, 0x69, 0x6e, 0x67, 0x3b, 0x5b, 0x4c, 0x6a, 0x61, 0x76, 0x61, 0x2f, 0x6c, 0x61, 0x6e, 0x67, 0x2f, 0x4f, 0x62, 0x6a, 0x65, 0x63, 0x74, 0x3b, 0x29, 0x4c, 0x6a, 0x61, 0x76, 0x61, 0x2f, 0x69, 0x6f, 0x2f, 0x50, 0x72, 0x69, 0x6e, 0x74, 0x53, 0x74, 0x72, 0x65, 0x61, 0x6d, 0x3b],
    [0x01, 0x00, 0x04] + [0x43, 0x6f, 0x64, 0x65],
    [0x01, 0x00, 0x0f] + [0x4c, 0x69, 0x6e, 0x65, 0x4e, 0x75, 0x6d, 0x62, 0x65, 0x72, 0x54, 0x61, 0x62, 0x6c, 0x65],
    [0x01, 0x00, 0x04] + [0x6d, 0x61, 0x69, 0x6e],
    [0x01, 0x00, 0x16] + [0x28, 0x5b, 0x4c, 0x6a, 0x61, 0x76, 0x61, 0x2f, 0x6c, 0x61, 0x6e, 0x67, 0x2f, 0x53, 0x74, 0x72, 0x69, 0x6e, 0x67, 0x3b, 0x29, 0x56],
    [0x01, 0x00, 0x0a] + [0x53, 0x6f, 0x75, 0x72, 0x63, 0x65, 0x46, 0x69, 0x6c, 0x65],
    [0x01, 0x00, 0x0b] + [0x46, 0x69, 0x65, 0x6c, 0x64, 0x73, 0x2e, 0x6a, 0x61, 0x76, 0x61]
  ]

  /** Each field: flags, name, descriptor and an attribute count of zero. */
  const FieldsFieldBytes: seq<seq<u8>> := [
    [0x00, 0x02] + [0x00, 0x0b] + [0x00, 0x0c] + [0x00, 0x00],
    [0x00, 0x02] + [0x00, 0x0f] + [0x00, 0x10] + [0x00, 0x00],
    [0x00, 0x01] + [0x00, 0x13] + [0x00, 0x14] + [0x00, 0x00],
    [0x00, 0x04] + [0x00, 0x17] + [0x00, 0x18] + [0x00, 0x00],
    [0x00, 0x00] + [0x00, 0x1b] + [0x00, 0x1c] + [0x00, 0x00]
  ]

  /** `<init>`'s line-number entries: start_pc and line_number each. */
  const FieldsInitLines: seq<seq<u8>> := [
    [0x00, 0x00] + [0x00, 0x08],
    [0x00, 0x04] + [0x00, 0x09],
    [0x00, 0x09] + [0x00, 0x0a],
    [0x00, 0x0e] + [0x00, 0x0b],
    [0x00, 0x13] + [0x00, 0x0c],
    [0x00, 0x19] + [0x00, 0x0d],
    [0x00, 0x1f] + [0x00, 0x0e]
  ]

  /**
   * `<init>`, field by field: flags, name, descriptor, attribute count; the
   * Code attribute's name, length, max_stack, max_locals and code_length;
   * the code; the exception table's length and the nested count; then the
   * LineNumberTable's name, length and count and its entries.
   */
  const FieldsInitBytes: seq<u8> :=
    ([0x00, 0x00] + [0x00, 0x05] + [0x00, 0x28] + [0x00, 0x01])
    + ([0x00, 0x41] + [0x00, 0x00, 0x00, 0x50] + [0x00, 0x03] + [0x00, 0x07] + [0x00, 0x00, 0x00, 0x20])
    + [0x2a, 0xb7, 0x00, 0x01, 0x2a, 0x1b, 0xb5, 0x00, 0x07, 0x2a, 0x2c, 0xb5, 0x00, 0x0d, 0x2a, 0x29,
       0xb5, 0x00, 0x11, 0x2a, 0x15, 0x05, 0xb5, 0x00, 0x15, 0x2a, 0x19, 0x06, 0xb5, 0x00, 0x19, 0xb1]
    + ([0x00, 0x00] + [0x00, 0x01])
    + ([0x00, 0x42] + [0x00, 0x00, 0x00, 0x1e] + [0x00, 0x07] + Join(FieldsInitLines))

  /** `main`'s line-number entries: start_pc and line_number each. */
  const FieldsMainLines: seq<seq<u8>> := [
    [0x00, 0x00] + [0x00, 0x11],
    [0x00, 0x13] + [0x00, 0x12],
    [0x00, 0x33] + [0x00, 0x13],
    [0x00, 0x48] + [0x00, 0x12],
    [0x00, 0x4c] + [0x00, 0x14]
  ]

  /**
   * `main`, field by field: flags, name, descriptor, attribute count; the
   * Code attribute's name, length, max_stack, max_locals and code_length;
   * the code; the exception table's length and the nested count; then the
   * LineNumberTable's name, length and count and its entries.
   */
  const FieldsMainBytes: seq<u8> :=
    ([0x00, 0x09] + [0x00, 0x43] + [0x00, 0x44] + [0x00, 0x01])
    + ([0x00, 0x41] + [0x00, 0x00, 0x00, 0x75] + [0x00, 0x08] + [0x00, 0x02] + [0x00, 0x00, 0x00, 0x4d])
    + [0xbb, 0x00, 0x08, 0x59, 0x04, 0x12, 0x1d, 0x14, 0x00, 0x1e, 0x04, 0x08, 0xb8, 0x00, 0x20, 0xb7,
       0x00, 0x26, 0x4c, 0xb2, 0x00, 0x29, 0x12, 0x2f, 0x08, 0xbd, 0x00, 0x02, 0x59, 0x03, 0x2b, 0xb4,
       0x00, 0x07, 0xb8, 0x00, 0x20, 0x53, 0x59, 0x04, 0x2b, 0xb4, 0x00, 0x0d, 0x53, 0x59, 0x05, 0x2b,
       0xb4, 0x00, 0x11, 0xb8, 0x00, 0x31, 0x53, 0x59, 0x06, 0x2b, 0xb4, 0x00, 0x15, 0xb8, 0x00, 0x36,
       0x53, 0x59, 0x07, 0x2b, 0xb4, 0x00, 0x19, 0x53, 0xb6, 0x00, 0x3b, 0x57, 0xb1]
    + ([0x00, 0x00] + [0x00, 0x01])
    + ([0x00, 0x42] + [0x00, 0x00, 0x00, 0x16] + [0x00, 0x05] + Join(FieldsMainLines))

  /**
   * The 1023 bytes the test expects, section by section: head and pool, class
   * references, no interfaces, the fields, the methods, and the SourceFile
   * attribute.
   */
  const FieldsExpected: seq<u8> :=
    FieldsHead + (Join(FieldsSlotsLow) + Join(FieldsSlotsHigh))
    + ([0x00, 0x21] + [0x00, 0x08] + [0x00, 0x02])
    + [0x00, 0x00]
    + ([0x00, 0x05] + Join(FieldsFieldBytes))
    + ([0x00, 0x02] + Join([FieldsInitBytes, FieldsMainBytes]))
    + ([0x00, 0x01] + ([0x00, 0x45] + [0x00, 0x00, 0x00, 0x02] + [0x00, 0x46]))

  /** Slots 0 to 1. */
  lemma FieldsSlots0To1()
    ensures EncodeSlot(FieldsPoolLow[0]) == FieldsSlotsLow[0]
    ensures EncodeSlot(FieldsPoolLow[1]) == FieldsSlotsLow[1]
  {
    assert FieldsPoolLow[0] == None by {}
    assert FieldsSlotsLow[0] == [] by {}
    assert EncodeSlot(None) == [] by {}
    assert FieldsPoolLow[1] == Some(MethodrefInfo(10, 2, 3)) by {}
    assert FieldsSlotsLow[1] == [0x0a, 0x00, 0x02, 0x00, 0x03] by {}
    assert EncodeSlot(Some(MethodrefInfo(10, 2, 3))) == [0x0a, 0x00, 0x02, 0x00, 0x03] by {}
  }

  /** Slots 2 to 3. */
  lemma FieldsSlots2To3()
    ensures EncodeSlot(FieldsPoolLow[2]) == FieldsSlotsLow[2]
    ensures EncodeSlot(FieldsPoolLow[3]) == FieldsSlotsLow[3]
  {
    assert FieldsPoolLow[2] == Some(ClassInfo(7, 4)) by {}
    assert FieldsSlotsLow[2] == [0x07, 0x00, 0x04] by {}
    assert EncodeSlot(Some(ClassInfo(7, 4))) == [0x07, 0x00, 0x04] by {}
    assert FieldsPoolLow[3] == Some(NameAndTypeInfo(12, 5, 6)) by {}
    assert FieldsSlotsLow[3] == [0x0c, 0x00, 0x05, 0x00, 0x06] by {}
    assert EncodeSlot(Some(NameAndTypeInfo(12, 5, 6))) == [0x0c, 0x00, 0x05, 0x00, 0x06] by {}
  }

  /** Slot 4. */
  lemma FieldsSlot4()
    ensures EncodeSlot(FieldsPoolLow[4]) == FieldsSlotsLow[4]
  {
    assert FieldsPoolLow[4] == Some(Utf8Info(1, 16, [106, 97, 118, 97, 47, 108, 97, 110, 103, 47, 79, 98, 106, 101, 99, 116])) by {}
    assert FieldsSlotsLow[4] == [0x01, 0x00, 0x10] + [0x6a, 0x61, 0x76, 0x61, 0x2f, 0x6c, 0x61, 0x6e, 0x67, 0x2f, 0x4f, 0x62, 0x6a, 0x65, 0x63, 0x74] by {}
    assert EncodeSlot(Some(Utf8Info(1, 16, [106, 97, 118, 97, 47, 108, 97, 110, 103, 47, 79, 98, 106, 101, 99, 116]))) == [0x01, 0x00, 0x10] + [0x6a, 0x61, 0x76, 0x61, 0x2f, 0x6c, 0x61, 0x6e, 0x67, 0x2f, 0x4f, 0x62, 0x6a, 0x65, 0x63, 0x74] by {}
  }

  /** Slot 5. */
  lemma FieldsSlot5()
    ensures EncodeSlot(FieldsPoolLow[5]) == FieldsSlotsLow[5]
  {
    assert FieldsPoolLow[5] == Some(Utf8Info(1, 6, [60, 105, 110, 105, 116, 62])) by {}
    assert FieldsSlotsLow[5] == [0x01, 0x00, 0x06] + [0x3c, 0x69, 0x6e, 0x69, 0x74, 0x3e] by {}
    assert EncodeSlot(Some(Utf8Info(1, 6, [60, 105, 110, 105, 116, 62]))) == [0x01, 0x00, 0x06] + [0x3c, 0x69, 0x6e, 0x69, 0x74, 0x3e] by {}
  }

  /** Slots 6 to 7. */
  lemma FieldsSlots6To7()
    ensures EncodeSlot(FieldsPoolLow[6]) == FieldsSlotsLow[6]
    ensures EncodeSlot(FieldsPoolLow[7]) == FieldsSlotsLow[7]
  {
    assert FieldsPoolLow[6] == Some(Utf8Info(1, 3, [40, 41, 86])) by {}
    assert FieldsSlotsLow[6] == [0x01, 0x00, 0x03] + [0x28, 0x29, 0x56] by {}
    assert EncodeSlot(Some(Utf8Info(1, 3, [40, 41, 86]))) == [0x01, 0x00, 0x03] + [0x28, 0x29, 0x56] by {}
    assert FieldsPoolLow[7] == Some(FieldrefInfo(9, 8, 9)) by {}
    assert FieldsSlotsLow[7] == [0x09, 0x00, 0x08, 0x00, 0x09] by {}
    assert EncodeSlot(Some(FieldrefInfo(9, 8, 9))) == [0x09, 0x00, 0x08, 0x00, 0x09] by {}
  }

  /** Slots 8 to 9. */
  lemma FieldsSlots8To9()
    ensures EncodeSlot(FieldsPoolLow[8]) == FieldsSlotsLow[8]
    ensures EncodeSlot(FieldsPoolLow[9]) == FieldsSlotsLow[9]
  {
    assert FieldsPoolLow[8] == Some(ClassInfo(7, 10)) by {}
    assert FieldsSlotsLow[8] == [0x07, 0x00, 0x0a] by {}
    assert EncodeSlot(Some(ClassInfo(7, 10))) == [0x07, 0x00, 0x0a] by {}
    assert FieldsPoolLow[9] == Some(NameAndTypeInfo(12, 11, 12)) by {}
    assert FieldsSlotsLow[9] == [0x0c, 0x00, 0x0b, 0x00, 0x0c] by {}
    assert EncodeSlot(Some(NameAndTypeInfo(12, 11, 12))) == [0x0c, 0x00, 0x0b, 0x00, 0x0c] by {}
  }

  /** Slot 10. */
  lemma FieldsSlot10()
    ensures EncodeSlot(FieldsPoolLow[10]) == FieldsSlotsLow[10]
  {
    assert FieldsPoolLow[10] == Some(Utf8Info(1, 6, [70, 105, 101, 108, 100, 115])) by {}
    assert FieldsSlotsLow[10] == [0x01, 0x00, 0x06] + [0x46, 0x69, 0x65, 0x6c, 0x64, 0x73] by {}
    assert EncodeSlot(Some(Utf8Info(1, 6, [70, 105, 101, 108, 100, 115]))) == [0x01, 0x00, 0x06] + [0x46, 0x69, 0x65, 0x6c, 0x64, 0x73] by {}
  }

  /** Slot 11. */
  lemma FieldsSlot11()
    ensures EncodeSlot(FieldsPoolLow[11]) == FieldsSlotsLow[11]
  {
    assert FieldsPoolLow[11] == Some(Utf8Info(1, 3, [111, 110, 101])) by {}
    assert FieldsSlotsLow[11] == [0x01, 0x00, 0x03] + [0x6f, 0x6e, 0x65] by {}
    assert EncodeSlot(Some(Utf8Info(1, 3, [111, 110, 101]))) == [0x01, 0x00, 0x03] + [0x6f, 0x6e, 0x65] by {}
  }

  /** Slots 12 to 13. */
  lemma FieldsSlots12To13()
    ensures EncodeSlot(FieldsPoolLow[12]) == FieldsSlotsLow[12]
    ensures EncodeSlot(FieldsPoolLow[13]) == FieldsSlotsLow[13]
  {
    assert FieldsPoolLow[12] == Some(Utf8Info(1, 1, [73])) by {}
    assert FieldsSlotsLow[12] == [0x01, 0x00, 0x01] + [0x49] by {}
    assert EncodeSlot(Some(Utf8Info(1, 1, [73]))) == [0x01, 0x00, 0x01] + [0x49] by {}
    assert FieldsPoolLow[13] == Some(FieldrefInfo(9, 8, 14)) by {}
    assert FieldsSlotsLow[13] == [0x09, 0x00, 0x08, 0x00, 0x0e] by {}
    assert EncodeSlot(Some(FieldrefInfo(9, 8, 14))) == [0x09, 0x00, 0x08, 0x00, 0x0e] by {}
  }

  /** Slots 14 to 15. */
  lemma FieldsSlots14To15()
    ensures EncodeSlot(FieldsPoolLow[14]) == FieldsSlotsLow[14]
    ensures EncodeSlot(FieldsPoolLow[15]) == FieldsSlotsLow[15]
  {
    assert FieldsPoolLow[14] == Some(NameAndTypeInfo(12, 15, 16)) by {}
    assert FieldsSlotsLow[14] == [0x0c, 0x00, 0x0f, 0x00, 0x10] by {}
    assert EncodeSlot(Some(NameAndTypeInfo(12, 15, 16))) == [0x0c, 0x00, 0x0f, 0x00, 0x10] by {}
    assert FieldsPoolLow[15] == Some(Utf8Info(1, 3, [116, 119, 111])) by {}
    assert FieldsSlotsLow[15] == [0x01, 0x00, 0x03] + [0x74, 0x77, 0x6f] by {}
    assert EncodeSlot(Some(Utf8Info(1, 3, [116, 119, 111]))) == [0x01, 0x00, 0x03] + [0x74, 0x77, 0x6f] by {}
  }

  /** Slot 16. */
  lemma FieldsSlot16()
    ensures EncodeSlot(FieldsPoolLow[16]) == FieldsSlotsLow[16]
  {
    assert FieldsPoolLow[16] == Some(Utf8Info(1, 18, [76, 106, 97, 118, 97, 47, 108, 97, 110, 103, 47, 83, 116, 114, 105, 110, 103, 59])) by {}
    assert FieldsSlotsLow[16] == [0x01, 0x00, 0x12] + [0x4c, 0x6a, 0x61, 0x76, 0x61, 0x2f, 0x6c, 0x61, 0x6e, 0x67, 0x2f, 0x53, 0x74, 0x72, 0x69, 0x6e, 0x67, 0x3b] by {}
    assert EncodeSlot(Some(Utf8Info(1, 18, [76, 106, 97, 118, 97, 47, 108, 97, 110, 103, 47, 83, 116, 114, 105, 110, 103, 59]))) == [0x01, 0x00, 0x12] + [0x4c, 0x6a, 0x61, 0x76, 0x61, 0x2f, 0x6c, 0x61, 0x6e, 0x67, 0x2f, 0x53, 0x74, 0x72, 0x69, 0x6e, 0x67, 0x3b] by {}
  }

  /** Slots 17 to 18. */
  lemma FieldsSlots17To18()
    ensures EncodeSlot(FieldsPoolLow[17]) == FieldsSlotsLow[17]
    ensures EncodeSlot(FieldsPoolLow[18]) == FieldsSlotsLow[18]
  {
    assert FieldsPoolLow[17] == Some(FieldrefInfo(9, 8, 18)) by {}
    assert FieldsSlotsLow[17] == [0x09, 0x00, 0x08, 0x00, 0x12] by {}
    assert EncodeSlot(Some(FieldrefInfo(9, 8, 18))) == [0x09, 0x00, 0x08, 0x00, 0x12] by {}
    assert FieldsPoolLow[18] == Some(NameAndTypeInfo(12, 19, 20)) by {}
    assert FieldsSlotsLow[18] == [0x0c, 0x00, 0x13, 0x00, 0x14] by {}
    assert EncodeSlot(Some(NameAndTypeInfo(12, 19, 20))) == [0x0c, 0x00, 0x13, 0x00, 0x14] by {}
  }

  /** Slot 19. */
  lemma FieldsSlot19()
    ensures EncodeSlot(FieldsPoolLow[19]) == FieldsSlotsLow[19]
  {
    assert FieldsPoolLow[19] == Some(Utf8Info(1, 5, [116, 104, 114, 101, 101])) by {}
    assert FieldsSlotsLow[19] == [0x01, 0x00, 0x05] + [0x74, 0x68, 0x72, 0x65, 0x65] by {}
    assert EncodeSlot(Some(Utf8Info(1, 5, [116, 104, 114, 101, 101]))) == [0x01, 0x00, 0x05] + [0x74, 0x68, 0x72, 0x65, 0x65] by {}
  }

  /** Slots 20 to 21. */
  lemma FieldsSlots20To21()
    ensures EncodeSlot(FieldsPoolLow[20]) == FieldsSlotsLow[20]
    ensures EncodeSlot(FieldsPoolLow[21]) == FieldsSlotsLow[21]
  {
    assert FieldsPoolLow[20] == Some(Utf8Info(1, 1, [68])) by {}
    assert FieldsSlotsLow[20] == [0x01, 0x00, 0x01] + [0x44] by {}
    assert EncodeSlot(Some(Utf8Info(1, 1, [68]))) == [0x01, 0x00, 0x01] + [0x44] by {}
    assert FieldsPoolLow[21] == Some(FieldrefInfo(9, 8, 22)) by {}
    assert FieldsSlotsLow[21] == [0x09, 0x00, 0x08, 0x00, 0x16] by {}
    assert EncodeSlot(Some(FieldrefInfo(9, 8, 22))) == [0x09, 0x00, 0x08, 0x00, 0x16] by {}
  }

  /** Slots 22 to 23. */
  lemma FieldsSlots22To23()
    ensures EncodeSlot(FieldsPoolLow[22]) == FieldsSlotsLow[22]
    ensures EncodeSlot(FieldsPoolLow[23]) == FieldsSlotsLow[23]
  {
    assert FieldsPoolLow[22] == Some(NameAndTypeInfo(12, 23, 24)) by {}
    assert FieldsSlotsLow[22] == [0x0c, 0x00, 0x17, 0x00, 0x18] by {}
    assert EncodeSlot(Some(NameAndTypeInfo(12, 23, 24))) == [0x0c, 0x00, 0x17, 0x00, 0x18] by {}
    assert FieldsPoolLow[23] == Some(Utf8Info(1, 4, [102, 111, 117, 114])) by {}
    assert FieldsSlotsLow[23] == [0x01, 0x00, 0x04] + [0x66, 0x6f, 0x75, 0x72] by {}
    assert EncodeSlot(Some(Utf8Info(1, 4, [102, 111, 117, 114]))) == [0x01, 0x00, 0x04] + [0x66, 0x6f, 0x75, 0x72] by {}
  }

  /** Slots 24 to 25. */
  lemma FieldsSlots24To25()
    ensures EncodeSlot(FieldsPoolLow[24]) == FieldsSlotsLow[24]
    ensures EncodeSlot(FieldsPoolLow[25]) == FieldsSlotsLow[25]
  {
    assert FieldsPoolLow[24] == Some(Utf8Info(1, 1, [90])) by {}
    assert FieldsSlotsLow[24] == [0x01, 0x00, 0x01] + [0x5a] by {}
    assert EncodeSlot(Some(Utf8Info(1, 1, [90]))) == [0x01, 0x00, 0x01] + [0x5a] by {}
    assert FieldsPoolLow[25] == Some(FieldrefInfo(9, 8, 26)) by {}
    assert FieldsSlotsLow[25] == [0x09, 0x00, 0x08, 0x00, 0x1a] by {}
    assert EncodeSlot(Some(FieldrefInfo(9, 8, 26))) == [0x09, 0x00, 0x08, 0x00, 0x1a] by {}
  }

  /** Slots 26 to 27. */
  lemma FieldsSlots26To27()
    ensures EncodeSlot(FieldsPoolLow[26]) == FieldsSlotsLow[26]
    ensures EncodeSlot(FieldsPoolLow[27]) == FieldsSlotsLow[27]
  {
    assert FieldsPoolLow[26] == Some(NameAndTypeInfo(12, 27, 28)) by {}
    assert FieldsSlotsLow[26] == [0x0c, 0x00, 0x1b, 0x00, 0x1c] by {}
    assert EncodeSlot(Some(NameAndTypeInfo(12, 27, 28))) == [0x0c, 0x00, 0x1b, 0x00, 0x1c] by {}
    assert FieldsPoolLow[27] == Some(Utf8Info(1, 4, [102, 105, 118, 101])) by {}
    assert FieldsSlotsLow[27] == [0x01, 0x00, 0x04] + [0x66, 0x69, 0x76, 0x65] by {}
    assert EncodeSlot(Some(Utf8Info(1, 4, [102, 105, 118, 101]))) == [0x01, 0x00, 0x04] + [0x66, 0x69, 0x76, 0x65] by {}
  }

  /** Slot 28. */
  lemma FieldsSlot28()
    ensures EncodeSlot(FieldsPoolLow[28]) == FieldsSlotsLow[28]
  {
    assert FieldsPoolLow[28] == Some(Utf8Info(1, 19, [76, 106, 97, 118, 97, 47, 108, 97, 110, 103, 47, 73, 110, 116, 101, 103, 101, 114, 59])) by {}
    assert FieldsSlotsLow[28] == [0x01, 0x00, 0x13] + [0x4c, 0x6a, 0x61, 0x76, 0x61, 0x2f, 0x6c, 0x61, 0x6e, 0x67, 0x2f, 0x49, 0x6e, 0x74, 0x65, 0x67, 0x65, 0x72, 0x3b] by {}
    assert EncodeSlot(Some(Utf8Info(1, 19, [76, 106, 97, 118, 97, 47, 108, 97, 110, 103, 47, 73, 110, 116, 101, 103, 101, 114, 59]))) == [0x01, 0x00, 0x13] + [0x4c, 0x6a, 0x61, 0x76, 0x61, 0x2f, 0x6c, 0x61, 0x6e, 0x67, 0x2f, 0x49, 0x6e, 0x74, 0x65, 0x67, 0x65, 0x72, 0x3b] by {}
  }

  /** Slots 29 to 30. */
  lemma FieldsSlots29To30()
    ensures EncodeSlot(FieldsPoolLow[29]) == FieldsSlotsLow[29]
    ensures EncodeSlot(FieldsPoolLow[30]) == FieldsSlotsLow[30]
  {
    assert FieldsPoolLow[29] == Some(StringInfo(8, 15)) by {}
    assert FieldsSlotsLow[29] == [0x08, 0x00, 0x0f] by {}
    assert EncodeSlot(Some(StringInfo(8, 15))) == [0x08, 0x00, 0x0f] by {}
    assert FieldsPoolLow[30] == Some(DoubleInfo(6, 1074266112, 0)) by {}
    assert FieldsSlotsLow[30] == [0x06, 0x40, 0x08, 0x00, 0x00, 0x00, 0x00, 0x00, 0x00] by {}
    assert EncodeSlot(Some(DoubleInfo(6, 1074266112, 0))) == [0x06, 0x40, 0x08, 0x00, 0x00, 0x00, 0x00, 0x00, 0x00] by {}
  }

  /** Slots 31 to 32. */
  lemma FieldsSlots31To32()
    ensures EncodeSlot(FieldsPoolLow[31]) == FieldsSlotsLow[31]
    ensures EncodeSlot(FieldsPoolLow[32]) == FieldsSlotsLow[32]
  {
    assert FieldsPoolLow[31] == None by {}
    assert FieldsSlotsLow[31] == [] by {}
    assert EncodeSlot(None) == [] by {}
    assert FieldsPoolLow[32] == Some(MethodrefInfo(10, 33, 34)) by {}
    assert FieldsSlotsLow[32] == [0x0a, 0x00, 0x21, 0x00, 0x22] by {}
    assert EncodeSlot(Some(MethodrefInfo(10, 33, 34))) == [0x0a, 0x00, 0x21, 0x00, 0x22] by {}
  }

  /** Slots 33 to 34. */
  lemma FieldsSlots33To34()
    ensures EncodeSlot(FieldsPoolLow[33]) == FieldsSlotsLow[33]
    ensures EncodeSlot(FieldsPoolLow[34]) == FieldsSlotsLow[34]
  {
    assert FieldsPoolLow[33] == Some(ClassInfo(7, 35)) by {}
    assert FieldsSlotsLow[33] == [0x07, 0x00, 0x23] by {}
    assert EncodeSlot(Some(ClassInfo(7, 35))) == [0x07, 0x00, 0x23] by {}
    assert FieldsPoolLow[34] == Some(NameAndTypeInfo(12, 36, 37)) by {}
    assert FieldsSlotsLow[34] == [0x0c, 0x00, 0x24, 0x00, 0x25] by {}
    assert EncodeSlot(Some(NameAndTypeInfo(12, 36, 37))) == [0x0c, 0x00, 0x24, 0x00, 0x25] by {}
  }

  /** Slot 35. */
  lemma FieldsSlot35()
    ensures EncodeSlot(FieldsPoolLow[35]) == FieldsSlotsLow[35]
  {
    assert FieldsPoolLow[35] == Some(Utf8Info(1, 17, [106, 97, 118, 97, 47, 108, 97, 110, 103, 47, 73, 110, 116, 101, 103, 101, 114])) by {}
    assert FieldsSlotsLow[35] == [0x01, 0x00, 0x11] + [0x6a, 0x61, 0x76, 0x61, 0x2f, 0x6c, 0x61, 0x6e, 0x67, 0x2f, 0x49, 0x6e, 0x74, 0x65, 0x67, 0x65, 0x72] by {}
    assert EncodeSlot(Some(Utf8Info(1, 17, [106, 97, 118, 97, 47, 108, 97, 110, 103, 47, 73, 110, 116, 101, 103, 101, 114]))) == [0x01, 0x00, 0x11] + [0x6a, 0x61, 0x76, 0x61, 0x2f, 0x6c, 0x61, 0x6e, 0x67, 0x2f, 0x49, 0x6e, 0x74, 0x65, 0x67, 0x65, 0x72] by {}
  }

  /** Each of slots 0 to 35 encodes to the test's bytes for it. */
  lemma FieldsLowSlotsEncoded()
    ensures forall k :: 0 <= k < |FieldsPoolLow| ==> EncodeSlot(FieldsPoolLow[k]) == FieldsSlotsLow[k]
  {
    forall k | 0 <= k < |FieldsPoolLow|
      ensures EncodeSlot(FieldsPoolLow[k]) == FieldsSlotsLow[k]
    {
      if k == 0 {
        FieldsSlots0To1();
      } else if k == 1 {
        FieldsSlots0To1();
      } else if k == 2 {
        FieldsSlots2To3();
      } else if k == 3 {
        FieldsSlots2To3();
      } else if k == 4 {
        FieldsSlot4();
      } else if k == 5 {
        FieldsSlot5();
      } else if k == 6 {
        FieldsSlots6To7();
      } else if k == 7 {
        FieldsSlots6To7();
      } else if k == 8 {
        FieldsSlots8To9();
      } else if k == 9 {
        FieldsSlots8To9();
      } else if k == 10 {
        FieldsSlot10();
      } else if k == 11 {
        FieldsSlot11();
      } else if k == 12 {
        FieldsSlots12To13();
      } else if k == 13 {
        FieldsSlots12To13();
      } else if k == 14 {
        FieldsSlots14To15();
      } else if k == 15 {
        FieldsSlots14To15();
      } else if k == 16 {
        FieldsSlot16();
      } else if k == 17 {
        FieldsSlots17To18();
      } else if k == 18 {
        FieldsSlots17To18();
      } else if k == 19 {
        FieldsSlot19();
      } else if k == 20 {
        FieldsSlots20To21();
      } else if k == 21 {
        FieldsSlots20To21();
      } else if k == 22 {
        FieldsSlots22To23();
      } else if k == 23 {
        FieldsSlots22To23();
      } else if k == 24 {
        FieldsSlots24To25();
      } else if k == 25 {
        FieldsSlots24To25();
      } else if k == 26 {
        FieldsSlots26To27();
      } else if k == 27 {
        FieldsSlots26To27();
      } else if k == 28 {
        FieldsSlot28();
      } else if k == 29 {
        FieldsSlots29To30();
      } else if k == 30 {
        FieldsSlots29To30();
      } else if k == 31 {
        FieldsSlots31To32();
      } else if k == 32 {
        FieldsSlots31To32();
      } else if k == 33 {
        FieldsSlots33To34();
      } else if k == 34 {
        FieldsSlots33To34();
      } else {
        FieldsSlot35();
      }
    }
  }

  /** Slot 36. */
  lemma FieldsSlot36()
    ensures EncodeSlot(FieldsPoolHigh[0]) == FieldsSlotsHigh[0]
  {
    assert FieldsPoolHigh[0] == Some(Utf8Info(1, 7, [118, 97, 108, 117, 101, 79, 102])) by {}
    assert FieldsSlotsHigh[0] == [0x01, 0x00, 0x07] + [0x76, 0x61, 0x6c, 0x75, 0x65, 0x4f, 0x66] by {}
    assert EncodeSlot(Some(Utf8Info(1, 7, [118, 97, 108, 117, 101, 79, 102]))) == [0x01, 0x00, 0x07] + [0x76, 0x61, 0x6c, 0x75, 0x65, 0x4f, 0x66] by {}
  }

  /** Slot 37. */
  lemma FieldsSlot37()
    ensures EncodeSlot(FieldsPoolHigh[1]) == FieldsSlotsHigh[1]
  {
    assert FieldsPoolHigh[1] == Some(Utf8Info(1, 22, [40, 73, 41, 76, 106, 97, 118, 97, 47, 108, 97, 110, 103, 47, 73, 110, 116, 101, 103, 101, 114, 59])) by {}
    assert FieldsSlotsHigh[1] == [0x01, 0x00, 0x16] + [0x28, 0x49, 0x29, 0x4c, 0x6a, 0x61, 0x76, 0x61, 0x2f, 0x6c, 0x61, 0x6e, 0x67, 0x2f, 0x49, 0x6e, 0x74, 0x65, 0x67, 0x65, 0x72, 0x3b] by {}
    assert EncodeSlot(Some(Utf8Info(1, 22, [40, 73, 41, 76, 106, 97, 118, 97, 47, 108, 97, 110, 103, 47, 73, 110, 116, 101, 103, 101, 114, 59]))) == [0x01, 0x00, 0x16] + [0x28, 0x49, 0x29, 0x4c, 0x6a, 0x61, 0x76, 0x61, 0x2f, 0x6c, 0x61, 0x6e, 0x67, 0x2f, 0x49, 0x6e, 0x74, 0x65, 0x67, 0x65, 0x72, 0x3b] by {}
  }

  /** Slots 38 to 39. */
  lemma FieldsSlots38To39()
    ensures EncodeSlot(FieldsPoolHigh[2]) == FieldsSlotsHigh[2]
    ensures EncodeSlot(FieldsPoolHigh[3]) == FieldsSlotsHigh[3]
  {
    assert FieldsPoolHigh[2] == Some(MethodrefInfo(10, 8, 39)) by {}
    assert FieldsSlotsHigh[2] == [0x0a, 0x00, 0x08, 0x00, 0x27] by {}
    assert EncodeSlot(Some(MethodrefInfo(10, 8, 39))) == [0x0a, 0x00, 0x08, 0x00, 0x27] by {}
    assert FieldsPoolHigh[3] == Some(NameAndTypeInfo(12, 5, 40)) by {}
    assert FieldsSlotsHigh[3] == [0x0c, 0x00, 0x05, 0x00, 0x28] by {}
    assert EncodeSlot(Some(NameAndTypeInfo(12, 5, 40))) == [0x0c, 0x00, 0x05, 0x00, 0x28] by {}
  }

  /** Slot 40. */
  lemma FieldsSlot40()
    ensures EncodeSlot(FieldsPoolHigh[4]) == FieldsSlotsHigh[4]
  {
    assert FieldsPoolHigh[4] == Some(Utf8Info(1, 43, [40, 73, 76, 106, 97, 118, 97, 47, 108, 97, 110, 103, 47, 83, 116, 114, 105, 110, 103, 59, 68, 90, 76, 106, 97, 118, 97, 47, 108, 97, 110, 103, 47, 73, 110, 116, 101, 103, 101, 114, 59, 41, 86])) by {}
    assert FieldsSlotsHigh[4] == [0x01, 0x00, 0x2b] + [0x28, 0x49, 0x4c, 0x6a, 0x61, 0x76, 0x61, 0x2f, 0x6c, 0x61, 0x6e, 0x67, 0x2f, 0x53, 0x74, 0x72, 0x69, 0x6e, 0x67, 0x3b, 0x44, 0x5a, 0x4c, 0x6a, 0x61, 0x76, 0x61, 0x2f, 0x6c, 0x61, 0x6e, 0x67, 0x2f, 0x49, 0x6e, 0x74, 0x65, 0x67, 0x65, 0x72, 0x3b, 0x29, 0x56] by {}
    assert EncodeSlot(Some(Utf8Info(1, 43, [40, 73, 76, 106, 97, 118, 97, 47, 108, 97, 110, 103, 47, 83, 116, 114, 105, 110, 103, 59, 68, 90, 76, 106, 97, 118, 97, 47, 108, 97, 110, 103, 47, 73, 110, 116, 101, 103, 101, 114, 59, 41, 86]))) == [0x01, 0x00, 0x2b] + [0x28, 0x49, 0x4c, 0x6a, 0x61, 0x76, 0x61, 0x2f, 0x6c, 0x61, 0x6e, 0x67, 0x2f, 0x53, 0x74, 0x72, 0x69, 0x6e, 0x67, 0x3b, 0x44, 0x5a, 0x4c, 0x6a, 0x61, 0x76, 0x61, 0x2f, 0x6c, 0x61, 0x6e, 0x67, 0x2f, 0x49, 0x6e, 0x74, 0x65, 0x67, 0x65, 0x72, 0x3b, 0x29, 0x56] by {}
  }

  /** Slots 41 to 42. */
  lemma FieldsSlots41To42()
    ensures EncodeSlot(FieldsPoolHigh[5]) == FieldsSlotsHigh[5]
    ensures EncodeSlot(FieldsPoolHigh[6]) == FieldsSlotsHigh[6]
  {
    assert FieldsPoolHigh[5] == Some(FieldrefInfo(9, 42, 43)) by {}
    assert FieldsSlotsHigh[5] == [0x09, 0x00, 0x2a, 0x00, 0x2b] by {}
    assert EncodeSlot(Some(FieldrefInfo(9, 42, 43))) == [0x09, 0x00, 0x2a, 0x00, 0x2b] by {}
    assert FieldsPoolHigh[6] == Some(ClassInfo(7, 44)) by {}
    assert FieldsSlotsHigh[6] == [0x07, 0x00, 0x2c] by {}
    assert EncodeSlot(Some(ClassInfo(7, 44))) == [0x07, 0x00, 0x2c] by {}
  }

  /** Slot 43. */
  lemma FieldsSlot43()
    ensures EncodeSlot(FieldsPoolHigh[7]) == FieldsSlotsHigh[7]
  {
    assert FieldsPoolHigh[7] == Some(NameAndTypeInfo(12, 45, 46)) by {}
    assert FieldsSlotsHigh[7] == [0x0c, 0x00, 0x2d, 0x00, 0x2e] by {}
    assert EncodeSlot(Some(NameAndTypeInfo(12, 45, 46))) == [0x0c, 0x00, 0x2d, 0x00, 0x2e] by {}
  }

  /** Slot 44. */
  lemma FieldsSlot44()
    ensures EncodeSlot(FieldsPoolHigh[8]) == FieldsSlotsHigh[8]
  {
    assert FieldsPoolHigh[8] == Some(Utf8Info(1, 16, [106, 97, 118, 97, 47, 108, 97, 110, 103, 47, 83, 121, 115, 116, 101, 109])) by {}
    assert FieldsSlotsHigh[8] == [0x01, 0x00, 0x10] + [0x6a, 0x61, 0x76, 0x61, 0x2f, 0x6c, 0x61, 0x6e, 0x67, 0x2f, 0x53, 0x79, 0x73, 0x74, 0x65, 0x6d] by {}
    assert EncodeSlot(Some(Utf8Info(1, 16, [106, 97, 118, 97, 47, 108, 97, 110, 103, 47, 83, 121, 115, 116, 101, 109]))) == [0x01, 0x00, 0x10] + [0x6a, 0x61, 0x76, 0x61, 0x2f, 0x6c, 0x61, 0x6e, 0x67, 0x2f, 0x53, 0x79, 0x73, 0x74, 0x65, 0x6d] by {}
  }

  /** Slot 45. */
  lemma FieldsSlot45()
    ensures EncodeSlot(FieldsPoolHigh[9]) == FieldsSlotsHigh[9]
  {
    assert FieldsPoolHigh[9] == Some(Utf8Info(1, 3, [111, 117, 116])) by {}
    assert FieldsSlotsHigh[9] == [0x01, 0x00, 0x03] + [0x6f, 0x75, 0x74] by {}
    assert EncodeSlot(Some(Utf8Info(1, 3, [111, 117, 116]))) == [0x01, 0x00, 0x03] + [0x6f, 0x75, 0x74] by {}
  }

  /** Slot 46. */
  lemma FieldsSlot46()
    ensures EncodeSlot(FieldsPoolHigh[10]) == FieldsSlotsHigh[10]
  {
    assert FieldsPoolHigh[10] == Some(Utf8Info(1, 21, [76, 106, 97, 118, 97, 47, 105, 111, 47, 80, 114, 105, 110, 116, 83, 116, 114, 101, 97, 109, 59])) by {}
    assert FieldsSlotsHigh[10] == [0x01, 0x00, 0x15] + [0x4c, 0x6a, 0x61, 0x76, 0x61, 0x2f, 0x69, 0x6f, 0x2f, 0x50, 0x72, 0x69, 0x6e, 0x74, 0x53, 0x74, 0x72, 0x65, 0x61, 0x6d, 0x3b] by {}
    assert EncodeSlot(Some(Utf8Info(1, 21, [76, 106, 97, 118, 97, 47, 105, 111, 47, 80, 114, 105, 110, 116, 83, 116, 114, 101, 97, 109, 59]))) == [0x01, 0x00, 0x15] + [0x4c, 0x6a, 0x61, 0x76, 0x61, 0x2f, 0x69, 0x6f, 0x2f, 0x50, 0x72, 0x69, 0x6e, 0x74, 0x53, 0x74, 0x72, 0x65, 0x61, 0x6d, 0x3b] by {}
  }

  /** Slot 47. */
  lemma FieldsSlot47()
    ensures EncodeSlot(FieldsPoolHigh[11]) == FieldsSlotsHigh[11]
  {
    assert FieldsPoolHigh[11] == Some(StringInfo(8, 48)) by {}
    assert FieldsSlotsHigh[11] == [0x08, 0x00, 0x30] by {}
    assert EncodeSlot(Some(StringInfo(8, 48))) == [0x08, 0x00, 0x30] by {}
  }

  /** Slot 48. */
  lemma FieldsSlot48()
    ensures EncodeSlot(FieldsPoolHigh[12]) == FieldsSlotsHigh[12]
  {
    assert FieldsPoolHigh[12] == Some(Utf8Info(1, 19, [37, 100, 44, 32, 37, 115, 44, 32, 37, 102, 44, 32, 37, 98, 44, 32, 37, 100, 10])) by {}
    assert FieldsSlotsHigh[12] == [0x01, 0x00, 0x13] + [0x25, 0x64, 0x2c, 0x20, 0x25, 0x73, 0x2c, 0x20, 0x25, 0x66, 0x2c, 0x20, 0x25, 0x62, 0x2c, 0x20, 0x25, 0x64, 0x0a] by {}
    assert EncodeSlot(Some(Utf8Info(1, 19, [37, 100, 44, 32, 37, 115, 44, 32, 37, 102, 44, 32, 37, 98, 44, 32, 37, 100, 10]))) == [0x01, 0x00, 0x13] + [0x25, 0x64, 0x2c, 0x20, 0x25, 0x73, 0x2c, 0x20, 0x25, 0x66, 0x2c, 0x20, 0x25, 0x62, 0x2c, 0x20, 0x25, 0x64, 0x0a] by {}
  }

  /** Slots 49 to 50. */
  lemma FieldsSlots49To50()
    ensures EncodeSlot(FieldsPoolHigh[13]) == FieldsSlotsHigh[13]
    ensures EncodeSlot(FieldsPoolHigh[14]) == FieldsSlotsHigh[14]
  {
    assert FieldsPoolHigh[13] == Some(MethodrefInfo(10, 50, 51)) by {}
    assert FieldsSlotsHigh[13] == [0x0a, 0x00, 0x32, 0x00, 0x33] by {}
    assert EncodeSlot(Some(MethodrefInfo(10, 50, 51))) == [0x0a, 0x00, 0x32, 0x00, 0x33] by {}
    assert FieldsPoolHigh[14] == Some(ClassInfo(7, 52)) by {}
    assert FieldsSlotsHigh[14] == [0x07, 0x00, 0x34] by {}
    assert EncodeSlot(Some(ClassInfo(7, 52))) == [0x07, 0x00, 0x34] by {}
  }

  /** Slot 51. */
  lemma FieldsSlot51()
    ensures EncodeSlot(FieldsPoolHigh[15]) == FieldsSlotsHigh[15]
  {
    assert FieldsPoolHigh[15] == Some(NameAndTypeInfo(12, 36, 53)) by {}
    assert FieldsSlotsHigh[15] == [0x0c, 0x00, 0x24, 0x00, 0x35] by {}
    assert EncodeSlot(Some(NameAndTypeInfo(12, 36, 53))) == [0x0c, 0x00, 0x24, 0x00, 0x35] by {}
  }

  /** Slot 52. */
  lemma FieldsSlot52()
    ensures EncodeSlot(FieldsPoolHigh[16]) == FieldsSlotsHigh[16]
  {
    assert FieldsPoolHigh[16] == Some(Utf8Info(1, 16, [106, 97, 118, 97, 47, 108, 97, 110, 103, 47, 68, 111, 117, 98, 108, 101])) by {}
    assert FieldsSlotsHigh[16] == [0x01, 0x00, 0x10] + [0x6a, 0x61, 0x76, 0x61, 0x2f, 0x6c, 0x61, 0x6e, 0x67, 0x2f, 0x44, 0x6f, 0x75, 0x62, 0x6c, 0x65] by {}
    assert EncodeSlot(Some(Utf8Info(1, 16, [106, 97, 118, 97, 47, 108, 97, 110, 103, 47, 68, 111, 117, 98, 108, 101]))) == [0x01, 0x00, 0x10] + [0x6a, 0x61, 0x76, 0x61, 0x2f, 0x6c, 0x61, 0x6e, 0x67, 0x2f, 0x44, 0x6f, 0x75, 0x62, 0x6c, 0x65] by {}
  }

  /** Slot 53. */
  lemma FieldsSlot53()
    ensures EncodeSlot(FieldsPoolHigh[17]) == FieldsSlotsHigh[17]
  {
    assert FieldsPoolHigh[17] == Some(Utf8Info(1, 21, [40, 68, 41, 76, 106, 97, 118, 97, 47, 108, 97, 110, 103, 47, 68, 111, 117, 98, 108, 101, 59])) by {}
    assert FieldsSlotsHigh[17] == [0x01, 0x00, 0x15] + [0x28, 0x44, 0x29, 0x4c, 0x6a, 0x61, 0x76, 0x61, 0x2f, 0x6c, 0x61, 0x6e, 0x67, 0x2f, 0x44, 0x6f, 0x75, 0x62, 0x6c, 0x65, 0x3b] by {}
    assert EncodeSlot(Some(Utf8Info(1, 21, [40, 68, 41, 76, 106, 97, 118, 97, 47, 108, 97, 110, 103, 47, 68, 111, 117, 98, 108, 101, 59]))) == [0x01, 0x00, 0x15] + [0x28, 0x44, 0x29, 0x4c, 0x6a, 0x61, 0x76, 0x61, 0x2f, 0x6c, 0x61, 0x6e, 0x67, 0x2f, 0x44, 0x6f, 0x75, 0x62, 0x6c, 0x65, 0x3b] by {}
  }

  /** Slots 54 to 55. */
  lemma FieldsSlots54To55()
    ensures EncodeSlot(FieldsPoolHigh[18]) == FieldsSlotsHigh[18]
    ensures EncodeSlot(FieldsPoolHigh[19]) == FieldsSlotsHigh[19]
  {
    assert FieldsPoolHigh[18] == Some(MethodrefInfo(10, 55, 56)) by {}
    assert FieldsSlotsHigh[18] == [0x0a, 0x00, 0x37, 0x00, 0x38] by {}
    assert EncodeSlot(Some(MethodrefInfo(10, 55, 56))) == [0x0a, 0x00, 0x37, 0x00, 0x38] by {}
    assert FieldsPoolHigh[19] == Some(ClassInfo(7, 57)) by {}
    assert FieldsSlotsHigh[19] == [0x07, 0x00, 0x39] by {}
    assert EncodeSlot(Some(ClassInfo(7, 57))) == [0x07, 0x00, 0x39] by {}
  }

  /** Slot 56. */
  lemma FieldsSlot56()
    ensures EncodeSlot(FieldsPoolHigh[20]) == FieldsSlotsHigh[20]
  {
    assert FieldsPoolHigh[20] == Some(NameAndTypeInfo(12, 36, 58)) by {}
    assert FieldsSlotsHigh[20] == [0x0c, 0x00, 0x24, 0x00, 0x3a] by {}
    assert EncodeSlot(Some(NameAndTypeInfo(12, 36, 58))) == [0x0c, 0x00, 0x24, 0x00, 0x3a] by {}
  }

  /** Slot 57. */
  lemma FieldsSlot57()
    ensures EncodeSlot(FieldsPoolHigh[21]) == FieldsSlotsHigh[21]
  {
    assert FieldsPoolHigh[21] == Some(Utf8Info(1, 17, [106, 97, 118, 97, 47, 108, 97, 110, 103, 47, 66, 111, 111, 108, 101, 97, 110])) by {}
    assert FieldsSlotsHigh[21] == [0x01, 0x00, 0x11] + [0x6a, 0x61, 0x76, 0x61, 0x2f, 0x6c, 0x61, 0x6e, 0x67, 0x2f, 0x42, 0x6f, 0x6f, 0x6c, 0x65, 0x61, 0x6e] by {}
    assert EncodeSlot(Some(Utf8Info(1, 17, [106, 97, 118, 97, 47, 108, 97, 110, 103, 47, 66, 111, 111, 108, 101, 97, 110]))) == [0x01, 0x00, 0x11] + [0x6a, 0x61, 0x76, 0x61, 0x2f, 0x6c, 0x61, 0x6e, 0x67, 0x2f, 0x42, 0x6f, 0x6f, 0x6c, 0x65, 0x61, 0x6e] by {}
  }

  /** Slot 58. */
  lemma FieldsSlot58()
    ensures EncodeSlot(FieldsPoolHigh[22]) == FieldsSlotsHigh[22]
  {
    assert FieldsPoolHigh[22] == Some(Utf8Info(1, 22, [40, 90, 41, 76, 106, 97, 118, 97, 47, 108, 97, 110, 103, 47, 66, 111, 111, 108, 101, 97, 110, 59])) by {}
    assert FieldsSlotsHigh[22] == [0x01, 0x00, 0x16] + [0x28, 0x5a, 0x29, 0x4c, 0x6a, 0x61, 0x76, 0x61, 0x2f, 0x6c, 0x61, 0x6e, 0x67, 0x2f, 0x42, 0x6f, 0x6f, 0x6c, 0x65, 0x61, 0x6e, 0x3b] by {}
    assert EncodeSlot(Some(Utf8Info(1, 22, [40, 90, 41, 76, 106, 97, 118, 97, 47, 108, 97, 110, 103, 47, 66, 111, 111, 108, 101, 97, 110, 59]))) == [0x01, 0x00, 0x16] + [0x28, 0x5a, 0x29, 0x4c, 0x6a, 0x61, 0x76, 0x61, 0x2f, 0x6c, 0x61, 0x6e, 0x67, 0x2f, 0x42, 0x6f, 0x6f, 0x6c, 0x65, 0x61, 0x6e, 0x3b] by {}
  }

  /** Slots 59 to 60. */
  lemma FieldsSlots59To60()
    ensures EncodeSlot(FieldsPoolHigh[23]) == FieldsSlotsHigh[23]
    ensures EncodeSlot(FieldsPoolHigh[24]) == FieldsSlotsHigh[24]
  {
    assert FieldsPoolHigh[23] == Some(MethodrefInfo(10, 60, 61)) by {}
    assert FieldsSlotsHigh[23] == [0x0a, 0x00, 0x3c, 0x00, 0x3d] by {}
    assert EncodeSlot(Some(MethodrefInfo(10, 60, 61))) == [0x0a, 0x00, 0x3c, 0x00, 0x3d] by {}
    assert FieldsPoolHigh[24] == Some(ClassInfo(7, 62)) by {}
    assert FieldsSlotsHigh[24] == [0x07, 0x00, 0x3e] by {}
    assert EncodeSlot(Some(ClassInfo(7, 62))) == [0x07, 0x00, 0x3e] by {}
  }

  /** Slot 61. */
  lemma FieldsSlot61()
    ensures EncodeSlot(FieldsPoolHigh[25]) == FieldsSlotsHigh[25]
  {
    assert FieldsPoolHigh[25] == Some(NameAndTypeInfo(12, 63, 64)) by {}
    assert FieldsSlotsHigh[25] == [0x0c, 0x00, 0x3f, 0x00, 0x40] by {}
    assert EncodeSlot(Some(NameAndTypeInfo(12, 63, 64))) == [0x0c, 0x00, 0x3f, 0x00, 0x40] by {}
  }

  /** Slot 62. */
  lemma FieldsSlot62()
    ensures EncodeSlot(FieldsPoolHigh[26]) == FieldsSlotsHigh[26]
  {
    assert FieldsPoolHigh[26] == Some(Utf8Info(1, 19, [106, 97, 118, 97, 47, 105, 111, 47, 80, 114, 105, 110, 116, 83, 116, 114, 101, 97, 109])) by {}
    assert FieldsSlotsHigh[26] == [0x01, 0x00, 0x13] + [0x6a, 0x61, 0x76, 0x61, 0x2f, 0x69, 0x6f, 0x2f, 0x50, 0x72, 0x69, 0x6e, 0x74, 0x53, 0x74, 0x72, 0x65, 0x61, 0x6d] by {}
    assert EncodeSlot(Some(Utf8Info(1, 19, [106, 97, 118, 97, 47, 105, 111, 47, 80, 114, 105, 110, 116, 83, 116, 114, 101, 97, 109]))) == [0x01, 0x00, 0x13] + [0x6a, 0x61, 0x76, 0x61, 0x2f, 0x69, 0x6f, 0x2f, 0x50, 0x72, 0x69, 0x6e, 0x74, 0x53, 0x74, 0x72, 0x65, 0x61, 0x6d] by {}
  }

  /** Slot 63. */
  lemma FieldsSlot63()
    ensures EncodeSlot(FieldsPoolHigh[27]) == FieldsSlotsHigh[27]
  {
    assert FieldsPoolHigh[27] == Some(Utf8Info(1, 6, [112, 114, 105, 110, 116, 102])) by {}
    assert FieldsSlotsHigh[27] == [0x01, 0x00, 0x06] + [0x70, 0x72, 0x69, 0x6e, 0x74, 0x66] by {}
    assert EncodeSlot(Some(Utf8Info(1, 6, [112, 114, 105, 110, 116, 102]))) == [0x01, 0x00, 0x06] + [0x70, 0x72, 0x69, 0x6e, 0x74, 0x66] by {}
  }

  /** Slot 64. */
  lemma FieldsSlot64()
    ensures EncodeSlot(FieldsPoolHigh[28]) == FieldsSlotsHigh[28]
  {
    assert FieldsPoolHigh[28] == Some(Utf8Info(1, 60, [40, 76, 106, 97, 118, 97, 47, 108, 97, 110, 103, 47, 83, 116, 114, 105, 110, 103, 59, 91, 76, 106, 97, 118, 97, 47, 108, 97, 110, 103, 47, 79, 98, 106, 101, 99, 116, 59, 41, 76, 106, 97, 118, 97, 47, 105, 111, 47, 80, 114, 105, 110, 116, 83, 116, 114, 101, 97, 109, 59])) by {}
    assert FieldsSlotsHigh[28] == [0x01, 0x00, 0x3c] + [0x28, 0x4c, 0x6a, 0x61, 0x76, 0x61, 0x2f, 0x6c, 0x61, 0x6e, 0x67, 0x2f, 0x53, 0x74, 0x72, 0x69, 0x6e, 0x67, 0x3b, 0x5b, 0x4c, 0x6a, 0x61, 0x76, 0x61, 0x2f, 0x6c, 0x61, 0x6e, 0x67, 0x2f, 0x4f, 0x62, 0x6a, 0x65, 0x63, 0x74, 0x3b, 0x29, 0x4c, 0x6a, 0x61, 0x76, 0x61, 0x2f, 0x69, 0x6f, 0x2f, 0x50, 0x72, 0x69, 0x6e, 0x74, 0x53, 0x74, 0x72, 0x65, 0x61, 0x6d, 0x3b] by {}
    assert EncodeSlot(Some(Utf8Info(1, 60, [40, 76, 106, 97, 118, 97, 47, 108, 97, 110, 103, 47, 83, 116, 114, 105, 110, 103, 59, 91, 76, 106, 97, 118, 97, 47, 108, 97, 110, 103, 47, 79, 98, 106, 101, 99, 116, 59, 41, 76, 106, 97, 118, 97, 47, 105, 111, 47, 80, 114, 105, 110, 116, 83, 116, 114, 101, 97, 109, 59]))) == [0x01, 0x00, 0x3c] + [0x28, 0x4c, 0x6a, 0x61, 0x76, 0x61, 0x2f, 0x6c, 0x61, 0x6e, 0x67, 0x2f, 0x53, 0x74, 0x72, 0x69, 0x6e, 0x67, 0x3b, 0x5b, 0x4c, 0x6a, 0x61, 0x76, 0x61, 0x2f, 0x6c, 0x61, 0x6e, 0x67, 0x2f, 0x4f, 0x62, 0x6a, 0x65, 0x63, 0x74, 0x3b, 0x29, 0x4c, 0x6a, 0x61, 0x76, 0x61, 0x2f, 0x69, 0x6f, 0x2f, 0x50, 0x72, 0x69, 0x6e, 0x74, 0x53, 0x74, 0x72, 0x65, 0x61, 0x6d, 0x3b] by {}
  }

  /** Slot 65. */
  lemma FieldsSlot65()
    ensures EncodeSlot(FieldsPoolHigh[29]) == FieldsSlotsHigh[29]
  {
    assert FieldsPoolHigh[29] == Some(Utf8Info(1, 4, [67, 111, 100, 101])) by {}
    assert FieldsSlotsHigh[29] == [0x01, 0x00, 0x04] + [0x43, 0x6f, 0x64, 0x65] by {}
    assert EncodeSlot(Some(Utf8Info(1, 4, [67, 111, 100, 101]))) == [0x01, 0x00, 0x04] + [0x43, 0x6f, 0x64, 0x65] by {}
  }

  /** Slot 66. */
  lemma FieldsSlot66()
    ensures EncodeSlot(FieldsPoolHigh[30]) == FieldsSlotsHigh[30]
  {
    assert FieldsPoolHigh[30] == Some(Utf8Info(1, 15, [76, 105, 110, 101, 78, 117, 109, 98, 101, 114, 84, 97, 98, 108, 101])) by {}
    assert FieldsSlotsHigh[30] == [0x01, 0x00, 0x0f] + [0x4c, 0x69, 0x6e, 0x65, 0x4e, 0x75, 0x6d, 0x62, 0x65, 0x72, 0x54, 0x61, 0x62, 0x6c, 0x65] by {}
    assert EncodeSlot(Some(Utf8Info(1, 15, [76, 105, 110, 101, 78, 117, 109, 98, 101, 114, 84, 97, 98, 108, 101]))) == [0x01, 0x00, 0x0f] + [0x4c, 0x69, 0x6e, 0x65, 0x4e, 0x75, 0x6d, 0x62, 0x65, 0x72, 0x54, 0x61, 0x62, 0x6c, 0x65] by {}
  }

  /** Slot 67. */
  lemma FieldsSlot67()
    ensures EncodeSlot(FieldsPoolHigh[31]) == FieldsSlotsHigh[31]
  {
    assert FieldsPoolHigh[31] == Some(Utf8Info(1, 4, [109, 97, 105, 110])) by {}
    assert FieldsSlotsHigh[31] == [0x01, 0x00, 0x04] + [0x6d, 0x61, 0x69, 0x6e] by {}
    assert EncodeSlot(Some(Utf8Info(1, 4, [109, 97, 105, 110]))) == [0x01, 0x00, 0x04] + [0x6d, 0x61, 0x69, 0x6e] by {}
  }

  /** Slot 68. */
  lemma FieldsSlot68()
    ensures EncodeSlot(FieldsPoolHigh[32]) == FieldsSlotsHigh[32]
  {
    assert FieldsPoolHigh[32] == Some(Utf8Info(1, 22, [40, 91, 76, 106, 97, 118, 97, 47, 108, 97, 110, 103, 47, 83, 116, 114, 105, 110, 103, 59, 41, 86])) by {}
    assert FieldsSlotsHigh[32] == [0x01, 0x00, 0x16] + [0x28, 0x5b, 0x4c, 0x6a, 0x61, 0x76, 0x61, 0x2f, 0x6c, 0x61, 0x6e, 0x67, 0x2f, 0x53, 0x74, 0x72, 0x69, 0x6e, 0x67, 0x3b, 0x29, 0x56] by {}
    assert EncodeSlot(Some(Utf8Info(1, 22, [40, 91, 76, 106, 97, 118, 97, 47, 108, 97, 110, 103, 47, 83, 116, 114, 105, 110, 103, 59, 41, 86]))) == [0x01, 0x00, 0x16] + [0x28, 0x5b, 0x4c, 0x6a, 0x61, 0x76, 0x61, 0x2f, 0x6c, 0x61, 0x6e, 0x67, 0x2f, 0x53, 0x74, 0x72, 0x69, 0x6e, 0x67, 0x3b, 0x29, 0x56] by {}
  }

  /** Slot 69. */
  lemma FieldsSlot69()
    ensures EncodeSlot(FieldsPoolHigh[33]) == FieldsSlotsHigh[33]
  {
    assert FieldsPoolHigh[33] == Some(Utf8Info(1, 10, [83, 111, 117, 114, 99, 101, 70, 105, 108, 101])) by {}
    assert FieldsSlotsHigh[33] == [0x01, 0x00, 0x0a] + [0x53, 0x6f, 0x75, 0x72, 0x63, 0x65, 0x46, 0x69, 0x6c, 0x65] by {}
    assert EncodeSlot(Some(Utf8Info(1, 10, [83, 111, 117, 114, 99, 101, 70, 105, 108, 101]))) == [0x01, 0x00, 0x0a] + [0x53, 0x6f, 0x75, 0x72, 0x63, 0x65, 0x46, 0x69, 0x6c, 0x65] by {}
  }

  /** Slot 70. */
  lemma FieldsSlot70()
    ensures EncodeSlot(FieldsPoolHigh[34]) == FieldsSlotsHigh[34]
  {
    assert FieldsPoolHigh[34] == Some(Utf8Info(1, 11, [70, 105, 101, 108, 100, 115, 46, 106, 97, 118, 97])) by {}
    assert FieldsSlotsHigh[34] == [0x01, 0x00, 0x0b] + [0x46, 0x69, 0x65, 0x6c, 0x64, 0x73, 0x2e, 0x6a, 0x61, 0x76, 0x61] by {}
    assert EncodeSlot(Some(Utf8Info(1, 11, [70, 105, 101, 108, 100, 115, 46, 106, 97, 118, 97]))) == [0x01, 0x00, 0x0b] + [0x46, 0x69, 0x65, 0x6c, 0x64, 0x73, 0x2e, 0x6a, 0x61, 0x76, 0x61] by {}
  }

  /** Each of slots 36 to 70 encodes to the test's bytes for it. */
  lemma FieldsHighSlotsEncoded()
    ensures forall k :: 0 <= k < |FieldsPoolHigh| ==> EncodeSlot(FieldsPoolHigh[k]) == FieldsSlotsHigh[k]
  {
    forall k | 0 <= k < |FieldsPoolHigh|
      ensures EncodeSlot(FieldsPoolHigh[k]) == FieldsSlotsHigh[k]
    {
      if k == 0 {
        FieldsSlot36();
      } else if k == 1 {
        FieldsSlot37();
      } else if k == 2 {
        FieldsSlots38To39();
      } else if k == 3 {
        FieldsSlots38To39();
      } else if k == 4 {
        FieldsSlot40();
      } else if k == 5 {
        FieldsSlots41To42();
      } else if k == 6 {
        FieldsSlots41To42();
      } else if k == 7 {
        FieldsSlot43();
      } else if k == 8 {
        FieldsSlot44();
      } else if k == 9 {
        FieldsSlot45();
      } else if k == 10 {
        FieldsSlot46();
      } else if k == 11 {
        FieldsSlot47();
      } else if k == 12 {
        FieldsSlot48();
      } else if k == 13 {
        FieldsSlots49To50();
      } else if k == 14 {
        FieldsSlots49To50();
      } else if k == 15 {
        FieldsSlot51();
      } else if k == 16 {
        FieldsSlot52();
      } else if k == 17 {
        FieldsSlot53();
      } else if k == 18 {
        FieldsSlots54To55();
      } else if k == 19 {
        FieldsSlots54To55();
      } else if k == 20 {
        FieldsSlot56();
      } else if k == 21 {
        FieldsSlot57();
      } else if k == 22 {
        FieldsSlot58();
      } else if k == 23 {
        FieldsSlots59To60();
      } else if k == 24 {
        FieldsSlots59To60();
      } else if k == 25 {
        FieldsSlot61();
      } else if k == 26 {
        FieldsSlot62();
      } else if k == 27 {
        FieldsSlot63();
      } else if k == 28 {
        FieldsSlot64();
      } else if k == 29 {
        FieldsSlot65();
      } else if k == 30 {
        FieldsSlot66();
      } else if k == 31 {
        FieldsSlot67();
      } else if k == 32 {
        FieldsSlot68();
      } else if k == 33 {
        FieldsSlot69();
      } else {
        FieldsSlot70();
      }
    }
  }

  /** The pool's slots are written in order, empty slots as nothing. */
  lemma FieldsPoolEncoding()
    ensures EncodePool(Fields.constantPool) == (Join(FieldsSlotsLow) + Join(FieldsSlotsHigh))
  {
    FieldsLowSlotsEncoded();
    PoolAsRuns(FieldsPoolLow, FieldsSlotsLow);
    FieldsHighSlotsEncoded();
    PoolAsRuns(FieldsPoolHigh, FieldsSlotsHigh);
    EncodePoolConcat(FieldsPoolLow, FieldsPoolHigh);
  }

  /** `<init>` is written as the test expects. */
  lemma FieldsInitEncoding()
    ensures AttributesEncodable(FieldsInit.attributes)
    ensures EncodeMember(FieldsInit) == FieldsInitBytes
  {
    var m := FieldsInit;
    var lnt := m.attributes[0].codeAttributes[0];
    assert m.attributes[0].codeAttributes == [lnt];
    OneLineNumberTable(lnt);
    CodeMethodLayout(m);
    assert EncodeU16(0) == [0x00, 0x00];
    assert EncodeU16(1) == [0x00, 0x01];
    assert EncodeU16(3) == [0x00, 0x03];
    assert EncodeU16(4) == [0x00, 0x04];
    assert EncodeU16(5) == [0x00, 0x05];
    assert EncodeU16(7) == [0x00, 0x07];
    assert EncodeU16(8) == [0x00, 0x08];
    assert EncodeU16(9) == [0x00, 0x09];
    assert EncodeU16(10) == [0x00, 0x0a];
    assert EncodeU16(11) == [0x00, 0x0b];
    assert EncodeU16(12) == [0x00, 0x0c];
    assert EncodeU16(13) == [0x00, 0x0d];
    assert EncodeU16(14) == [0x00, 0x0e];
    assert EncodeU16(19) == [0x00, 0x13];
    assert EncodeU16(25) == [0x00, 0x19];
    assert EncodeU16(31) == [0x00, 0x1f];
    assert EncodeU16(40) == [0x00, 0x28];
    assert EncodeU16(65) == [0x00, 0x41];
    assert EncodeU16(66) == [0x00, 0x42];
    assert EncodeU32(30) == [0x00, 0x00, 0x00, 0x1e];
    assert EncodeU32(32) == [0x00, 0x00, 0x00, 0x20];
    assert EncodeU32(80) == [0x00, 0x00, 0x00, 0x50];
    LineNumbersAsRuns(lnt.lineNumberTable, FieldsInitLines);
  }

  /** `main` is written as the test expects. */
  lemma FieldsMainEncoding()
    ensures AttributesEncodable(FieldsMain.attributes)
    ensures EncodeMember(FieldsMain) == FieldsMainBytes
  {
    var m := FieldsMain;
    var lnt := m.attributes[0].codeAttributes[0];
    assert m.attributes[0].codeAttributes == [lnt];
    OneLineNumberTable(lnt);
    CodeMethodLayout(m);
    assert EncodeU16(0) == [0x00, 0x00];
    assert EncodeU16(1) == [0x00, 0x01];
    assert EncodeU16(2) == [0x00, 0x02];
    assert EncodeU16(5) == [0x00, 0x05];
    assert EncodeU16(8) == [0x00, 0x08];
    assert EncodeU16(9) == [0x00, 0x09];
    assert EncodeU16(17) == [0x00, 0x11];
    assert EncodeU16(18) == [0x00, 0x12];
    assert EncodeU16(19) == [0x00, 0x13];
    assert EncodeU16(20) == [0x00, 0x14];
    assert EncodeU16(51) == [0x00, 0x33];
    assert EncodeU16(65) == [0x00, 0x41];
    assert EncodeU16(66) == [0x00, 0x42];
    assert EncodeU16(67) == [0x00, 0x43];
    assert EncodeU16(68) == [0x00, 0x44];
    assert EncodeU16(72) == [0x00, 0x48];
    assert EncodeU16(76) == [0x00, 0x4c];
    assert EncodeU32(22) == [0x00, 0x00, 0x00, 0x16];
    assert EncodeU32(77) == [0x00, 0x00, 0x00, 0x4d];
    assert EncodeU32(117) == [0x00, 0x00, 0x00, 0x75];
    LineNumbersAsRuns(lnt.lineNumberTable, FieldsMainLines);
  }

  /** The methods count, then the methods in order. */
  lemma FieldsMethodsEncoding()
    ensures MembersEncodable(Fields.methods)
    ensures EncodeU16(Fields.methodsCount) + EncodeMembers(Fields.methods) == [0x00, 0x02] + Join([FieldsInitBytes, FieldsMainBytes])
  {
    FieldsInitEncoding();
    FieldsMainEncoding();
    assert Fields.methods == [FieldsInit, FieldsMain];
    assert EncodeU16(2) == [0x00, 0x02];
    MembersAsRuns(Fields.methods, [FieldsInitBytes, FieldsMainBytes]);
  }

  /** The fields count, then the fields in order. */
  lemma FieldsFieldsEncoding()
    ensures MembersEncodable(Fields.fields)
    ensures EncodeU16(Fields.fieldsCount) + EncodeMembers(Fields.fields) == [0x00, 0x05] + Join(FieldsFieldBytes)
  {
    assert EncodeU16(0) == [0x00, 0x00];
    assert EncodeU16(1) == [0x00, 0x01];
    assert EncodeU16(2) == [0x00, 0x02];
    assert EncodeU16(4) == [0x00, 0x04];
    assert EncodeU16(5) == [0x00, 0x05];
    assert EncodeU16(11) == [0x00, 0x0b];
    assert EncodeU16(12) == [0x00, 0x0c];
    assert EncodeU16(15) == [0x00, 0x0f];
    assert EncodeU16(16) == [0x00, 0x10];
    assert EncodeU16(19) == [0x00, 0x13];
    assert EncodeU16(20) == [0x00, 0x14];
    assert EncodeU16(23) == [0x00, 0x17];
    assert EncodeU16(24) == [0x00, 0x18];
    assert EncodeU16(27) == [0x00, 0x1b];
    assert EncodeU16(28) == [0x00, 0x1c];
    assert EncodeAttributes([]) == [];
    MembersAsRuns(Fields.fields, FieldsFieldBytes);
  }

  /** The class's one attribute, SourceFile. */
  lemma FieldsAttributesEncoding()
    ensures AttributesEncodable(Fields.attributes)
    ensures EncodeU16(Fields.attributesCount) + EncodeAttributes(Fields.attributes) == [0x00, 0x01] + ([0x00, 0x45] + [0x00, 0x00, 0x00, 0x02] + [0x00, 0x46])
  {
    var attrs := Fields.attributes;
    assert attrs == [SourceFile(69, 2, 70)] by {}
    assert attrs[..0] == [];
    assert EncodeU16(1) == [0x00, 0x01];
    assert EncodeU16(69) == [0x00, 0x45];
    assert EncodeU16(70) == [0x00, 0x46];
    assert EncodeU32(2) == [0x00, 0x00, 0x00, 0x02];
  }

  /** magic, minor_version, major_version and the pool count, as stored. */
  lemma FieldsHeadEncoding()
    ensures EncodeHeader(Fields) + EncodeU16(Fields.constantPoolCount) == FieldsHead
  {
    assert EncodeU16(0) == [0x00, 0x00];
    assert EncodeU16(65) == [0x00, 0x41];
    assert EncodeU16(71) == [0x00, 0x47];
    assert EncodeU32(3405691582) == [0xca, 0xfe, 0xba, 0xbe];
  }

  /** access_flags and this_class as stored, super_class 1 written as 2. */
  lemma FieldsRefsEncoding()
    ensures Fields.superClass != 0xFFFF
    ensures EncodeClassRefs(Fields) == [0x00, 0x21] + [0x00, 0x08] + [0x00, 0x02]
  {
    assert EncodeU16(2) == [0x00, 0x02];
    assert EncodeU16(8) == [0x00, 0x08];
    assert EncodeU16(33) == [0x00, 0x21];
    assert Bump(1) == 2;
  }

  /** No interfaces: a zero count and nothing after it. */
  lemma FieldsInterfacesEncoding()
    ensures Fields.interfacesCount as int <= |Fields.interfaces|
    ensures EncodeInterfaces(Fields) == [0x00, 0x00]
  {
    assert Fields.interfaces[..0] == [];
  }

  /** What the encoder writes for the test's class is exactly the byte array the test compares it with. */
  lemma FieldsBytes()
    ensures Encodable(Fields)
    ensures EncodeClassFile(Fields) == FieldsExpected
  {
    FieldsHeadEncoding();
    FieldsPoolEncoding();
    FieldsRefsEncoding();
    FieldsInterfacesEncoding();
    FieldsFieldsEncoding();
    FieldsMethodsEncoding();
    FieldsAttributesEncoding();
    assert Encodable(Fields);
    ClassFileLayout(Fields, FieldsHead, (Join(FieldsSlotsLow) + Join(FieldsSlotsHigh)), [0x00, 0x21] + [0x00, 0x08] + [0x00, 0x02],
      [0x00, 0x00], ([0x00, 0x05] + Join(FieldsFieldBytes)),
      ([0x00, 0x02] + Join([FieldsInitBytes, FieldsMainBytes])),
      [0x00, 0x01] + ([0x00, 0x45] + [0x00, 0x00, 0x00, 0x02] + [0x00, 0x46]));
  }
}
