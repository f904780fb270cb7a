/**
 * The encoder (serializer.rs). The pure `Encode*` functions give the bytes
 * each part of a class file is written as; the `Serializer` class walks the
 * model in file order, pushing those bytes into a `Writer` step by step, and
 * each of its methods is proved to append exactly what the matching
 * function gives.
 *
 * Encoding quirks kept from the source: counts and lengths are written as
 * stored, never recomputed; a `None` pool slot emits nothing; a nonzero
 * `super_class`, exception-handler `catch_type` or Exceptions index k is
 * written as k+1, everything else unchanged.
 */
module Encoder {
  import opened Numeric
  import opened Results
  import opened Rw
  import opened Model

  // ---------------------------------------------------------------------
  // When the encoder runs to completion
  // ---------------------------------------------------------------------

  /**
   * The k+1 adjustment: 0 stays 0. On 0xFFFF the source's `+= 1` overflows
   * (a panic in a debug build), so callers must avoid it.
   */
  function Bump(k: u16): (r: u16)
    requires k != 0xFFFF
    ensures r != 1 && (r == 0 <==> k == 0)
  {
    if k == 0 then 0 else k + 1
  }

  /** No `catch_type` or Exceptions index that the k+1 adjustment would overflow. */
  predicate AttributeEncodable(a: AttributeInfo)
    decreases a
  {
    match a
    case Code(_, _, _, _, _, _, _, et, _, nested) =>
      && (forall i :: 0 <= i < |et| ==> et[i].catchType != 0xFFFF)
      && (forall i :: 0 <= i < |nested| ==> AttributeEncodable(nested[i]))
    case Exceptions(_, _, _, table) =>
      forall i :: 0 <= i < |table| ==> table[i] != 0xFFFF
    case _ => true
  }

  predicate AttributesEncodable(attrs: seq<AttributeInfo>) {
    forall i :: 0 <= i < |attrs| ==> AttributeEncodable(attrs[i])
  }

  predicate MembersEncodable(ms: seq<MemberInfo>) {
    forall i :: 0 <= i < |ms| ==> AttributesEncodable(ms[i].attributes)
  }

  /**
   * What `serialize` needs to finish without a panic: the asserted positive
   * pool count, a `super_class` that can be incremented, at least
   * `interfaces_count` interface indices to index, and encodable attributes.
   */
  predicate Encodable(cf: ClassFile) {
    && cf.constantPoolCount > 0
    && cf.superClass != 0xFFFF
    && cf.interfacesCount as int <= |cf.interfaces|
    && MembersEncodable(cf.fields)
    && MembersEncodable(cf.methods)
    && AttributesEncodable(cf.attributes)
  }

  // ---------------------------------------------------------------------
  // Constant pool
  // ---------------------------------------------------------------------

  /** Bytes of an entry, tag included, per section 4.4 of the JVM Specification. */
  function EntrySize(e: CpInfo): nat {
    match e
    case ClassInfo(_, _) => 3
    case FieldrefInfo(_, _, _) => 5
    case MethodrefInfo(_, _, _) => 5
    case InterfaceMethodrefInfo(_, _, _) => 5
    case StringInfo(_, _) => 3
    case IntegerInfo(_, _) => 5
    case FloatInfo(_, _) => 5
    case LongInfo(_, _, _) => 9
    case DoubleInfo(_, _, _) => 9
    case NameAndTypeInfo(_, _, _) => 5
    case Utf8Info(_, _, utf8) => 3 + |utf8|
    case MethodHandleInfo(_, _, _) => 4
    case MethodTypeInfo(_, _) => 3
    case DynamicInfo(_, _, _) => 5
    case InvokeDynamicInfo(_, _, _) => 5
    case ModuleInfo(_, _) => 3
    case PackageInfo(_, _) => 3
  }

  /** The stored tag byte, then the entry's fields in declaration order. */
  function EncodeCpInfo(e: CpInfo): (r: seq<u8>)
    ensures |r| == EntrySize(e) && r[0] == e.tag
  {
    [e.tag] +
    match e
    case ClassInfo(_, nameIndex) => EncodeU16(nameIndex)
    case FieldrefInfo(_, c, nt) => EncodeU16(c) + EncodeU16(nt)
    case MethodrefInfo(_, c, nt) => EncodeU16(c) + EncodeU16(nt)
    case InterfaceMethodrefInfo(_, c, nt) => EncodeU16(c) + EncodeU16(nt)
    case StringInfo(_, stringIndex) => EncodeU16(stringIndex)
    case IntegerInfo(_, bytes) => EncodeU32(bytes)
    case FloatInfo(_, bytes) => EncodeU32(bytes)
    case LongInfo(_, hi, lo) => EncodeU32(hi) + EncodeU32(lo)
    case DoubleInfo(_, hi, lo) => EncodeU32(hi) + EncodeU32(lo)
    case NameAndTypeInfo(_, n, d) => EncodeU16(n) + EncodeU16(d)
    case Utf8Info(_, length, utf8) => EncodeU16(length) + utf8
    case MethodHandleInfo(_, kind, index) => EncodeU8(kind) + EncodeU16(index)
    case MethodTypeInfo(_, d) => EncodeU16(d)
    case DynamicInfo(_, b, nt) => EncodeU16(b) + EncodeU16(nt)
    case InvokeDynamicInfo(_, b, nt) => EncodeU16(b) + EncodeU16(nt)
    case ModuleInfo(_, nameIndex) => EncodeU16(nameIndex)
    case PackageInfo(_, nameIndex) => EncodeU16(nameIndex)
  }

  /** An empty slot emits nothing. */
  function EncodeSlot(slot: Option<CpInfo>): seq<u8> {
    match slot
    case None => []
    case Some(e) => EncodeCpInfo(e)
  }

  /** The slots' encodings, in slot order. */
  function EncodePool(pool: seq<Option<CpInfo>>): seq<u8> {
    if pool == [] then [] else EncodePool(pool[..|pool| - 1]) + EncodeSlot(pool[|pool| - 1])
  }

  lemma EncodePoolPrefix(pool: seq<Option<CpInfo>>, i: nat)
    requires i < |pool|
    ensures EncodePool(pool[..i + 1]) == EncodePool(pool[..i]) + EncodeSlot(pool[i])
  {
    assert pool[..i + 1][..i] == pool[..i];
  }

  /** A Utf8 entry is its tag, the stored length field, and its bytes in order. */
  lemma Utf8Layout(tag: u8, length: u16, utf8: seq<u8>)
    ensures var r := EncodeCpInfo(Utf8Info(tag, length, utf8));
      |r| == 3 + |utf8| && r[0] == tag && r[1..3] == EncodeU16(length) && r[3..] == utf8
  {
  }

  /** Two runs of slots encode to their two encodings, one after the other. */
  lemma {:induction false} EncodePoolConcat(p: seq<Option<CpInfo>>, q: seq<Option<CpInfo>>)
    ensures EncodePool(p + q) == EncodePool(p) + EncodePool(q)
  {
    if q != [] {
      var init := q[..|q| - 1];
      assert (p + q)[..|p + q| - 1] == p + init;
      EncodePoolConcat(p, init);
    } else {
      assert p + q == p;
    }
  }

  /**
   * The Double constant 3.0 of the Fields test, its reserved `None` slot and
   * a Methodref: the slot adds nothing, so the Methodref's tag 0x0a follows
   * the Double's eight bytes directly.
   */
  lemma DoubleThenEmptySlot()
    ensures EncodePool([Some(DoubleInfo(6, 1074266112, 0)), None, Some(MethodrefInfo(10, 33, 34))])
         == [0x06, 0x40, 0x08, 0x00, 0x00, 0x00, 0x00, 0x00, 0x00, 0x0a, 0x00, 0x21, 0x00, 0x22]
  {
    var pool := [Some(DoubleInfo(6, 1074266112, 0)), None, Some(MethodrefInfo(10, 33, 34))];
    assert pool[..2][..1] == pool[..1];
    assert EncodeU32(1074266112) == [0x40, 0x08, 0x00, 0x00];
    assert EncodeU32(0) == [0x00, 0x00, 0x00, 0x00];
    assert EncodePool(pool[..1]) == [0x06, 0x40, 0x08, 0x00, 0x00, 0x00, 0x00, 0x00, 0x00];
    assert EncodePool(pool[..2]) == EncodePool(pool[..1]);
  }

  // ---------------------------------------------------------------------
  // Attributes
  // ---------------------------------------------------------------------

  /** start_pc, end_pc, handler_pc, then catch_type with the k+1 adjustment. */
  function EncodeHandler(h: ExceptionHandler): (r: seq<u8>)
    requires h.catchType != 0xFFFF
    ensures |r| == 8
  {
    EncodeU16(h.startPc) + EncodeU16(h.endPc) + EncodeU16(h.handlerPc) + EncodeU16(Bump(h.catchType))
  }

  function EncodeHandlers(et: seq<ExceptionHandler>): (r: seq<u8>)
    requires forall i :: 0 <= i < |et| ==> et[i].catchType != 0xFFFF
    ensures |r| == 8 * |et|
  {
    if et == [] then []
    else EncodeHandlers(et[..|et| - 1]) + EncodeHandler(et[|et| - 1])
  }

  lemma EncodeHandlersPrefix(et: seq<ExceptionHandler>, i: nat)
    requires i < |et| && forall k :: 0 <= k < |et| ==> et[k].catchType != 0xFFFF
    ensures EncodeHandlers(et[..i + 1]) == EncodeHandlers(et[..i]) + EncodeHandler(et[i])
  {
    assert et[..i + 1][..i] == et[..i];
  }

  /** Each Exceptions index with the k+1 adjustment. */
  function EncodeExceptionIndexTable(table: seq<u16>): (r: seq<u8>)
    requires forall i :: 0 <= i < |table| ==> table[i] != 0xFFFF
    ensures |r| == 2 * |table|
  {
    if table == [] then []
    else EncodeExceptionIndexTable(table[..|table| - 1]) + EncodeU16(Bump(table[|table| - 1]))
  }

  lemma EncodeExceptionIndexTablePrefix(table: seq<u16>, i: nat)
    requires i < |table| && forall k :: 0 <= k < |table| ==> table[k] != 0xFFFF
    ensures EncodeExceptionIndexTable(table[..i + 1])
         == EncodeExceptionIndexTable(table[..i]) + EncodeU16(Bump(table[i]))
  {
    assert table[..i + 1][..i] == table[..i];
  }

  function EncodeLineNumbers(table: seq<LineNumber>): (r: seq<u8>)
    ensures |r| == 4 * |table|
  {
    if table == [] then []
    else
      var ln := table[|table| - 1];
      EncodeLineNumbers(table[..|table| - 1]) + EncodeU16(ln.startPc) + EncodeU16(ln.lineNumber)
  }

  lemma EncodeLineNumbersPrefix(table: seq<LineNumber>, i: nat)
    requires i < |table|
    ensures EncodeLineNumbers(table[..i + 1])
         == EncodeLineNumbers(table[..i]) + (EncodeU16(table[i].startPc) + EncodeU16(table[i].lineNumber))
  {
    assert table[..i + 1][..i] == table[..i];
    AppendAssoc(EncodeLineNumbers(table[..i]), EncodeU16(table[i].startPc), EncodeU16(table[i].lineNumber));
  }

  function EncodeLocalVariable(v: LocalVariable): (r: seq<u8>)
    ensures |r| == 10
  {
    EncodeU16(v.startPc) + EncodeU16(v.length) + EncodeU16(v.nameIndex)
      + EncodeU16(v.descriptorIndex) + EncodeU16(v.index)
  }

  function EncodeLocalVariables(table: seq<LocalVariable>): (r: seq<u8>)
    ensures |r| == 10 * |table|
  {
    if table == [] then []
    else EncodeLocalVariables(table[..|table| - 1]) + EncodeLocalVariable(table[|table| - 1])
  }

  lemma EncodeLocalVariablesPrefix(table: seq<LocalVariable>, i: nat)
    requires i < |table|
    ensures EncodeLocalVariables(table[..i + 1]) == EncodeLocalVariables(table[..i]) + EncodeLocalVariable(table[i])
  {
    assert table[..i + 1][..i] == table[..i];
  }

  /**
   * An attribute: name index and stored length, then its payload. A Code
   * attribute's nested attributes follow its exception table; an
   * `Unwritten` attribute emits nothing at all.
   */
  function EncodeAttribute(a: AttributeInfo): seq<u8>
    requires AttributeEncodable(a)
    decreases a
  {
    match a
    case SourceFile(name, len, index) =>
      EncodeU16(name) + EncodeU32(len) + EncodeU16(index)
    case ConstantValue(name, len, index) =>
      EncodeU16(name) + EncodeU32(len) + EncodeU16(index)
    case Code(name, len, maxStack, maxLocals, codeLength, code, etLength, et, count, nested) =>
      EncodeU16(name) + EncodeU32(len) + EncodeU16(maxStack) + EncodeU16(maxLocals)
        + EncodeU32(codeLength) + code
        + EncodeU16(etLength) + EncodeHandlers(et)
        + EncodeU16(count) + EncodeAttributes(nested)
    case Exceptions(name, len, n, table) =>
      EncodeU16(name) + EncodeU32(len) + EncodeU16(n) + EncodeExceptionIndexTable(table)
    case LineNumberTable(name, len, n, table) =>
      EncodeU16(name) + EncodeU32(len) + EncodeU16(n) + EncodeLineNumbers(table)
    case LocalVariableTable(name, len, n, table) =>
      EncodeU16(name) + EncodeU32(len) + EncodeU16(n) + EncodeLocalVariables(table)
    case Unwritten(_, _) => []
  }

  function EncodeAttributes(attrs: seq<AttributeInfo>): seq<u8>
    requires AttributesEncodable(attrs)
    decreases attrs
  {
    if attrs == [] then []
    else EncodeAttributes(attrs[..|attrs| - 1]) + EncodeAttribute(attrs[|attrs| - 1])
  }

  lemma EncodeAttributesPrefix(attrs: seq<AttributeInfo>, i: nat)
    requires i < |attrs| && AttributesEncodable(attrs)
    ensures AttributesEncodable(attrs[..i]) && AttributeEncodable(attrs[i])
    ensures EncodeAttributes(attrs[..i + 1]) == EncodeAttributes(attrs[..i]) + EncodeAttribute(attrs[i])
  {
    assert attrs[..i + 1][..i] == attrs[..i];
  }

  /**
   * With consistent stored lengths, an attribute's encoding is its 6-byte
   * header plus `attribute_length` bytes, and a list's is the sum of those.
   */
  lemma {:induction false} AttributeSize(a: AttributeInfo)
    requires AttributeEncodable(a) && WellFormedAttribute(a)
    ensures |EncodeAttribute(a)| == 6 + a.attributeLength
    decreases a
  {
    match a
    case Code(_, _, _, _, _, _, _, _, _, nested) =>
      assert AttributesEncodable(nested);
      AttributesSize(nested);
    case _ =>
  }

  lemma {:induction false} AttributesSize(attrs: seq<AttributeInfo>)
    requires AttributesEncodable(attrs) && WellFormedAttributes(attrs)
    ensures |EncodeAttributes(attrs)| == NestedSize(attrs)
    decreases attrs
  {
    if attrs != [] {
      var init := attrs[..|attrs| - 1];
      assert AttributesEncodable(init) && WellFormedAttributes(init);
      AttributesSize(init);
      AttributeSize(attrs[|attrs| - 1]);
    }
  }

  // ---------------------------------------------------------------------
  // Fields, methods and the class file
  // ---------------------------------------------------------------------

  /** access_flags, name_index, descriptor_index, the stored count, the attributes. */
  function EncodeMember(m: MemberInfo): seq<u8>
    requires AttributesEncodable(m.attributes)
  {
    EncodeU16(m.accessFlags) + EncodeU16(m.nameIndex) + EncodeU16(m.descriptorIndex)
      + EncodeU16(m.attributesCount) + EncodeAttributes(m.attributes)
  }

  function EncodeMembers(ms: seq<MemberInfo>): seq<u8>
    requires MembersEncodable(ms)
  {
    if ms == [] then [] else EncodeMembers(ms[..|ms| - 1]) + EncodeMember(ms[|ms| - 1])
  }

  lemma EncodeMembersPrefix(ms: seq<MemberInfo>, i: nat)
    requires i < |ms| && MembersEncodable(ms)
    ensures MembersEncodable(ms[..i]) && AttributesEncodable(ms[i].attributes)
    ensures EncodeMembers(ms[..i + 1]) == EncodeMembers(ms[..i]) + EncodeMember(ms[i])
  {
    assert ms[..i + 1][..i] == ms[..i];
  }

  function EncodeU16s(xs: seq<u16>): (r: seq<u8>)
    ensures |r| == 2 * |xs|
  {
    if xs == [] then [] else EncodeU16s(xs[..|xs| - 1]) + EncodeU16(xs[|xs| - 1])
  }

  lemma EncodeU16sPrefix(xs: seq<u16>, i: nat)
    requires i < |xs|
    ensures EncodeU16s(xs[..i + 1]) == EncodeU16s(xs[..i]) + EncodeU16(xs[i])
  {
    assert xs[..i + 1][..i] == xs[..i];
  }

  /** magic, minor_version, major_version. */
  function EncodeHeader(cf: ClassFile): (r: seq<u8>)
    ensures |r| == 8
  {
    EncodeU32(cf.magic) + EncodeU16(cf.minorVersion) + EncodeU16(cf.majorVersion)
  }

  /** access_flags, this_class as stored, super_class with the k+1 adjustment. */
  function EncodeClassRefs(cf: ClassFile): (r: seq<u8>)
    requires cf.superClass != 0xFFFF
    ensures |r| == 6
  {
    EncodeU16(cf.accessFlags) + EncodeU16(cf.thisClass) + EncodeU16(Bump(cf.superClass))
  }

  /** The stored count, then that many interface indices as stored. */
  function EncodeInterfaces(cf: ClassFile): (r: seq<u8>)
    requires cf.interfacesCount as int <= |cf.interfaces|
    ensures |r| == 2 + 2 * cf.interfacesCount as int
  {
    EncodeU16(cf.interfacesCount) + EncodeU16s(cf.interfaces[..cf.interfacesCount])
  }

  /**
   * The whole class file in the order of section 4.1 of the JVM
   * Specification: each count is written as stored, followed by its items.
   */
  function EncodeClassFile(cf: ClassFile): seq<u8>
    requires Encodable(cf)
  {
    EncodeHeader(cf)
      + (EncodeU16(cf.constantPoolCount) + EncodePool(cf.constantPool))
      + EncodeClassRefs(cf)
      + EncodeInterfaces(cf)
      + (EncodeU16(cf.fieldsCount) + EncodeMembers(cf.fields))
      + (EncodeU16(cf.methodsCount) + EncodeMembers(cf.methods))
      + (EncodeU16(cf.attributesCount) + EncodeAttributes(cf.attributes))
  }

  // ---------------------------------------------------------------------
  // The imperative encoder
  // ---------------------------------------------------------------------

  /**
   * Writes a class file into its writer, part by part. Every write of the
   * writer succeeds (its width check cannot fail), so the `Result` each
   * method of the source returns is always `Ok` and is not modelled.
   */
  class Serializer {
    const writer: Writer

    constructor (writer: Writer)
      ensures this.writer == writer
    {
      this.writer := writer;
    }

    /** `serialize_attributes`: each attribute in turn. */
    method SerializeAttributes(attributes: seq<AttributeInfo>)
      requires AttributesEncodable(attributes)
      modifies writer
      ensures writer.out == old(writer.out) + EncodeAttributes(attributes)
      decreases attributes, 1
    {
      for i := 0 to |attributes|
        invariant writer.out == old(writer.out) + EncodeAttributes(attributes[..i])
      {
        EncodeAttributesPrefix(attributes, i);
        AppendAssoc(old(writer.out), EncodeAttributes(attributes[..i]), EncodeAttribute(attributes[i]));
        SerializeAttribute(attributes[i]);
      }
      assert attributes[..|attributes|] == attributes;
    }

    /**
     * The body of the loop of `serialize_attributes`: one attribute. The
     * ghost `done` is what this call has appended so far.
     */
    method SerializeAttribute(a: AttributeInfo)
      requires AttributeEncodable(a)
      modifies writer
      ensures writer.out == old(writer.out) + EncodeAttribute(a)
      decreases a, 0
    {
      ghost var start := writer.out;
      match a {
        case SourceFile(name, len, index) =>
          var _ := writer.WriteUnsignedShort(name);
          var _ := writer.WriteUnsignedInt(len);
          AppendAssoc(start, EncodeU16(name), EncodeU32(len));
          var _ := writer.WriteUnsignedShort(index);
          AppendAssoc(start, EncodeU16(name) + EncodeU32(len), EncodeU16(index));
        case ConstantValue(name, len, index) =>
          var _ := writer.WriteUnsignedShort(name);
          var _ := writer.WriteUnsignedInt(len);
          AppendAssoc(start, EncodeU16(name), EncodeU32(len));
          var _ := writer.WriteUnsignedShort(index);
          AppendAssoc(start, EncodeU16(name) + EncodeU32(len), EncodeU16(index));
        case Code(name, len, maxStack, maxLocals, codeLength, code, etLength, et, count, nested) =>
          var _ := writer.WriteUnsignedShort(name);
          ghost var done := EncodeU16(name);
          var _ := writer.WriteUnsignedInt(len);
          AppendAssoc(start, done, EncodeU32(len));
          done := done + EncodeU32(len);
          var _ := writer.WriteUnsignedShort(maxStack);
          AppendAssoc(start, done, EncodeU16(maxStack));
          done := done + EncodeU16(maxStack);
          var _ := writer.WriteUnsignedShort(maxLocals);
          AppendAssoc(start, done, EncodeU16(maxLocals));
          done := done + EncodeU16(maxLocals);
          var _ := writer.WriteUnsignedInt(codeLength);
          AppendAssoc(start, done, EncodeU32(codeLength));
          done := done + EncodeU32(codeLength);
          SerializeBytes(code);
          AppendAssoc(start, done, code);
          done := done + code;
          var _ := writer.WriteUnsignedShort(etLength);
          AppendAssoc(start, done, EncodeU16(etLength));
          done := done + EncodeU16(etLength);
          SerializeHandlers(et);
          AppendAssoc(start, done, EncodeHandlers(et));
          done := done + EncodeHandlers(et);
          var _ := writer.WriteUnsignedShort(count);
          AppendAssoc(start, done, EncodeU16(count));
          done := done + EncodeU16(count);
          SerializeAttributes(nested);
          AppendAssoc(start, done, EncodeAttributes(nested));
        case Exceptions(name, len, n, table) =>
          var _ := writer.WriteUnsignedShort(name);
          var _ := writer.WriteUnsignedInt(len);
          AppendAssoc(start, EncodeU16(name), EncodeU32(len));
          var _ := writer.WriteUnsignedShort(n);
          AppendAssoc(start, EncodeU16(name) + EncodeU32(len), EncodeU16(n));
          SerializeExceptionIndexTable(table);
          AppendAssoc(start, EncodeU16(name) + EncodeU32(len) + EncodeU16(n), EncodeExceptionIndexTable(table));
        case LineNumberTable(name, len, n, table) =>
          var _ := writer.WriteUnsignedShort(name);
          var _ := writer.WriteUnsignedInt(len);
          AppendAssoc(start, EncodeU16(name), EncodeU32(len));
          var _ := writer.WriteUnsignedShort(n);
          AppendAssoc(start, EncodeU16(name) + EncodeU32(len), EncodeU16(n));
          SerializeLineNumbers(table);
          AppendAssoc(start, EncodeU16(name) + EncodeU32(len) + EncodeU16(n), EncodeLineNumbers(table));
        case LocalVariableTable(name, len, n, table) =>
          var _ := writer.WriteUnsignedShort(name);
          var _ := writer.WriteUnsignedInt(len);
          AppendAssoc(start, EncodeU16(name), EncodeU32(len));
          var _ := writer.WriteUnsignedShort(n);
          AppendAssoc(start, EncodeU16(name) + EncodeU32(len), EncodeU16(n));
          SerializeLocalVariables(table);
          AppendAssoc(start, EncodeU16(name) + EncodeU32(len) + EncodeU16(n), EncodeLocalVariables(table));
        case Unwritten(_, _) =>
          assert writer.out == start + [];
      }
    }

    /** The code array, one `write_unsigned_byte` per byte. */
    method SerializeBytes(bytes: seq<u8>)
      modifies writer
      ensures writer.out == old(writer.out) + bytes
    {
      for i := 0 to |bytes|
        invariant writer.out == old(writer.out) + bytes[..i]
      {
        assert bytes[..i + 1] == bytes[..i] + [bytes[i]];
        AppendAssoc(old(writer.out), bytes[..i], [bytes[i]]);
        var _ := writer.WriteUnsignedByte(bytes[i]);
      }
      assert bytes[..|bytes|] == bytes;
    }

    /** The exception table; a nonzero `catch_type` is incremented first. */
    method SerializeHandlers(et: seq<ExceptionHandler>)
      requires forall i :: 0 <= i < |et| ==> et[i].catchType != 0xFFFF
      modifies writer
      ensures writer.out == old(writer.out) + EncodeHandlers(et)
    {
      for i := 0 to |et|
        invariant writer.out == old(writer.out) + EncodeHandlers(et[..i])
      {
        EncodeHandlersPrefix(et, i);
        var h := et[i];
        AppendAssoc(old(writer.out), EncodeHandlers(et[..i]), EncodeHandler(h));
        ghost var start := writer.out;
        var _ := writer.WriteUnsignedShort(h.startPc);
        var _ := writer.WriteUnsignedShort(h.endPc);
        AppendAssoc(start, EncodeU16(h.startPc), EncodeU16(h.endPc));
        var _ := writer.WriteUnsignedShort(h.handlerPc);
        AppendAssoc(start, EncodeU16(h.startPc) + EncodeU16(h.endPc), EncodeU16(h.handlerPc));
        var catchType := h.catchType;
        if catchType != 0 {
          catchType := catchType + 1;
        }
        var _ := writer.WriteUnsignedShort(catchType);
        AppendAssoc(start, EncodeU16(h.startPc) + EncodeU16(h.endPc) + EncodeU16(h.handlerPc), EncodeU16(catchType));
      }
      assert et[..|et|] == et;
    }

    /** The Exceptions index table; a nonzero index is incremented first. */
    method SerializeExceptionIndexTable(table: seq<u16>)
      requires forall i :: 0 <= i < |table| ==> table[i] != 0xFFFF
      modifies writer
      ensures writer.out == old(writer.out) + EncodeExceptionIndexTable(table)
    {
      for i := 0 to |table|
        invariant writer.out == old(writer.out) + EncodeExceptionIndexTable(table[..i])
      {
        EncodeExceptionIndexTablePrefix(table, i);
        var index := table[i];
        AppendAssoc(old(writer.out), EncodeExceptionIndexTable(table[..i]), EncodeU16(Bump(index)));
        var _ := writer.WriteUnsignedShort(if index == 0 then 0 else index + 1);
      }
      assert table[..|table|] == table;
    }

    method SerializeLineNumbers(table: seq<LineNumber>)
      modifies writer
      ensures writer.out == old(writer.out) + EncodeLineNumbers(table)
    {
      for i := 0 to |table|
        invariant writer.out == old(writer.out) + EncodeLineNumbers(table[..i])
      {
        EncodeLineNumbersPrefix(table, i);
        var ln := table[i];
        AppendAssoc(old(writer.out), EncodeLineNumbers(table[..i]), EncodeU16(ln.startPc) + EncodeU16(ln.lineNumber));
        ghost var start := writer.out;
        var _ := writer.WriteUnsignedShort(ln.startPc);
        var _ := writer.WriteUnsignedShort(ln.lineNumber);
        AppendAssoc(start, EncodeU16(ln.startPc), EncodeU16(ln.lineNumber));
      }
      assert table[..|table|] == table;
    }

    method SerializeLocalVariables(table: seq<LocalVariable>)
      modifies writer
      ensures writer.out == old(writer.out) + EncodeLocalVariables(table)
    {
      for i := 0 to |table|
        invariant writer.out == old(writer.out) + EncodeLocalVariables(table[..i])
      {
        EncodeLocalVariablesPrefix(table, i);
        var v := table[i];
        AppendAssoc(old(writer.out), EncodeLocalVariables(table[..i]), EncodeLocalVariable(v));
        ghost var start := writer.out;
        var _ := writer.WriteUnsignedShort(v.startPc);
        ghost var done := EncodeU16(v.startPc);
        var _ := writer.WriteUnsignedShort(v.length);
        AppendAssoc(start, done, EncodeU16(v.length));
        done := done + EncodeU16(v.length);
        var _ := writer.WriteUnsignedShort(v.nameIndex);
        AppendAssoc(start, done, EncodeU16(v.nameIndex));
        done := done + EncodeU16(v.nameIndex);
        var _ := writer.WriteUnsignedShort(v.descriptorIndex);
        AppendAssoc(start, done, EncodeU16(v.descriptorIndex));
        done := done + EncodeU16(v.descriptorIndex);
        var _ := writer.WriteUnsignedShort(v.index);
        AppendAssoc(start, done, EncodeU16(v.index));
      }
      assert table[..|table|] == table;
    }

    /** `serialize_fields` and `serialize_methods`: the same record layout. */
    method SerializeMembers(members: seq<MemberInfo>)
      requires MembersEncodable(members)
      modifies writer
      ensures writer.out == old(writer.out) + EncodeMembers(members)
    {
      for i := 0 to |members|
        invariant writer.out == old(writer.out) + EncodeMembers(members[..i])
      {
        EncodeMembersPrefix(members, i);
        var m := members[i];
        AppendAssoc(old(writer.out), EncodeMembers(members[..i]), EncodeMember(m));
        ghost var start := writer.out;
        var _ := writer.WriteUnsignedShort(m.accessFlags);
        ghost var done := EncodeU16(m.accessFlags);
        var _ := writer.WriteUnsignedShort(m.nameIndex);
        AppendAssoc(start, done, EncodeU16(m.nameIndex));
        done := done + EncodeU16(m.nameIndex);
        var _ := writer.WriteUnsignedShort(m.descriptorIndex);
        AppendAssoc(start, done, EncodeU16(m.descriptorIndex));
        done := done + EncodeU16(m.descriptorIndex);
        var _ := writer.WriteUnsignedShort(m.attributesCount);
        AppendAssoc(start, done, EncodeU16(m.attributesCount));
        done := done + EncodeU16(m.attributesCount);
        SerializeAttributes(m.attributes);
        AppendAssoc(start, done, EncodeAttributes(m.attributes));
      }
      assert members[..|members|] == members;
    }

    /** `serialize_constant_pool`: tag and fields of each occupied slot. */
    method SerializeConstantPool(pool: seq<Option<CpInfo>>)
      modifies writer
      ensures writer.out == old(writer.out) + EncodePool(pool)
    {
      for i := 0 to |pool|
        invariant writer.out == old(writer.out) + EncodePool(pool[..i])
      {
        EncodePoolPrefix(pool, i);
        AppendAssoc(old(writer.out), EncodePool(pool[..i]), EncodeSlot(pool[i]));
        match pool[i] {
          case Some(e) =>
            SerializeCpInfo(e);
          case None =>
            assert writer.out == writer.out + [];
        }
      }
      assert pool[..|pool|] == pool;
    }

    /** The body of the loop of `serialize_constant_pool`: one entry. */
    method SerializeCpInfo(e: CpInfo)
      modifies writer
      ensures writer.out == old(writer.out) + EncodeCpInfo(e)
    {
      ghost var start := writer.out;
      var _ := writer.WriteUnsignedByte(e.tag);
      ghost var tagged := writer.out;
      match e {
        case ClassInfo(_, nameIndex) =>
          var _ := writer.WriteUnsignedShort(nameIndex);
          AppendAssoc(start, [e.tag], EncodeU16(nameIndex));
        case FieldrefInfo(_, c, nt) =>
          var _ := writer.WriteUnsignedShort(c);
          var _ := writer.WriteUnsignedShort(nt);
          AppendAssoc(tagged, EncodeU16(c), EncodeU16(nt));
          AppendAssoc(start, [e.tag], EncodeU16(c) + EncodeU16(nt));
        case MethodrefInfo(_, c, nt) =>
          var _ := writer.WriteUnsignedShort(c);
          var _ := writer.WriteUnsignedShort(nt);
          AppendAssoc(tagged, EncodeU16(c), EncodeU16(nt));
          AppendAssoc(start, [e.tag], EncodeU16(c) + EncodeU16(nt));
        case InterfaceMethodrefInfo(_, c, nt) =>
          var _ := writer.WriteUnsignedShort(c);
          var _ := writer.WriteUnsignedShort(nt);
          AppendAssoc(tagged, EncodeU16(c), EncodeU16(nt));
          AppendAssoc(start, [e.tag], EncodeU16(c) + EncodeU16(nt));
        case StringInfo(_, stringIndex) =>
          var _ := writer.WriteUnsignedShort(stringIndex);
          AppendAssoc(start, [e.tag], EncodeU16(stringIndex));
        case IntegerInfo(_, bytes) =>
          var _ := writer.WriteUnsignedInt(bytes);
          AppendAssoc(start, [e.tag], EncodeU32(bytes));
        case FloatInfo(_, bytes) =>
          var _ := writer.WriteUnsignedInt(bytes);
          AppendAssoc(start, [e.tag], EncodeU32(bytes));
        case LongInfo(_, hi, lo) =>
          var _ := writer.WriteUnsignedInt(hi);
          var _ := writer.WriteUnsignedInt(lo);
          AppendAssoc(tagged, EncodeU32(hi), EncodeU32(lo));
          AppendAssoc(start, [e.tag], EncodeU32(hi) + EncodeU32(lo));
        case DoubleInfo(_, hi, lo) =>
          var _ := writer.WriteUnsignedInt(hi);
          var _ := writer.WriteUnsignedInt(lo);
          AppendAssoc(tagged, EncodeU32(hi), EncodeU32(lo));
          AppendAssoc(start, [e.tag], EncodeU32(hi) + EncodeU32(lo));
        case NameAndTypeInfo(_, n, d) =>
          var _ := writer.WriteUnsignedShort(n);
          var _ := writer.WriteUnsignedShort(d);
          AppendAssoc(tagged, EncodeU16(n), EncodeU16(d));
          AppendAssoc(start, [e.tag], EncodeU16(n) + EncodeU16(d));
        case Utf8Info(_, length, utf8) =>
          var _ := writer.WriteUnsignedShort(length);
          SerializeBytes(utf8);
          AppendAssoc(tagged, EncodeU16(length), utf8);
          AppendAssoc(start, [e.tag], EncodeU16(length) + utf8);
        case MethodHandleInfo(_, kind, index) =>
          var _ := writer.WriteUnsignedByte(kind);
          var _ := writer.WriteUnsignedShort(index);
          AppendAssoc(tagged, EncodeU8(kind), EncodeU16(index));
          AppendAssoc(start, [e.tag], EncodeU8(kind) + EncodeU16(index));
        case MethodTypeInfo(_, d) =>
          var _ := writer.WriteUnsignedShort(d);
          AppendAssoc(start, [e.tag], EncodeU16(d));
        case DynamicInfo(_, b, nt) =>
          var _ := writer.WriteUnsignedShort(b);
          var _ := writer.WriteUnsignedShort(nt);
          AppendAssoc(tagged, EncodeU16(b), EncodeU16(nt));
          AppendAssoc(start, [e.tag], EncodeU16(b) + EncodeU16(nt));
        case InvokeDynamicInfo(_, b, nt) =>
          var _ := writer.WriteUnsignedShort(b);
          var _ := writer.WriteUnsignedShort(nt);
          AppendAssoc(tagged, EncodeU16(b), EncodeU16(nt));
          AppendAssoc(start, [e.tag], EncodeU16(b) + EncodeU16(nt));
        case ModuleInfo(_, nameIndex) =>
          var _ := writer.WriteUnsignedShort(nameIndex);
          AppendAssoc(start, [e.tag], EncodeU16(nameIndex));
        case PackageInfo(_, nameIndex) =>
          var _ := writer.WriteUnsignedShort(nameIndex);
          AppendAssoc(start, [e.tag], EncodeU16(nameIndex));
      }
    }

    /** The head of `serialize`: magic, minor and major version. */
    method SerializeHeader(cf: ClassFile)
      modifies writer
      ensures writer.out == old(writer.out) + EncodeHeader(cf)
    {
      var _ := writer.WriteUnsignedInt(cf.magic);
      var _ := writer.WriteUnsignedShort(cf.minorVersion);
      AppendAssoc(old(writer.out), EncodeU32(cf.magic), EncodeU16(cf.minorVersion));
      var _ := writer.WriteUnsignedShort(cf.majorVersion);
      AppendAssoc(old(writer.out), EncodeU32(cf.magic) + EncodeU16(cf.minorVersion), EncodeU16(cf.majorVersion));
    }

    /** access_flags, this_class, then super_class incremented when nonzero. */
    method SerializeClassRefs(cf: ClassFile)
      requires cf.superClass != 0xFFFF
      modifies writer
      ensures writer.out == old(writer.out) + EncodeClassRefs(cf)
    {
      var _ := writer.WriteUnsignedShort(cf.accessFlags);
      var _ := writer.WriteUnsignedShort(cf.thisClass);
      AppendAssoc(old(writer.out), EncodeU16(cf.accessFlags), EncodeU16(cf.thisClass));
      var superClass := cf.superClass;
      if superClass > 0 {
        superClass := superClass + 1;
      }
      var _ := writer.WriteUnsignedShort(superClass);
      AppendAssoc(old(writer.out), EncodeU16(cf.accessFlags) + EncodeU16(cf.thisClass), EncodeU16(superClass));
    }

    /** interfaces_count, then the first interfaces_count indices. */
    method SerializeInterfaces(cf: ClassFile)
      requires cf.interfacesCount as int <= |cf.interfaces|
      modifies writer
      ensures writer.out == old(writer.out) + EncodeInterfaces(cf)
    {
      var _ := writer.WriteUnsignedShort(cf.interfacesCount);
      ghost var counted := writer.out;
      ghost var interfaces := cf.interfaces[..cf.interfacesCount];
      for i := 0 to cf.interfacesCount as int
        invariant writer.out == counted + EncodeU16s(interfaces[..i])
      {
        EncodeU16sPrefix(interfaces, i);
        AppendAssoc(counted, EncodeU16s(interfaces[..i]), EncodeU16(interfaces[i]));
        var _ := writer.WriteUnsignedShort(cf.interfaces[i]);
      }
      assert interfaces[..cf.interfacesCount] == interfaces;
      AppendAssoc(old(writer.out), EncodeU16(cf.interfacesCount), EncodeU16s(interfaces));
    }

    /**
     * `serialize`: the whole class file, in file order. The source asserts
     * a positive pool count; `Encodable` demands it. The ghost `done` is
     * what has been appended so far.
     */
    method Serialize(cf: ClassFile)
      requires Encodable(cf)
      modifies writer
      ensures writer.out == old(writer.out) + EncodeClassFile(cf)
    {
      ghost var start := writer.out;
      SerializeHeader(cf);
      ghost var done := EncodeHeader(cf);

      ghost var section := writer.out;
      var _ := writer.WriteUnsignedShort(cf.constantPoolCount);
      SerializeConstantPool(cf.constantPool);
      AppendAssoc(section, EncodeU16(cf.constantPoolCount), EncodePool(cf.constantPool));
      AppendAssoc(start, done, EncodeU16(cf.constantPoolCount) + EncodePool(cf.constantPool));
      done := done + (EncodeU16(cf.constantPoolCount) + EncodePool(cf.constantPool));

      SerializeClassRefs(cf);
      AppendAssoc(start, done, EncodeClassRefs(cf));
      done := done + EncodeClassRefs(cf);

      SerializeInterfaces(cf);
      AppendAssoc(start, done, EncodeInterfaces(cf));
      done := done + EncodeInterfaces(cf);

      section := writer.out;
      var _ := writer.WriteUnsignedShort(cf.fieldsCount);
      SerializeMembers(cf.fields);
      AppendAssoc(section, EncodeU16(cf.fieldsCount), EncodeMembers(cf.fields));
      AppendAssoc(start, done, EncodeU16(cf.fieldsCount) + EncodeMembers(cf.fields));
      done := done + (EncodeU16(cf.fieldsCount) + EncodeMembers(cf.fields));

      section := writer.out;
      var _ := writer.WriteUnsignedShort(cf.methodsCount);
      SerializeMembers(cf.methods);
      AppendAssoc(section, EncodeU16(cf.methodsCount), EncodeMembers(cf.methods));
      AppendAssoc(start, done, EncodeU16(cf.methodsCount) + EncodeMembers(cf.methods));
      done := done + (EncodeU16(cf.methodsCount) + EncodeMembers(cf.methods));

      section := writer.out;
      var _ := writer.WriteUnsignedShort(cf.attributesCount);
      SerializeAttributes(cf.attributes);
      AppendAssoc(section, EncodeU16(cf.attributesCount), EncodeAttributes(cf.attributes));
      AppendAssoc(start, done, EncodeU16(cf.attributesCount) + EncodeAttributes(cf.attributes));
    }
  }
}
