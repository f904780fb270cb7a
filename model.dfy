/**
 * The class-file object model (model.rs), following chapter 4 of the Java
 * Virtual Machine Specification: the ClassFile record, field and method
 * records, the recursive attribute type, and the constant-pool entries,
 * together with the tag and access-flag constants. The model only declares
 * data; what a consistent class file looks like is stated here by the
 * well-formedness predicates, which the source's tests respect.
 */
module Model {
  import opened Numeric
  import opened Results

  // ---------------------------------------------------------------------
  // Constant-pool tags (Table 4.4-B of the JVM Specification, section 4.4)
  // ---------------------------------------------------------------------

  const CONSTANT_UTF8: u8 := 1
  const CONSTANT_INTEGER: u8 := 3
  const CONSTANT_FLOAT: u8 := 4
  const CONSTANT_LONG: u8 := 5
  const CONSTANT_DOUBLE: u8 := 6
  const CONSTANT_CLASS: u8 := 7
  const CONSTANT_STRING: u8 := 8
  const CONSTANT_FIELDREF: u8 := 9
  const CONSTANT_METHODREF: u8 := 10
  const CONSTANT_INTERFACEMETHODREF: u8 := 11
  const CONSTANT_NAMEANDTYPE: u8 := 12

  // The six kinds the encoder writes but model.rs has no tag constant for.
  const CONSTANT_METHODHANDLE: u8 := 15
  const CONSTANT_METHODTYPE: u8 := 16
  const CONSTANT_DYNAMIC: u8 := 17
  const CONSTANT_INVOKEDYNAMIC: u8 := 18
  const CONSTANT_MODULE: u8 := 19
  const CONSTANT_PACKAGE: u8 := 20

  /** The tags of the eleven kinds that model.rs names, in declaration order. */
  const CoreTags: seq<u8> := [
    CONSTANT_CLASS, CONSTANT_FIELDREF, CONSTANT_METHODREF, CONSTANT_INTERFACEMETHODREF,
    CONSTANT_STRING, CONSTANT_INTEGER, CONSTANT_FLOAT, CONSTANT_LONG, CONSTANT_DOUBLE,
    CONSTANT_NAMEANDTYPE, CONSTANT_UTF8
  ]

  /** The tags of the six later kinds the encoder also handles. */
  const ExtendedTags: seq<u8> := [
    CONSTANT_METHODHANDLE, CONSTANT_METHODTYPE, CONSTANT_DYNAMIC,
    CONSTANT_INVOKEDYNAMIC, CONSTANT_MODULE, CONSTANT_PACKAGE
  ]

  // ---------------------------------------------------------------------
  // Access flags (Tables 4.1-B, 4.5-A and 4.6-A of the JVM Specification)
  // ---------------------------------------------------------------------

  const ACC_PUBLIC: u16 := 0x0001
  const ACC_PRIVATE: u16 := 0x0002
  const ACC_PROTECTED: u16 := 0x0004
  const ACC_STATIC: u16 := 0x0008
  const ACC_FINAL: u16 := 0x0010
  const ACC_SUPER: u16 := 0x0020
  const ACC_SYNCHRONIZED: u16 := 0x0020
  const ACC_VOLATILE: u16 := 0x0040
  const ACC_TRANSIENT: u16 := 0x0080
  const ACC_NATIVE: u16 := 0x0100
  const ACC_INTERFACE: u16 := 0x0200
  const ACC_ABSTRACT: u16 := 0x0400

  // ---------------------------------------------------------------------
  // Predefined attribute names (section 4.7 of the JVM Specification)
  // ---------------------------------------------------------------------

  const SOURCE_FILE: string := "SourceFile"
  const CONSTANT_VALUE: string := "ConstantValue"
  const CODE: string := "Code"
  const EXCEPTIONS: string := "Exceptions"
  const LINE_NUMBER_TABLE: string := "LineNumberTable"
  const LOCAL_VARIABLE_TABLE: string := "LocalVariableTable"

  // ---------------------------------------------------------------------
  // Entities
  // ---------------------------------------------------------------------

  /**
   * A constant-pool entry. Every kind carries the tag byte it is written
   * with; Float and Double keep their raw IEEE 754 words.
   */
  datatype CpInfo =
    | ClassInfo(tag: u8, nameIndex: u16)
    | FieldrefInfo(tag: u8, classIndex: u16, nameAndTypeIndex: u16)
    | MethodrefInfo(tag: u8, classIndex: u16, nameAndTypeIndex: u16)
    | InterfaceMethodrefInfo(tag: u8, classIndex: u16, nameAndTypeIndex: u16)
    | StringInfo(tag: u8, stringIndex: u16)
    | IntegerInfo(tag: u8, bytes: u32)
    | FloatInfo(tag: u8, bytes: u32)
    | LongInfo(tag: u8, highBytes: u32, lowBytes: u32)
    | DoubleInfo(tag: u8, highBytes: u32, lowBytes: u32)
    | NameAndTypeInfo(tag: u8, nameIndex: u16, descriptorIndex: u16)
    | Utf8Info(tag: u8, length: u16, utf8: seq<u8>)
    | MethodHandleInfo(tag: u8, referenceKind: u8, referenceIndex: u16)
    | MethodTypeInfo(tag: u8, descriptorIndex: u16)
    | DynamicInfo(tag: u8, bootstrapMethodAttrIndex: u16, nameAndTypeIndex: u16)
    | InvokeDynamicInfo(tag: u8, bootstrapMethodAttrIndex: u16, nameAndTypeIndex: u16)
    | ModuleInfo(tag: u8, nameIndex: u16)
    | PackageInfo(tag: u8, nameIndex: u16)

  datatype ExceptionHandler = ExceptionHandler(startPc: u16, endPc: u16, handlerPc: u16, catchType: u16)

  datatype LineNumber = LineNumber(startPc: u16, lineNumber: u16)

  datatype LocalVariable =
    LocalVariable(startPc: u16, length: u16, nameIndex: u16, descriptorIndex: u16, index: u16)

  /**
   * An attribute. The six kinds of model.rs, and `Unwritten`, which stands
   * for the further kinds (StackMapTable through PermittedSubclasses) whose
   * payload the encoder does not write.
   */
  datatype AttributeInfo =
    | SourceFile(attributeNameIndex: u16, attributeLength: u32, sourcefileIndex: u16)
    | ConstantValue(attributeNameIndex: u16, attributeLength: u32, constantvalueIndex: u16)
    | Code(attributeNameIndex: u16, attributeLength: u32, maxStack: u16, maxLocals: u16,
           codeLength: u32, code: seq<u8>,
           exceptionTableLength: u16, exceptionTable: seq<ExceptionHandler>,
           codeAttributesCount: u16, codeAttributes: seq<AttributeInfo>)
    | Exceptions(attributeNameIndex: u16, attributeLength: u32,
                 numberOfExceptions: u16, exceptionIndexTable: seq<u16>)
    | LineNumberTable(attributeNameIndex: u16, attributeLength: u32,
                      lineNumberTableLength: u16, lineNumberTable: seq<LineNumber>)
    | LocalVariableTable(attributeNameIndex: u16, attributeLength: u32,
                         localVariableTableLength: u16, localVariableTable: seq<LocalVariable>)
    | Unwritten(attributeNameIndex: u16, attributeLength: u32)

  /**
   * A field or a method: model.rs declares FieldInfo and MethodInfo with the
   * same five fields, and the codec treats them alike.
   */
  datatype MemberInfo = MemberInfo(accessFlags: u16, nameIndex: u16, descriptorIndex: u16,
                                   attributesCount: u16, attributes: seq<AttributeInfo>)

  type FieldInfo = MemberInfo
  type MethodInfo = MemberInfo

  /**
   * A class file. The constant pool holds one slot per index, slot 0 and the
   * slot after a Long or Double being `None`.
   */
  datatype ClassFile = ClassFile(
    magic: u32,
    minorVersion: u16,
    majorVersion: u16,
    constantPoolCount: u16,
    constantPool: seq<Option<CpInfo>>,
    accessFlags: u16,
    thisClass: u16,
    superClass: u16,
    interfacesCount: u16,
    interfaces: seq<u16>,
    fieldsCount: u16,
    fields: seq<FieldInfo>,
    methodsCount: u16,
    methods: seq<MethodInfo>,
    attributesCount: u16,
    attributes: seq<AttributeInfo>)

  // ---------------------------------------------------------------------
  // Well-formedness
  // ---------------------------------------------------------------------

  /** The tag an entry of this kind is written with. */
  function KindTag(e: CpInfo): u8 {
    match e
    case ClassInfo(_, _) => CONSTANT_CLASS
    case FieldrefInfo(_, _, _) => CONSTANT_FIELDREF
    case MethodrefInfo(_, _, _) => CONSTANT_METHODREF
    case InterfaceMethodrefInfo(_, _, _) => CONSTANT_INTERFACEMETHODREF
    case StringInfo(_, _) => CONSTANT_STRING
    case IntegerInfo(_, _) => CONSTANT_INTEGER
    case FloatInfo(_, _) => CONSTANT_FLOAT
    case LongInfo(_, _, _) => CONSTANT_LONG
    case DoubleInfo(_, _, _) => CONSTANT_DOUBLE
    case NameAndTypeInfo(_, _, _) => CONSTANT_NAMEANDTYPE
    case Utf8Info(_, _, _) => CONSTANT_UTF8
    case MethodHandleInfo(_, _, _) => CONSTANT_METHODHANDLE
    case MethodTypeInfo(_, _) => CONSTANT_METHODTYPE
    case DynamicInfo(_, _, _) => CONSTANT_DYNAMIC
    case InvokeDynamicInfo(_, _, _) => CONSTANT_INVOKEDYNAMIC
    case ModuleInfo(_, _) => CONSTANT_MODULE
    case PackageInfo(_, _) => CONSTANT_PACKAGE
  }

  /** One of the eleven kinds model.rs declares (the decoder knows only these). */
  predicate IsCoreKind(e: CpInfo) {
    !(e.MethodHandleInfo? || e.MethodTypeInfo? || e.DynamicInfo? ||
      e.InvokeDynamicInfo? || e.ModuleInfo? || e.PackageInfo?)
  }

  /** A Long or a Double: it takes two pool slots (section 4.4.5 of the Java Virtual Machine Specification). */
  predicate IsWide(e: CpInfo) {
    e.LongInfo? || e.DoubleInfo?
  }

  predicate IsWideSlot(slot: Option<CpInfo>) {
    slot.Some? && IsWide(slot.value)
  }

  /** The stored tag is the kind's tag, and a Utf8 entry's length is its byte count. */
  predicate WellFormedEntry(e: CpInfo) {
    e.tag == KindTag(e) && (e.Utf8Info? ==> e.length as int == |e.utf8|)
  }

  /**
   * A constant pool as the tests build it: one slot per index below the
   * count, slot 0 empty, exactly the slots after a Long or Double empty, no
   * Long or Double in the last slot, and every entry well formed.
   */
  predicate WellFormedPool(count: u16, pool: seq<Option<CpInfo>>) {
    && count >= 1
    && |pool| == count as int
    && pool[0] == None
    && (forall i :: 1 <= i < |pool| ==> (pool[i].None? <==> (i >= 2 && IsWideSlot(pool[i - 1]))))
    && (forall i :: 1 <= i < |pool| && IsWideSlot(pool[i]) ==> i + 1 < |pool|)
    && (forall i :: 1 <= i < |pool| && pool[i].Some? ==> WellFormedEntry(pool[i].value))
  }

  /** The bytes an attribute occupies after its 6-byte name-and-length header, summed. */
  function NestedSize(attrs: seq<AttributeInfo>): nat {
    if attrs == [] then 0
    else NestedSize(attrs[..|attrs| - 1]) + 6 + attrs[|attrs| - 1].attributeLength
  }

  /**
   * Stored counts equal the lengths of their vectors and `attribute_length`
   * is the payload size sections 4.7.2, 4.7.3, 4.7.5, 4.7.10, 4.7.12 and
   * 4.7.13 of the JVM Specification give. An `Unwritten` attribute has no
   * payload in this model, so it is never well formed.
   */
  predicate WellFormedAttribute(a: AttributeInfo)
    decreases a
  {
    match a
    case SourceFile(_, len, _) => len == 2
    case ConstantValue(_, len, _) => len == 2
    case Code(_, len, _, _, codeLength, code, etLength, et, count, nested) =>
      && codeLength as int == |code|
      && etLength as int == |et|
      && count as int == |nested|
      && len as int == 12 + codeLength as int + 8 * etLength as int + NestedSize(nested)
      && (forall i :: 0 <= i < |nested| ==> WellFormedAttribute(nested[i]))
    case Exceptions(_, len, n, table) =>
      n as int == |table| && len as int == 2 + 2 * n as int
    case LineNumberTable(_, len, n, table) =>
      n as int == |table| && len as int == 2 + 4 * n as int
    case LocalVariableTable(_, len, n, table) =>
      n as int == |table| && len as int == 2 + 10 * n as int
    case Unwritten(_, _) => false
  }

  predicate WellFormedAttributes(attrs: seq<AttributeInfo>) {
    forall i :: 0 <= i < |attrs| ==> WellFormedAttribute(attrs[i])
  }

  predicate WellFormedMember(m: MemberInfo) {
    m.attributesCount as int == |m.attributes| && WellFormedAttributes(m.attributes)
  }

  /** Every count equals its vector's length and every part is well formed. */
  predicate WellFormedClassFile(cf: ClassFile) {
    && WellFormedPool(cf.constantPoolCount, cf.constantPool)
    && cf.interfacesCount as int == |cf.interfaces|
    && cf.fieldsCount as int == |cf.fields|
    && cf.methodsCount as int == |cf.methods|
    && cf.attributesCount as int == |cf.attributes|
    && (forall i :: 0 <= i < |cf.fields| ==> WellFormedMember(cf.fields[i]))
    && (forall i :: 0 <= i < |cf.methods| ==> WellFormedMember(cf.methods[i]))
    && WellFormedAttributes(cf.attributes)
  }

  // ---------------------------------------------------------------------
  // Facts about the constants
  // ---------------------------------------------------------------------

  /**
   * The seventeen tags are pairwise distinct, so a tag byte names one kind:
   * `KindTag` tells the kinds apart.
   */
  lemma TagsDistinct(a: CpInfo, b: CpInfo)
    ensures KindTag(a) == KindTag(b) <==> SameKind(a, b)
  {
  }

  /** Two entries of the same kind (constructor). */
  predicate SameKind(a: CpInfo, b: CpInfo) {
    match a
    case ClassInfo(_, _) => b.ClassInfo?
    case FieldrefInfo(_, _, _) => b.FieldrefInfo?
    case MethodrefInfo(_, _, _) => b.MethodrefInfo?
    case InterfaceMethodrefInfo(_, _, _) => b.InterfaceMethodrefInfo?
    case StringInfo(_, _) => b.StringInfo?
    case IntegerInfo(_, _) => b.IntegerInfo?
    case FloatInfo(_, _) => b.FloatInfo?
    case LongInfo(_, _, _) => b.LongInfo?
    case DoubleInfo(_, _, _) => b.DoubleInfo?
    case NameAndTypeInfo(_, _, _) => b.NameAndTypeInfo?
    case Utf8Info(_, _, _) => b.Utf8Info?
    case MethodHandleInfo(_, _, _) => b.MethodHandleInfo?
    case MethodTypeInfo(_, _) => b.MethodTypeInfo?
    case DynamicInfo(_, _, _) => b.DynamicInfo?
    case InvokeDynamicInfo(_, _, _) => b.InvokeDynamicInfo?
    case ModuleInfo(_, _) => b.ModuleInfo?
    case PackageInfo(_, _) => b.PackageInfo?
  }

  /** The two tag tables list each tag once and share none. */
  lemma TagTables()
    ensures forall i, j :: 0 <= i < j < |CoreTags| ==> CoreTags[i] != CoreTags[j]
    ensures forall i, j :: 0 <= i < j < |ExtendedTags| ==> ExtendedTags[i] != ExtendedTags[j]
    ensures forall t :: t in CoreTags ==> t !in ExtendedTags
  {
  }

  /**
   * ACC_SUPER and ACC_SYNCHRONIZED share the bit 0x0020 (one applies to
   * classes, the other to methods), and the flags 33 of the tests are
   * ACC_PUBLIC | ACC_SUPER.
   */
  lemma AccessFlagFacts()
    ensures ACC_SUPER == ACC_SYNCHRONIZED
    ensures BitOr(ACC_PUBLIC, ACC_SUPER) == 33
    ensures BitOr(ACC_PUBLIC, ACC_STATIC) == 9
  {
  }
}
