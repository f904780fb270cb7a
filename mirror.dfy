/**
 * A decoder that inverts the encoder of serializer.rs, kept apart from the
 * decoder of deserializer.rs (module Decoder), which it does not replace.
 * Where the two differ, this one does what section 4 of the JVM
 * Specification and the encoder call for:
 *  - the slot after a Long or Double is left empty and not read
 *    (section 4.4.5), and a Long or Double in the last slot is rejected;
 *  - all seventeen constant kinds the encoder writes are known;
 *  - `super_class`, `catch_type` and Exceptions indices undo the encoder's
 *    k+1 adjustment (0 stays 0, w >= 2 becomes w - 1, and 1, which the
 *    encoder never writes, is rejected);
 *  - attributes are read, their kind being the name their
 *    `attribute_name_index` points to in the pool (the names of
 *    `predefined_attributes` in model.rs); any other name is rejected.
 * Its contract is the round trip: every well-formed class file the encoder
 * can write is read back as itself.
 */
module Mirror {
  import opened Numeric
  import opened Results
  import opened Rw
  import opened Model
  import opened Encoder
  import opened Decoder

  // ---------------------------------------------------------------------
  // The constant pool, slot by slot
  // ---------------------------------------------------------------------

  /** An entry of any of the seventeen kinds: the six later ones, else as `ParseCpInfo`. */
  function ParseEntry(s: seq<u8>): Result<Parsed<CpInfo>> {
    var t :- ReadU8(s);
    var tag := t.value;
    if tag == CONSTANT_METHODHANDLE then
      var k :- ReadU8(t.rest);
      var i :- ReadU16(k.rest);
      Ok(Parsed(MethodHandleInfo(tag, k.value, i.value), i.rest))
    else if tag == CONSTANT_METHODTYPE then
      var d :- ReadU16(t.rest);
      Ok(Parsed(MethodTypeInfo(tag, d.value), d.rest))
    else if tag == CONSTANT_DYNAMIC then
      var b :- ReadU16(t.rest);
      var nt :- ReadU16(b.rest);
      Ok(Parsed(DynamicInfo(tag, b.value, nt.value), nt.rest))
    else if tag == CONSTANT_INVOKEDYNAMIC then
      var b :- ReadU16(t.rest);
      var nt :- ReadU16(b.rest);
      Ok(Parsed(InvokeDynamicInfo(tag, b.value, nt.value), nt.rest))
    else if tag == CONSTANT_MODULE then
      var n :- ReadU16(t.rest);
      Ok(Parsed(ModuleInfo(tag, n.value), n.rest))
    else if tag == CONSTANT_PACKAGE then
      var n :- ReadU16(t.rest);
      Ok(Parsed(PackageInfo(tag, n.value), n.rest))
    else
      ParseCpInfo(s)
  }

  /**
   * Slots 0 to n - 1 of a pool: slot 0 is empty, the slot after a Long or
   * Double is empty and consumes nothing, every other slot is one entry.
   */
  function ParseSlots(s: seq<u8>, n: nat): (r: Result<Parsed<seq<Option<CpInfo>>>>)
    requires n >= 1
    ensures r.Ok? ==> |r.value.value| == n && r.value.value[0] == None
  {
    if n == 1 then Ok(Parsed([None], s))
    else
      var p :- ParseSlots(s, n - 1);
      if IsWideSlot(p.value[n - 2]) then Ok(Parsed(p.value + [None], p.rest))
      else
        var e :- ParseEntry(p.rest);
        Ok(Parsed(p.value + [Some(e.value)], e.rest))
  }

  /** The pool of `count` slots; a count of 0 or a wide last entry is an error. */
  function ParsePool(s: seq<u8>, count: u16): Result<Parsed<seq<Option<CpInfo>>>> {
    if count == 0 then Err(CountUnderflow)
    else
      var p :- ParseSlots(s, count as nat);
      if IsWideSlot(p.value[count - 1]) then Err(WideEntryInLastSlot)
      else Ok(p)
  }

  /** The six kinds the faithful decoder does not know, read back. */
  lemma ExtendedEntryAfterEncode(e: CpInfo, rest: seq<u8>)
    requires !IsCoreKind(e) && WellFormedEntry(e)
    ensures ParseEntry(EncodeCpInfo(e) + rest) == Ok(Parsed(e, rest))
  {
    ReadTag(e, rest);
    var fields := EncodeCpInfo(e)[1..];
    match e
    case MethodHandleInfo(_, k, i) =>
      assert fields == EncodeU8(k) + EncodeU16(i);
      AppendAssoc(EncodeU8(k), EncodeU16(i), rest);
      ReadU8AfterWrite(k, EncodeU16(i) + rest);
      ReadU16AfterWrite(i, rest);
    case MethodTypeInfo(_, d) =>
      assert fields == EncodeU16(d);
      ReadU16AfterWrite(d, rest);
    case DynamicInfo(_, b, nt) =>
      assert fields == EncodeU16(b) + EncodeU16(nt);
      ReadU16Pair(b, nt, rest);
    case InvokeDynamicInfo(_, b, nt) =>
      assert fields == EncodeU16(b) + EncodeU16(nt);
      ReadU16Pair(b, nt, rest);
    case ModuleInfo(_, n) =>
      assert fields == EncodeU16(n);
      ReadU16AfterWrite(n, rest);
    case PackageInfo(_, n) =>
      assert fields == EncodeU16(n);
      ReadU16AfterWrite(n, rest);
  }

  /** Every well-formed entry, of any kind, is read back as itself. */
  lemma EntryAfterEncode(e: CpInfo, rest: seq<u8>)
    requires WellFormedEntry(e)
    ensures ParseEntry(EncodeCpInfo(e) + rest) == Ok(Parsed(e, rest))
  {
    if IsCoreKind(e) {
      ReadTag(e, rest);
      ParseCpInfoAfterEncode(e, rest);
      assert e.tag !in ExtendedTags;
    } else {
      ExtendedEntryAfterEncode(e, rest);
    }
  }

  /**
   * The shape `WellFormedPool` asks of every slot, without the condition on
   * the last one: what holds of each run of leading slots.
   */
  predicate SlotsShape(slots: seq<Option<CpInfo>>) {
    && |slots| >= 1
    && slots[0] == None
    && (forall i :: 1 <= i < |slots| ==> (slots[i].None? <==> (i >= 2 && IsWideSlot(slots[i - 1]))))
    && (forall i :: 1 <= i < |slots| && slots[i].Some? ==> WellFormedEntry(slots[i].value))
  }

  lemma SlotsShapePrefix(slots: seq<Option<CpInfo>>, k: nat)
    requires SlotsShape(slots) && 1 <= k <= |slots|
    ensures SlotsShape(slots[..k])
  {
    assert slots[..k][0] == slots[0];
  }

  /** Leading slots as the encoder writes them are read back slot for slot. */
  lemma {:induction false} SlotsAfterEncode(slots: seq<Option<CpInfo>>, rest: seq<u8>)
    requires SlotsShape(slots)
    ensures ParseSlots(EncodePool(slots) + rest, |slots|) == Ok(Parsed(slots, rest))
  {
    var n := |slots|;
    if n == 1 {
      assert slots[..0] == [];
      assert EncodePool(slots) == [];
      assert slots == [None];
      assert EncodePool(slots) + rest == rest;
    } else {
      var init, last := slots[..n - 1], slots[n - 1];
      var t := EncodeSlot(last) + rest;
      var s := EncodePool(slots) + rest;
      assert s == EncodePool(init) + t by {
        AppendAssoc(EncodePool(init), EncodeSlot(last), rest);
      }
      SlotsShapePrefix(slots, n - 1);
      SlotsAfterEncode(init, t);
      LastSplit(slots);
      assert init[n - 2] == slots[n - 2];
      if IsWideSlot(slots[n - 2]) {
        assert last == None;
        assert t == rest;
      } else {
        assert last.Some?;
        EntryAfterEncode(last.value, rest);
      }
    }
  }

  /** A well-formed pool is read back as itself, slot 0 and empty slots included. */
  lemma PoolAfterEncode(count: u16, pool: seq<Option<CpInfo>>, rest: seq<u8>)
    requires WellFormedPool(count, pool)
    ensures ParsePool(EncodePool(pool) + rest, count) == Ok(Parsed(pool, rest))
  {
    SlotsAfterEncode(pool, rest);
  }

  /** Whatever `ParseEntry` reads is well formed: its stored tag is its kind's. */
  lemma ParsedEntryIsWellFormed(s: seq<u8>)
    ensures ParseEntry(s).Ok? ==> WellFormedEntry(ParseEntry(s).value.value)
  {
    if ParseEntry(s).Ok? && |s| >= 1 && s[0] !in ExtendedTags {
      ParsedEntryWellFormed(s);
    }
  }

  /** Whatever `ParseSlots` reads has the slot shape of a well-formed pool. */
  lemma {:induction false} ParsedSlotsShape(s: seq<u8>, n: nat)
    requires n >= 1
    ensures ParseSlots(s, n).Ok? ==> SlotsShape(ParseSlots(s, n).value.value)
  {
    if n > 1 && ParseSlots(s, n).Ok? {
      ParsedSlotsShape(s, n - 1);
      var p := ParseSlots(s, n - 1).value;
      if !IsWideSlot(p.value[n - 2]) {
        ParsedEntryIsWellFormed(p.rest);
      }
    }
  }

  /**
   * The wide-slot counterexample of the faithful decoder, read by this one:
   * the slot after the Long is left empty and the bytes after the pool are
   * not touched.
   */
  lemma WidePoolReadBack(rest: seq<u8>)
    ensures ParsePool(EncodePool([None, Some(LongInfo(CONSTANT_LONG, 0, 7)), None]) + rest, 3)
         == Ok(Parsed([None, Some(LongInfo(CONSTANT_LONG, 0, 7)), None], rest))
  {
    PoolAfterEncode(3, [None, Some(LongInfo(CONSTANT_LONG, 0, 7)), None], rest);
  }

  // ---------------------------------------------------------------------
  // The k+1 adjustment, undone
  // ---------------------------------------------------------------------

  /** The index the encoder wrote as `w`: 0 for 0, w - 1 otherwise; 1 is never written. */
  function Unbump(w: u16): (r: Result<u16>)
    ensures r.Err? <==> w == 1
    ensures r.Ok? ==> r.value != 0xFFFF && Bump(r.value) == w
  {
    if w == 0 then Ok(0) else if w == 1 then Err(UnusedIndex) else Ok(w - 1)
  }

  /** Undoing the adjustment gives back every index the encoder can adjust. */
  lemma UnbumpBump(k: u16)
    requires k != 0xFFFF
    ensures Unbump(Bump(k)) == Ok(k)
  {
  }

  /** A 16-bit index written with the k+1 adjustment. */
  function ParseBumped(s: seq<u8>): (r: Result<Parsed<u16>>)
    ensures r.Ok? ==> |r.value.rest| + 2 == |s|
  {
    var w :- ReadU16(s);
    var k :- Unbump(w.value);
    Ok(Parsed(k, w.rest))
  }

  lemma ParseBumpedAfterEncode(k: u16, rest: seq<u8>)
    requires k != 0xFFFF
    ensures ParseBumped(EncodeU16(Bump(k)) + rest) == Ok(Parsed(k, rest))
  {
    ReadU16AfterWrite(Bump(k), rest);
    UnbumpBump(k);
  }

  // ---------------------------------------------------------------------
  // Attribute names
  // ---------------------------------------------------------------------

  /** The six attribute kinds of model.rs. */
  datatype AttrKind =
    | SourceFileKind | ConstantValueKind | CodeKind
    | ExceptionsKind | LineNumberTableKind | LocalVariableTableKind

  /** The name of each kind, from `predefined_attributes`. */
  function KindName(k: AttrKind): string {
    match k
    case SourceFileKind => SOURCE_FILE
    case ConstantValueKind => CONSTANT_VALUE
    case CodeKind => CODE
    case ExceptionsKind => EXCEPTIONS
    case LineNumberTableKind => LINE_NUMBER_TABLE
    case LocalVariableTableKind => LOCAL_VARIABLE_TABLE
  }

  function AttrKindOf(a: AttributeInfo): AttrKind
    requires !a.Unwritten?
  {
    match a
    case SourceFile(_, _, _) => SourceFileKind
    case ConstantValue(_, _, _) => ConstantValueKind
    case Code(_, _, _, _, _, _, _, _, _, _) => CodeKind
    case Exceptions(_, _, _, _) => ExceptionsKind
    case LineNumberTable(_, _, _, _) => LineNumberTableKind
    case LocalVariableTable(_, _, _, _) => LocalVariableTableKind
  }

  /** The bytes of a name made of ASCII characters, one per character. */
  function Ascii(name: string): (r: seq<u8>)
    ensures |r| == |name|
  {
    seq(|name|, i requires 0 <= i < |name| => (name[i] as int % 256) as u8)
  }

  /** The bytes of the Utf8 entry in slot `index`, if that slot holds one. */
  function Utf8At(pool: seq<Option<CpInfo>>, index: u16): Option<seq<u8>> {
    if index as int < |pool| && pool[index].Some? && pool[index].value.Utf8Info?
    then Some(pool[index].value.utf8)
    else None
  }

  /** The kind whose name is `b`, if any: the six names are told apart. */
  function KindNamed(b: seq<u8>): (r: Option<AttrKind>)
    ensures r.Some? ==> b == Ascii(KindName(r.value))
    ensures forall k :: b == Ascii(KindName(k)) ==> r == Some(k)
  {
    assert Ascii(SOURCE_FILE)[0] == 83 && Ascii(EXCEPTIONS)[0] == 69;
    if b == Ascii(SOURCE_FILE) then Some(SourceFileKind)
    else if b == Ascii(CONSTANT_VALUE) then Some(ConstantValueKind)
    else if b == Ascii(CODE) then Some(CodeKind)
    else if b == Ascii(EXCEPTIONS) then Some(ExceptionsKind)
    else if b == Ascii(LINE_NUMBER_TABLE) then Some(LineNumberTableKind)
    else if b == Ascii(LOCAL_VARIABLE_TABLE) then Some(LocalVariableTableKind)
    else None
  }

  /** The kind an attribute name index leads to through the pool. */
  function NamedKind(pool: seq<Option<CpInfo>>, index: u16): Option<AttrKind> {
    match Utf8At(pool, index)
    case None => None
    case Some(b) => KindNamed(b)
  }

  /**
   * Every attribute's name index, nested ones included, leads to a Utf8
   * entry holding the name of its kind.
   */
  predicate NamesResolve(pool: seq<Option<CpInfo>>, a: AttributeInfo)
    decreases a
  {
    && !a.Unwritten?
    && Utf8At(pool, a.attributeNameIndex) == Some(Ascii(KindName(AttrKindOf(a))))
    && match a
       case Code(_, _, _, _, _, _, _, _, _, nested) =>
         forall i :: 0 <= i < |nested| ==> NamesResolve(pool, nested[i])
       case _ => true
  }

  predicate AllNamesResolve(pool: seq<Option<CpInfo>>, attrs: seq<AttributeInfo>) {
    forall i :: 0 <= i < |attrs| ==> NamesResolve(pool, attrs[i])
  }

  // ---------------------------------------------------------------------
  // Attribute payloads
  // ---------------------------------------------------------------------

  /** A run of items, each of which never grows the input, never grows it. */
  lemma {:induction false} ParseSeqShrinks<T>(parse: seq<u8> -> Result<Parsed<T>>, s: seq<u8>, n: nat)
    requires forall x :: parse(x).Ok? ==> |parse(x).value.rest| <= |x|
    ensures ParseSeq(parse, s, n).Ok? ==> |ParseSeq(parse, s, n).value.rest| <= |s|
  {
    if n > 0 {
      ParseSeqShrinks(parse, s, n - 1);
    }
  }

  /** start_pc, end_pc, handler_pc, then catch_type with the adjustment undone. */
  function ParseHandler(s: seq<u8>): (r: Result<Parsed<ExceptionHandler>>)
    ensures r.Ok? ==> |r.value.rest| + 8 == |s|
  {
    var startPc :- ReadU16(s);
    var endPc :- ReadU16(startPc.rest);
    var handlerPc :- ReadU16(endPc.rest);
    var catchType :- ParseBumped(handlerPc.rest);
    Ok(Parsed(ExceptionHandler(startPc.value, endPc.value, handlerPc.value, catchType.value), catchType.rest))
  }

  function ParseLineNumber(s: seq<u8>): (r: Result<Parsed<LineNumber>>)
    ensures r.Ok? ==> |r.value.rest| + 4 == |s|
  {
    var startPc :- ReadU16(s);
    var lineNumber :- ReadU16(startPc.rest);
    Ok(Parsed(LineNumber(startPc.value, lineNumber.value), lineNumber.rest))
  }

  function ParseLocalVariable(s: seq<u8>): (r: Result<Parsed<LocalVariable>>)
    ensures r.Ok? ==> |r.value.rest| + 10 == |s|
  {
    var startPc :- ReadU16(s);
    var length :- ReadU16(startPc.rest);
    var nameIndex :- ReadU16(length.rest);
    var descriptorIndex :- ReadU16(nameIndex.rest);
    var index :- ReadU16(descriptorIndex.rest);
    Ok(Parsed(LocalVariable(startPc.value, length.value, nameIndex.value, descriptorIndex.value, index.value),
              index.rest))
  }

  /**
   * One attribute: its name index and length, then the payload of the kind
   * its name gives. An attribute whose name is not one of the six is an error.
   */
  function ParseAttribute(pool: seq<Option<CpInfo>>, s: seq<u8>): (r: Result<Parsed<AttributeInfo>>)
    ensures r.Ok? ==> |r.value.rest| < |s|
    decreases |s|, 0
  {
    var name :- ReadU16(s);
    var len :- ReadU32(name.rest);
    match NamedKind(pool, name.value)
    case None => Err(UnknownAttribute(name.value))
    case Some(kind) => ParsePayload(pool, kind, name.value, len.value, len.rest)
  }

  /** `n` attributes one after the other. */
  function ParseAttributeList(pool: seq<Option<CpInfo>>, s: seq<u8>, n: nat): (r: Result<Parsed<seq<AttributeInfo>>>)
    ensures r.Ok? ==> |r.value.value| == n && |r.value.rest| <= |s|
    decreases |s|, n
  {
    if n == 0 then Ok(Parsed([], s))
    else
      var p :- ParseAttributeList(pool, s, n - 1);
      var a :- ParseAttribute(pool, p.rest);
      Ok(Parsed(p.value + [a.value], a.rest))
  }

  /** The payload of an attribute of the given kind, in the encoder's layout. */
  function ParsePayload(pool: seq<Option<CpInfo>>, kind: AttrKind, name: u16, len: u32, s: seq<u8>)
    : (r: Result<Parsed<AttributeInfo>>)
    ensures r.Ok? ==> |r.value.rest| <= |s|
    decreases |s|, 1
  {
    match kind
    case SourceFileKind =>
      var index :- ReadU16(s);
      Ok(Parsed(SourceFile(name, len, index.value), index.rest))
    case ConstantValueKind =>
      var index :- ReadU16(s);
      Ok(Parsed(ConstantValue(name, len, index.value), index.rest))
    case CodeKind => ParseCode(pool, name, len, s)
    case ExceptionsKind =>
      var n :- ReadU16(s);
      var table :- ParseSeq(ParseBumped, n.rest, n.value as nat);
      ParseSeqShrinks(ParseBumped, n.rest, n.value as nat);
      Ok(Parsed(Exceptions(name, len, n.value, table.value), table.rest))
    case LineNumberTableKind =>
      var n :- ReadU16(s);
      var table :- ParseSeq(ParseLineNumber, n.rest, n.value as nat);
      ParseSeqShrinks(ParseLineNumber, n.rest, n.value as nat);
      Ok(Parsed(LineNumberTable(name, len, n.value, table.value), table.rest))
    case LocalVariableTableKind =>
      var n :- ReadU16(s);
      var table :- ParseSeq(ParseLocalVariable, n.rest, n.value as nat);
      ParseSeqShrinks(ParseLocalVariable, n.rest, n.value as nat);
      Ok(Parsed(LocalVariableTable(name, len, n.value, table.value), table.rest))
  }

  /**
   * A Code payload: max_stack, max_locals, code_length and that many code
   * bytes, the exception table with its length, the nested attributes with
   * their count.
   */
  function ParseCode(pool: seq<Option<CpInfo>>, name: u16, len: u32, s: seq<u8>): (r: Result<Parsed<AttributeInfo>>)
    ensures r.Ok? ==> |r.value.rest| <= |s|
    decreases |s|, 0
  {
    var maxStack :- ReadU16(s);
    var maxLocals :- ReadU16(maxStack.rest);
    var codeLength :- ReadU32(maxLocals.rest);
    var code :- ParseSeq(ReadU8, codeLength.rest, codeLength.value as nat);
    ParseSeqShrinks(ReadU8, codeLength.rest, codeLength.value as nat);
    var etLength :- ReadU16(code.rest);
    var et :- ParseSeq(ParseHandler, etLength.rest, etLength.value as nat);
    ParseSeqShrinks(ParseHandler, etLength.rest, etLength.value as nat);
    var count :- ReadU16(et.rest);
    var nested :- ParseAttributeList(pool, count.rest, count.value as nat);
    Ok(Parsed(Code(name, len, maxStack.value, maxLocals.value, codeLength.value, code.value,
                   etLength.value, et.value, count.value, nested.value), nested.rest))
  }

  // ---------------------------------------------------------------------
  // Attributes read back
  // ---------------------------------------------------------------------

  lemma ParseHandlerAfterEncode(h: ExceptionHandler, rest: seq<u8>)
    requires h.catchType != 0xFFFF
    ensures ParseHandler(EncodeHandler(h) + rest) == Ok(Parsed(h, rest))
  {
    var t3 := EncodeU16(Bump(h.catchType)) + rest;
    var t2 := EncodeU16(h.handlerPc) + t3;
    var t1 := EncodeU16(h.endPc) + t2;
    AppendAssoc(EncodeU16(h.startPc) + EncodeU16(h.endPc) + EncodeU16(h.handlerPc), EncodeU16(Bump(h.catchType)), rest);
    AppendAssoc(EncodeU16(h.startPc) + EncodeU16(h.endPc), EncodeU16(h.handlerPc), t3);
    AppendAssoc(EncodeU16(h.startPc), EncodeU16(h.endPc), t2);
    ReadU16AfterWrite(h.startPc, t1);
    ReadU16AfterWrite(h.endPc, t2);
    ReadU16AfterWrite(h.handlerPc, t3);
    ParseBumpedAfterEncode(h.catchType, rest);
  }

  lemma ParseLineNumberAfterEncode(ln: LineNumber, rest: seq<u8>)
    ensures ParseLineNumber(EncodeU16(ln.startPc) + EncodeU16(ln.lineNumber) + rest) == Ok(Parsed(ln, rest))
  {
    AppendAssoc(EncodeU16(ln.startPc), EncodeU16(ln.lineNumber), rest);
    ReadU16AfterWrite(ln.startPc, EncodeU16(ln.lineNumber) + rest);
    ReadU16AfterWrite(ln.lineNumber, rest);
  }

  lemma ParseLocalVariableAfterEncode(v: LocalVariable, rest: seq<u8>)
    ensures ParseLocalVariable(EncodeLocalVariable(v) + rest) == Ok(Parsed(v, rest))
  {
    var t4 := EncodeU16(v.index) + rest;
    var t3 := EncodeU16(v.descriptorIndex) + t4;
    var t2 := EncodeU16(v.nameIndex) + t3;
    var t1 := EncodeU16(v.length) + t2;
    var a := EncodeU16(v.startPc);
    AppendAssoc(a + EncodeU16(v.length) + EncodeU16(v.nameIndex) + EncodeU16(v.descriptorIndex), EncodeU16(v.index), rest);
    AppendAssoc(a + EncodeU16(v.length) + EncodeU16(v.nameIndex), EncodeU16(v.descriptorIndex), t4);
    AppendAssoc(a + EncodeU16(v.length), EncodeU16(v.nameIndex), t3);
    AppendAssoc(a, EncodeU16(v.length), t2);
    ReadU16AfterWrite(v.startPc, t1);
    ReadU16AfterWrite(v.length, t2);
    ReadU16AfterWrite(v.nameIndex, t3);
    ReadU16AfterWrite(v.descriptorIndex, t4);
    ReadU16AfterWrite(v.index, rest);
  }

  lemma {:induction false} HandlersAfterEncode(et: seq<ExceptionHandler>, rest: seq<u8>)
    requires forall i :: 0 <= i < |et| ==> et[i].catchType != 0xFFFF
    ensures ParseSeq(ParseHandler, EncodeHandlers(et) + rest, |et|) == Ok(Parsed(et, rest))
  {
    if et == [] {
      assert EncodeHandlers(et) + rest == rest;
    } else {
      var n := |et| - 1;
      var t := EncodeHandler(et[n]) + rest;
      var s := EncodeHandlers(et) + rest;
      EncodeHandlersPrefix(et, n);
      assert et[..n + 1] == et;
      AppendAssoc(EncodeHandlers(et[..n]), EncodeHandler(et[n]), rest);
      HandlersAfterEncode(et[..n], t);
      ParseHandlerAfterEncode(et[n], rest);
      ParseSeqStep(ParseHandler, s, n, Parsed(et[..n], t), Parsed(et[n], rest));
      LastSplit(et);
    }
  }

  lemma {:induction false} ExceptionIndexTableAfterEncode(table: seq<u16>, rest: seq<u8>)
    requires forall i :: 0 <= i < |table| ==> table[i] != 0xFFFF
    ensures ParseSeq(ParseBumped, EncodeExceptionIndexTable(table) + rest, |table|) == Ok(Parsed(table, rest))
  {
    if table == [] {
      assert EncodeExceptionIndexTable(table) + rest == rest;
    } else {
      var n := |table| - 1;
      var t := EncodeU16(Bump(table[n])) + rest;
      var s := EncodeExceptionIndexTable(table) + rest;
      EncodeExceptionIndexTablePrefix(table, n);
      assert table[..n + 1] == table;
      AppendAssoc(EncodeExceptionIndexTable(table[..n]), EncodeU16(Bump(table[n])), rest);
      ExceptionIndexTableAfterEncode(table[..n], t);
      ParseBumpedAfterEncode(table[n], rest);
      ParseSeqStep(ParseBumped, s, n, Parsed(table[..n], t), Parsed(table[n], rest));
      LastSplit(table);
    }
  }

  lemma {:induction false} LineNumbersAfterEncode(table: seq<LineNumber>, rest: seq<u8>)
    ensures ParseSeq(ParseLineNumber, EncodeLineNumbers(table) + rest, |table|) == Ok(Parsed(table, rest))
  {
    if table == [] {
      assert EncodeLineNumbers(table) + rest == rest;
    } else {
      var n := |table| - 1;
      var item := EncodeU16(table[n].startPc) + EncodeU16(table[n].lineNumber);
      var t := item + rest;
      var s := EncodeLineNumbers(table) + rest;
      EncodeLineNumbersPrefix(table, n);
      assert table[..n + 1] == table;
      AppendAssoc(EncodeLineNumbers(table[..n]), item, rest);
      LineNumbersAfterEncode(table[..n], t);
      ParseLineNumberAfterEncode(table[n], rest);
      ParseSeqStep(ParseLineNumber, s, n, Parsed(table[..n], t), Parsed(table[n], rest));
      LastSplit(table);
    }
  }

  lemma {:induction false} LocalVariablesAfterEncode(table: seq<LocalVariable>, rest: seq<u8>)
    ensures ParseSeq(ParseLocalVariable, EncodeLocalVariables(table) + rest, |table|) == Ok(Parsed(table, rest))
  {
    if table == [] {
      assert EncodeLocalVariables(table) + rest == rest;
    } else {
      var n := |table| - 1;
      var t := EncodeLocalVariable(table[n]) + rest;
      var s := EncodeLocalVariables(table) + rest;
      EncodeLocalVariablesPrefix(table, n);
      assert table[..n + 1] == table;
      AppendAssoc(EncodeLocalVariables(table[..n]), EncodeLocalVariable(table[n]), rest);
      LocalVariablesAfterEncode(table[..n], t);
      ParseLocalVariableAfterEncode(table[n], rest);
      ParseSeqStep(ParseLocalVariable, s, n, Parsed(table[..n], t), Parsed(table[n], rest));
      LastSplit(table);
    }
  }

  /** A resolving name index and the length are read, and the payload of its kind follows. */
  lemma HeaderAfterEncode(pool: seq<Option<CpInfo>>, a: AttributeInfo, payload: seq<u8>)
    requires NamesResolve(pool, a)
    ensures ParseAttribute(pool, EncodeU16(a.attributeNameIndex) + (EncodeU32(a.attributeLength) + payload))
         == ParsePayload(pool, AttrKindOf(a), a.attributeNameIndex, a.attributeLength, payload)
  {
    ReadU16AfterWrite(a.attributeNameIndex, EncodeU32(a.attributeLength) + payload);
    ReadU32AfterWrite(a.attributeLength, payload);
    assert NamedKind(pool, a.attributeNameIndex) == Some(AttrKindOf(a));
  }

  /** SourceFile and ConstantValue attributes, read back. */
  lemma IndexAttributeAfterEncode(pool: seq<Option<CpInfo>>, a: AttributeInfo, rest: seq<u8>)
    requires (a.SourceFile? || a.ConstantValue?) && NamesResolve(pool, a)
    ensures ParseAttribute(pool, EncodeAttribute(a) + rest) == Ok(Parsed(a, rest))
  {
    var index := if a.SourceFile? then a.sourcefileIndex else a.constantvalueIndex;
    var h := EncodeU16(a.attributeNameIndex);
    var l := EncodeU32(a.attributeLength);
    assert EncodeAttribute(a) == h + l + EncodeU16(index);
    AppendAssoc(h + l, EncodeU16(index), rest);
    AppendAssoc(h, l, EncodeU16(index) + rest);
    HeaderAfterEncode(pool, a, EncodeU16(index) + rest);
    ReadU16AfterWrite(index, rest);
  }

  /** The four pieces of a table attribute, regrouped from the right. */
  lemma FourPieces(h: seq<u8>, l: seq<u8>, c: seq<u8>, table: seq<u8>, rest: seq<u8>)
    ensures h + l + c + table + rest == h + (l + (c + (table + rest)))
  {
    AppendAssoc(h + l + c, table, rest);
    AppendAssoc(h + l, c, table + rest);
    AppendAssoc(h, l, c + (table + rest));
  }

  /** An Exceptions attribute, read back with every index's adjustment undone. */
  lemma ExceptionsAfterEncode(pool: seq<Option<CpInfo>>, a: AttributeInfo, rest: seq<u8>)
    requires a.Exceptions? && AttributeEncodable(a) && WellFormedAttribute(a) && NamesResolve(pool, a)
    ensures ParseAttribute(pool, EncodeAttribute(a) + rest) == Ok(Parsed(a, rest))
  {
    var n, table := a.numberOfExceptions, EncodeExceptionIndexTable(a.exceptionIndexTable);
    ExceptionIndexTableAfterEncode(a.exceptionIndexTable, rest);
    FourPieces(EncodeU16(a.attributeNameIndex), EncodeU32(a.attributeLength), EncodeU16(n), table, rest);
    HeaderAfterEncode(pool, a, EncodeU16(n) + (table + rest));
    ReadU16AfterWrite(n, table + rest);
  }

  lemma LineNumberTableAfterEncode(pool: seq<Option<CpInfo>>, a: AttributeInfo, rest: seq<u8>)
    requires a.LineNumberTable? && WellFormedAttribute(a) && NamesResolve(pool, a)
    ensures ParseAttribute(pool, EncodeAttribute(a) + rest) == Ok(Parsed(a, rest))
  {
    var n, table := a.lineNumberTableLength, EncodeLineNumbers(a.lineNumberTable);
    LineNumbersAfterEncode(a.lineNumberTable, rest);
    FourPieces(EncodeU16(a.attributeNameIndex), EncodeU32(a.attributeLength), EncodeU16(n), table, rest);
    HeaderAfterEncode(pool, a, EncodeU16(n) + (table + rest));
    ReadU16AfterWrite(n, table + rest);
  }

  /** The LocalVariableTable payload, given its count and its entries as read. */
  lemma LocalVariableTablePayload(pool: seq<Option<CpInfo>>, name: u16, len: u32, s: seq<u8>,
                                  n: u16, s1: seq<u8>, table: seq<LocalVariable>, rest: seq<u8>)
    requires ReadU16(s) == Ok(Parsed(n, s1))
    requires ParseSeq(ParseLocalVariable, s1, n as nat) == Ok(Parsed(table, rest))
    ensures ParsePayload(pool, LocalVariableTableKind, name, len, s)
         == Ok(Parsed(LocalVariableTable(name, len, n, table), rest))
  {
  }

  lemma LocalVariableTableAfterEncode(pool: seq<Option<CpInfo>>, a: AttributeInfo, rest: seq<u8>)
    requires a.LocalVariableTable? && WellFormedAttribute(a) && NamesResolve(pool, a)
    ensures ParseAttribute(pool, EncodeAttribute(a) + rest) == Ok(Parsed(a, rest))
  {
    var n, table := a.localVariableTableLength, EncodeLocalVariables(a.localVariableTable);
    LocalVariablesAfterEncode(a.localVariableTable, rest);
    FourPieces(EncodeU16(a.attributeNameIndex), EncodeU32(a.attributeLength), EncodeU16(n), table, rest);
    HeaderAfterEncode(pool, a, EncodeU16(n) + (table + rest));
    ReadU16AfterWrite(n, table + rest);
    LocalVariableTablePayload(pool, a.attributeNameIndex, a.attributeLength, EncodeU16(n) + (table + rest),
                              n, table + rest, a.localVariableTable, rest);
  }

  /** A Code attribute's ten pieces, regrouped from the right. */
  lemma CodeSections(a: AttributeInfo, rest: seq<u8>)
    requires a.Code? && AttributeEncodable(a)
    ensures AttributesEncodable(a.codeAttributes)
    ensures EncodeAttribute(a) + rest
         == EncodeU16(a.attributeNameIndex) + (EncodeU32(a.attributeLength)
          + (EncodeU16(a.maxStack) + (EncodeU16(a.maxLocals) + (EncodeU32(a.codeLength) + (a.code
          + (EncodeU16(a.exceptionTableLength) + (EncodeHandlers(a.exceptionTable)
          + (EncodeU16(a.codeAttributesCount) + (EncodeAttributes(a.codeAttributes) + rest)))))))))
  {
    var x1 := EncodeU16(a.attributeNameIndex);
    var x2 := x1 + EncodeU32(a.attributeLength);
    var x3 := x2 + EncodeU16(a.maxStack);
    var x4 := x3 + EncodeU16(a.maxLocals);
    var x5 := x4 + EncodeU32(a.codeLength);
    var x6 := x5 + a.code;
    var x7 := x6 + EncodeU16(a.exceptionTableLength);
    var x8 := x7 + EncodeHandlers(a.exceptionTable);
    var x9 := x8 + EncodeU16(a.codeAttributesCount);
    var u8 := EncodeAttributes(a.codeAttributes) + rest;
    var u7 := EncodeU16(a.codeAttributesCount) + u8;
    var u6 := EncodeHandlers(a.exceptionTable) + u7;
    var u5 := EncodeU16(a.exceptionTableLength) + u6;
    var u4 := a.code + u5;
    var u3 := EncodeU32(a.codeLength) + u4;
    var u2 := EncodeU16(a.maxLocals) + u3;
    var u1 := EncodeU16(a.maxStack) + u2;
    var u0 := EncodeU32(a.attributeLength) + u1;
    assert EncodeAttribute(a) == x9 + EncodeAttributes(a.codeAttributes);
    AppendAssoc(x9, EncodeAttributes(a.codeAttributes), rest);
    AppendAssoc(x8, EncodeU16(a.codeAttributesCount), u8);
    AppendAssoc(x7, EncodeHandlers(a.exceptionTable), u7);
    AppendAssoc(x6, EncodeU16(a.exceptionTableLength), u6);
    AppendAssoc(x5, a.code, u5);
    AppendAssoc(x4, EncodeU32(a.codeLength), u4);
    AppendAssoc(x3, EncodeU16(a.maxLocals), u3);
    AppendAssoc(x2, EncodeU16(a.maxStack), u2);
    AppendAssoc(x1, EncodeU32(a.attributeLength), u1);
  }

  /** The Code payload, given each of its parts as read from where the previous one stopped. */
  lemma CodePayload(pool: seq<Option<CpInfo>>, a: AttributeInfo, u0: seq<u8>, u1: seq<u8>, u2: seq<u8>,
                    u3: seq<u8>, u4: seq<u8>, u5: seq<u8>, u6: seq<u8>, u7: seq<u8>, u8: seq<u8>)
    requires a.Code?
    requires ReadU16(u0) == Ok(Parsed(a.maxStack, u1))
    requires ReadU16(u1) == Ok(Parsed(a.maxLocals, u2))
    requires ReadU32(u2) == Ok(Parsed(a.codeLength, u3))
    requires ParseSeq(ReadU8, u3, a.codeLength as nat) == Ok(Parsed(a.code, u4))
    requires ReadU16(u4) == Ok(Parsed(a.exceptionTableLength, u5))
    requires ParseSeq(ParseHandler, u5, a.exceptionTableLength as nat) == Ok(Parsed(a.exceptionTable, u6))
    requires ReadU16(u6) == Ok(Parsed(a.codeAttributesCount, u7))
    requires ParseAttributeList(pool, u7, a.codeAttributesCount as nat) == Ok(Parsed(a.codeAttributes, u8))
    ensures ParsePayload(pool, CodeKind, a.attributeNameIndex, a.attributeLength, u0) == Ok(Parsed(a, u8))
  {
  }

  /** A Code attribute, its exception table and its nested attributes read back. */
  lemma {:induction false} CodeAfterEncode(pool: seq<Option<CpInfo>>, a: AttributeInfo, rest: seq<u8>)
    requires a.Code? && AttributeEncodable(a) && WellFormedAttribute(a) && NamesResolve(pool, a)
    ensures ParseAttribute(pool, EncodeAttribute(a) + rest) == Ok(Parsed(a, rest))
    decreases a, 0
  {
    var nested := a.codeAttributes;
    var u8 := EncodeAttributes(nested) + rest;
    var u7 := EncodeU16(a.codeAttributesCount) + u8;
    var u6 := EncodeHandlers(a.exceptionTable) + u7;
    var u5 := EncodeU16(a.exceptionTableLength) + u6;
    var u4 := a.code + u5;
    var u3 := EncodeU32(a.codeLength) + u4;
    var u2 := EncodeU16(a.maxLocals) + u3;
    var u1 := EncodeU16(a.maxStack) + u2;
    CodeSections(a, rest);
    assert WellFormedAttributes(nested) && AllNamesResolve(pool, nested);
    AttributesAfterEncode(pool, nested, rest);
    HandlersAfterEncode(a.exceptionTable, u7);
    ParseBytesTakesPrefix(u4, a.codeLength as nat);
    assert u4[..|a.code|] == a.code && u4[|a.code|..] == u5;
    ReadU16AfterWrite(a.maxStack, u2);
    ReadU16AfterWrite(a.maxLocals, u3);
    ReadU32AfterWrite(a.codeLength, u4);
    ReadU16AfterWrite(a.exceptionTableLength, u6);
    ReadU16AfterWrite(a.codeAttributesCount, u8);
    CodePayload(pool, a, u1, u2, u3, u4, u5, u6, u7, u8, rest);
    HeaderAfterEncode(pool, a, u1);
  }

  /**
   * Every well-formed attribute whose names resolve in the pool, written by
   * the encoder, is read back as itself, and reading stops right after it.
   */
  lemma {:induction false} AttributeAfterEncode(pool: seq<Option<CpInfo>>, a: AttributeInfo, rest: seq<u8>)
    requires AttributeEncodable(a) && WellFormedAttribute(a) && NamesResolve(pool, a)
    ensures ParseAttribute(pool, EncodeAttribute(a) + rest) == Ok(Parsed(a, rest))
    decreases a, 1
  {
    match a {
      case SourceFile(_, _, _) => IndexAttributeAfterEncode(pool, a, rest);
      case ConstantValue(_, _, _) => IndexAttributeAfterEncode(pool, a, rest);
      case Code(_, _, _, _, _, _, _, _, _, _) => CodeAfterEncode(pool, a, rest);
      case Exceptions(_, _, _, _) => ExceptionsAfterEncode(pool, a, rest);
      case LineNumberTable(_, _, _, _) => LineNumberTableAfterEncode(pool, a, rest);
      case LocalVariableTable(_, _, _, _) => LocalVariableTableAfterEncode(pool, a, rest);
    }
  }

  /** A list of such attributes is read back as itself. */
  lemma {:induction false} AttributesAfterEncode(pool: seq<Option<CpInfo>>, attrs: seq<AttributeInfo>, rest: seq<u8>)
    requires AttributesEncodable(attrs) && WellFormedAttributes(attrs) && AllNamesResolve(pool, attrs)
    ensures ParseAttributeList(pool, EncodeAttributes(attrs) + rest, |attrs|) == Ok(Parsed(attrs, rest))
    decreases attrs, 0
  {
    if attrs == [] {
      assert EncodeAttributes(attrs) + rest == rest;
    } else {
      var n := |attrs| - 1;
      var t := EncodeAttribute(attrs[n]) + rest;
      EncodeAttributesPrefix(attrs, n);
      assert attrs[..n + 1] == attrs;
      AppendAssoc(EncodeAttributes(attrs[..n]), EncodeAttribute(attrs[n]), rest);
      assert WellFormedAttributes(attrs[..n]) && AllNamesResolve(pool, attrs[..n]);
      AttributesAfterEncode(pool, attrs[..n], t);
      AttributeAfterEncode(pool, attrs[n], rest);
      LastSplit(attrs);
    }
  }

  // ---------------------------------------------------------------------
  // Fields, methods and the class file
  // ---------------------------------------------------------------------

  /** A field or method with its attributes. */
  function ParseMember(pool: seq<Option<CpInfo>>, s: seq<u8>): Result<Parsed<MemberInfo>> {
    var accessFlags :- ReadU16(s);
    var nameIndex :- ReadU16(accessFlags.rest);
    var descriptorIndex :- ReadU16(nameIndex.rest);
    var attributesCount :- ReadU16(descriptorIndex.rest);
    var attributes :- ParseAttributeList(pool, attributesCount.rest, attributesCount.value as nat);
    Ok(Parsed(MemberInfo(accessFlags.value, nameIndex.value, descriptorIndex.value,
                         attributesCount.value, attributes.value), attributes.rest))
  }

  /** `ParseMember` against a fixed pool, as an item parser for `ParseSeq`. */
  function MemberParser(pool: seq<Option<CpInfo>>): seq<u8> -> Result<Parsed<MemberInfo>> {
    s => ParseMember(pool, s)
  }

  /** The member's four 16-bit fields, regrouped from the right. */
  lemma MemberSections(m: MemberInfo, rest: seq<u8>)
    requires AttributesEncodable(m.attributes)
    ensures EncodeMember(m) + rest
         == EncodeU16(m.accessFlags) + (EncodeU16(m.nameIndex) + (EncodeU16(m.descriptorIndex)
          + (EncodeU16(m.attributesCount) + (EncodeAttributes(m.attributes) + rest))))
  {
    var a := EncodeU16(m.accessFlags);
    var n := EncodeU16(m.nameIndex);
    var d := EncodeU16(m.descriptorIndex);
    var c := EncodeU16(m.attributesCount);
    var t := EncodeAttributes(m.attributes) + rest;
    AppendAssoc(a + n + d + c, EncodeAttributes(m.attributes), rest);
    AppendAssoc(a + n + d, c, t);
    AppendAssoc(a + n, d, c + t);
    AppendAssoc(a, n, d + (c + t));
  }

  lemma MemberAfterEncode(pool: seq<Option<CpInfo>>, m: MemberInfo, rest: seq<u8>)
    requires WellFormedMember(m) && AttributesEncodable(m.attributes) && AllNamesResolve(pool, m.attributes)
    ensures ParseMember(pool, EncodeMember(m) + rest) == Ok(Parsed(m, rest))
  {
    var t := EncodeAttributes(m.attributes) + rest;
    var s3 := EncodeU16(m.attributesCount) + t;
    var s2 := EncodeU16(m.descriptorIndex) + s3;
    var s1 := EncodeU16(m.nameIndex) + s2;
    MemberSections(m, rest);
    ReadU16AfterWrite(m.accessFlags, s1);
    ReadU16AfterWrite(m.nameIndex, s2);
    ReadU16AfterWrite(m.descriptorIndex, s3);
    ReadU16AfterWrite(m.attributesCount, t);
    AttributesAfterEncode(pool, m.attributes, rest);
  }

  /** Every member's attributes resolve their names in the pool. */
  predicate MembersResolve(pool: seq<Option<CpInfo>>, ms: seq<MemberInfo>) {
    forall i :: 0 <= i < |ms| ==> AllNamesResolve(pool, ms[i].attributes)
  }

  lemma {:induction false} MembersAfterEncode(pool: seq<Option<CpInfo>>, ms: seq<MemberInfo>, rest: seq<u8>)
    requires MembersEncodable(ms) && MembersResolve(pool, ms)
    requires forall i :: 0 <= i < |ms| ==> WellFormedMember(ms[i])
    ensures ParseSeq(MemberParser(pool), EncodeMembers(ms) + rest, |ms|) == Ok(Parsed(ms, rest))
  {
    if ms == [] {
      assert EncodeMembers(ms) + rest == rest;
    } else {
      var n := |ms| - 1;
      var t := EncodeMember(ms[n]) + rest;
      var s := EncodeMembers(ms) + rest;
      EncodeMembersPrefix(ms, n);
      assert ms[..n + 1] == ms;
      AppendAssoc(EncodeMembers(ms[..n]), EncodeMember(ms[n]), rest);
      assert MembersResolve(pool, ms[..n]);
      MembersAfterEncode(pool, ms[..n], t);
      MemberAfterEncode(pool, ms[n], rest);
      ParseSeqStep(MemberParser(pool), s, n, Parsed(ms[..n], t), Parsed(ms[n], rest));
      LastSplit(ms);
    }
  }

  /**
   * The class file in the order of section 4.1 of the JVM Specification,
   * the pool read slot by slot, `super_class` with the adjustment undone,
   * and fields, methods and the class's own attributes with their
   * attributes, named through the pool just read.
   */
  function ParseClassFile(s: seq<u8>): Result<Parsed<ClassFile>> {
    var magic :- ReadU32(s);
    var minorVersion :- ReadU16(magic.rest);
    var majorVersion :- ReadU16(minorVersion.rest);
    var constantPoolCount :- ReadU16(majorVersion.rest);
    var constantPool :- ParsePool(constantPoolCount.rest, constantPoolCount.value);
    var pool := constantPool.value;
    var accessFlags :- ReadU16(constantPool.rest);
    var thisClass :- ReadU16(accessFlags.rest);
    var superClass :- ParseBumped(thisClass.rest);
    var interfacesCount :- ReadU16(superClass.rest);
    var interfaces :- ParseSeq(ReadU16, interfacesCount.rest, interfacesCount.value as nat);
    var fieldsCount :- ReadU16(interfaces.rest);
    var fields :- ParseSeq(MemberParser(pool), fieldsCount.rest, fieldsCount.value as nat);
    var methodsCount :- ReadU16(fields.rest);
    var methods :- ParseSeq(MemberParser(pool), methodsCount.rest, methodsCount.value as nat);
    var attributesCount :- ReadU16(methods.rest);
    var attributes :- ParseAttributeList(pool, attributesCount.rest, attributesCount.value as nat);
    Ok(Parsed(ClassFile(magic.value, minorVersion.value, majorVersion.value,
                        constantPoolCount.value, pool,
                        accessFlags.value, thisClass.value, superClass.value,
                        interfacesCount.value, interfaces.value,
                        fieldsCount.value, fields.value,
                        methodsCount.value, methods.value,
                        attributesCount.value, attributes.value), attributes.rest))
  }

  /**
   * What the round trip asks of a class file: it is well formed, the
   * encoder can write it, and every attribute, nested or not, is named
   * through its pool by the name of its kind.
   */
  predicate Decodable(cf: ClassFile) {
    && WellFormedClassFile(cf)
    && Encodable(cf)
    && MembersResolve(cf.constantPool, cf.fields)
    && MembersResolve(cf.constantPool, cf.methods)
    && AllNamesResolve(cf.constantPool, cf.attributes)
  }

  /** The encoder's sections of a class file, regrouped from the right. */
  lemma ClassFileSections(cf: ClassFile, rest: seq<u8>)
    requires Encodable(cf) && cf.interfacesCount as int == |cf.interfaces|
    ensures EncodeClassFile(cf) + rest
         == EncodeU32(cf.magic) + (EncodeU16(cf.minorVersion) + (EncodeU16(cf.majorVersion)
          + (EncodeU16(cf.constantPoolCount) + (EncodePool(cf.constantPool)
          + (EncodeU16(cf.accessFlags) + (EncodeU16(cf.thisClass) + (EncodeU16(Bump(cf.superClass))
          + (EncodeU16(cf.interfacesCount) + (EncodeU16s(cf.interfaces)
          + (EncodeU16(cf.fieldsCount) + (EncodeMembers(cf.fields)
          + (EncodeU16(cf.methodsCount) + (EncodeMembers(cf.methods)
          + (EncodeU16(cf.attributesCount) + (EncodeAttributes(cf.attributes) + rest)))))))))))))))
  {
    var s15 := EncodeAttributes(cf.attributes) + rest;
    var s14 := EncodeU16(cf.attributesCount) + s15;
    var s13 := EncodeMembers(cf.methods) + s14;
    var s12 := EncodeU16(cf.methodsCount) + s13;
    var s11 := EncodeMembers(cf.fields) + s12;
    var s10 := EncodeU16(cf.fieldsCount) + s11;
    var s9 := EncodeU16s(cf.interfaces) + s10;
    var s8 := EncodeU16(cf.interfacesCount) + s9;
    var s7 := EncodeU16(Bump(cf.superClass)) + s8;
    var s6 := EncodeU16(cf.thisClass) + s7;
    var s5 := EncodeU16(cf.accessFlags) + s6;
    var s4 := EncodePool(cf.constantPool) + s5;
    var s3 := EncodeU16(cf.constantPoolCount) + s4;
    var s2 := EncodeU16(cf.majorVersion) + s3;
    var h := EncodeHeader(cf);
    var p := EncodeU16(cf.constantPoolCount) + EncodePool(cf.constantPool);
    var r := EncodeClassRefs(cf);
    var i := EncodeInterfaces(cf);
    var f := EncodeU16(cf.fieldsCount) + EncodeMembers(cf.fields);
    var m := EncodeU16(cf.methodsCount) + EncodeMembers(cf.methods);
    var a := EncodeU16(cf.attributesCount) + EncodeAttributes(cf.attributes);
    AppendAssoc(h + p + r + i + f + m, a, rest);
    AppendAssoc(EncodeU16(cf.attributesCount), EncodeAttributes(cf.attributes), rest);
    AppendAssoc(h + p + r + i + f, m, s14);
    AppendAssoc(EncodeU16(cf.methodsCount), EncodeMembers(cf.methods), s14);
    AppendAssoc(h + p + r + i, f, s12);
    AppendAssoc(EncodeU16(cf.fieldsCount), EncodeMembers(cf.fields), s12);
    AppendAssoc(h + p + r, i, s10);
    assert cf.interfaces[..cf.interfacesCount] == cf.interfaces;
    AppendAssoc(EncodeU16(cf.interfacesCount), EncodeU16s(cf.interfaces), s10);
    AppendAssoc(h + p, r, s8);
    AppendAssoc(EncodeU16(cf.accessFlags) + EncodeU16(cf.thisClass), EncodeU16(Bump(cf.superClass)), s8);
    AppendAssoc(EncodeU16(cf.accessFlags), EncodeU16(cf.thisClass), s7);
    AppendAssoc(h, p, s5);
    AppendAssoc(EncodeU16(cf.constantPoolCount), EncodePool(cf.constantPool), s5);
    AppendAssoc(EncodeU32(cf.magic) + EncodeU16(cf.minorVersion), EncodeU16(cf.majorVersion), s3);
    AppendAssoc(EncodeU32(cf.magic), EncodeU16(cf.minorVersion), s2);
  }

  /** `ParseClassFile` reads its parts one after the other. */
  lemma ClassFileSteps(cf: ClassFile, t0: seq<u8>, t1: seq<u8>, t2: seq<u8>, t3: seq<u8>,
                       t4: seq<u8>, t5: seq<u8>, t6: seq<u8>, t7: seq<u8>,
                       t8: seq<u8>, t9: seq<u8>, t10: seq<u8>, t11: seq<u8>,
                       t12: seq<u8>, t13: seq<u8>, t14: seq<u8>, t15: seq<u8>, t16: seq<u8>)
    requires ReadU32(t0) == Ok(Parsed(cf.magic, t1))
    requires ReadU16(t1) == Ok(Parsed(cf.minorVersion, t2))
    requires ReadU16(t2) == Ok(Parsed(cf.majorVersion, t3))
    requires ReadU16(t3) == Ok(Parsed(cf.constantPoolCount, t4))
    requires ParsePool(t4, cf.constantPoolCount) == Ok(Parsed(cf.constantPool, t5))
    requires ReadU16(t5) == Ok(Parsed(cf.accessFlags, t6))
    requires ReadU16(t6) == Ok(Parsed(cf.thisClass, t7))
    requires ParseBumped(t7) == Ok(Parsed(cf.superClass, t8))
    requires ReadU16(t8) == Ok(Parsed(cf.interfacesCount, t9))
    requires ParseSeq(ReadU16, t9, cf.interfacesCount as nat) == Ok(Parsed(cf.interfaces, t10))
    requires ReadU16(t10) == Ok(Parsed(cf.fieldsCount, t11))
    requires ParseSeq(MemberParser(cf.constantPool), t11, cf.fieldsCount as nat) == Ok(Parsed(cf.fields, t12))
    requires ReadU16(t12) == Ok(Parsed(cf.methodsCount, t13))
    requires ParseSeq(MemberParser(cf.constantPool), t13, cf.methodsCount as nat) == Ok(Parsed(cf.methods, t14))
    requires ReadU16(t14) == Ok(Parsed(cf.attributesCount, t15))
    requires ParseAttributeList(cf.constantPool, t15, cf.attributesCount as nat) == Ok(Parsed(cf.attributes, t16))
    ensures ParseClassFile(t0) == Ok(Parsed(cf, t16))
  {
  }

  /** The reads of `ParseClassFile` over the encoder's sections, each given with what follows it. */
  lemma ClassFileSectionsRead(cf: ClassFile, t0: seq<u8>, t1: seq<u8>, t2: seq<u8>, t3: seq<u8>,
                              t4: seq<u8>, t5: seq<u8>, t6: seq<u8>, t7: seq<u8>,
                              t8: seq<u8>, t9: seq<u8>, t10: seq<u8>, t11: seq<u8>,
                              t12: seq<u8>, t13: seq<u8>, t14: seq<u8>, t15: seq<u8>, t16: seq<u8>)
    requires Decodable(cf)
    requires t0 == EncodeU32(cf.magic) + t1
    requires t1 == EncodeU16(cf.minorVersion) + t2
    requires t2 == EncodeU16(cf.majorVersion) + t3
    requires t3 == EncodeU16(cf.constantPoolCount) + t4
    requires t4 == EncodePool(cf.constantPool) + t5
    requires t5 == EncodeU16(cf.accessFlags) + t6
    requires t6 == EncodeU16(cf.thisClass) + t7
    requires t7 == EncodeU16(Bump(cf.superClass)) + t8
    requires t8 == EncodeU16(cf.interfacesCount) + t9
    requires t9 == EncodeU16s(cf.interfaces) + t10
    requires t10 == EncodeU16(cf.fieldsCount) + t11
    requires t11 == EncodeMembers(cf.fields) + t12
    requires t12 == EncodeU16(cf.methodsCount) + t13
    requires t13 == EncodeMembers(cf.methods) + t14
    requires t14 == EncodeU16(cf.attributesCount) + t15
    requires t15 == EncodeAttributes(cf.attributes) + t16
    ensures ParseClassFile(t0) == Ok(Parsed(cf, t16))
  {
    ReadU32AfterWrite(cf.magic, t1);
    ReadU16AfterWrite(cf.minorVersion, t2);
    ReadU16AfterWrite(cf.majorVersion, t3);
    ReadU16AfterWrite(cf.constantPoolCount, t4);
    PoolAfterEncode(cf.constantPoolCount, cf.constantPool, t5);
    ReadU16AfterWrite(cf.accessFlags, t6);
    ReadU16AfterWrite(cf.thisClass, t7);
    ParseBumpedAfterEncode(cf.superClass, t8);
    ReadU16AfterWrite(cf.interfacesCount, t9);
    ParseU16sAfterEncode(cf.interfaces, t10);
    ReadU16AfterWrite(cf.fieldsCount, t11);
    MembersAfterEncode(cf.constantPool, cf.fields, t12);
    ReadU16AfterWrite(cf.methodsCount, t13);
    MembersAfterEncode(cf.constantPool, cf.methods, t14);
    ReadU16AfterWrite(cf.attributesCount, t15);
    AttributesAfterEncode(cf.constantPool, cf.attributes, t16);
    ClassFileSteps(cf, t0, t1, t2, t3, t4, t5, t6, t7, t8, t9, t10, t11, t12, t13, t14, t15, t16);
  }

  /**
   * The round trip: every class file the encoder can write, well formed and
   * with its attributes named through its pool, is read back as itself,
   * pool slots, `super_class` and attributes included, and reading stops
   * right after it.
   */
  lemma RoundTrip(cf: ClassFile, rest: seq<u8>)
    requires Decodable(cf)
    ensures ParseClassFile(EncodeClassFile(cf) + rest) == Ok(Parsed(cf, rest))
  {
    var s15 := EncodeAttributes(cf.attributes) + rest;
    var s14 := EncodeU16(cf.attributesCount) + s15;
    var s13 := EncodeMembers(cf.methods) + s14;
    var s12 := EncodeU16(cf.methodsCount) + s13;
    var s11 := EncodeMembers(cf.fields) + s12;
    var s10 := EncodeU16(cf.fieldsCount) + s11;
    var s9 := EncodeU16s(cf.interfaces) + s10;
    var s8 := EncodeU16(cf.interfacesCount) + s9;
    var s7 := EncodeU16(Bump(cf.superClass)) + s8;
    var s6 := EncodeU16(cf.thisClass) + s7;
    var s5 := EncodeU16(cf.accessFlags) + s6;
    var s4 := EncodePool(cf.constantPool) + s5;
    var s3 := EncodeU16(cf.constantPoolCount) + s4;
    var s2 := EncodeU16(cf.majorVersion) + s3;
    var s1 := EncodeU16(cf.minorVersion) + s2;
    var s0 := EncodeU32(cf.magic) + s1;
    ClassFileSections(cf, rest);
    ClassFileSectionsRead(cf, s0, s1, s2, s3, s4, s5, s6, s7, s8, s9, s10, s11, s12, s13, s14, s15, rest);
  }

  // ---------------------------------------------------------------------
  // Reading, then writing back
  // ---------------------------------------------------------------------

  /** A MethodHandle entry read back: the kind byte, then the reference index. */
  lemma MethodHandleReadThenWrite(s: seq<u8>)
    requires ParseEntry(s).Ok? && s[0] == CONSTANT_METHODHANDLE
    ensures s == EncodeCpInfo(ParseEntry(s).value.value) + ParseEntry(s).value.rest
  {
    var t := s[1..];
    var k := ReadU8(t).value;
    var i := ReadU16(k.rest).value;
    assert ParseEntry(s).value == Parsed(MethodHandleInfo(s[0], k.value, i.value), i.rest);
    assert t == EncodeU8(k.value) + EncodeU16(i.value) + i.rest by {
      WriteAfterReadU8(t);
      WriteAfterReadU16(k.rest);
      AppendAssoc(EncodeU8(k.value), EncodeU16(i.value), i.rest);
    }
    TagThen(s, EncodeU8(k.value) + EncodeU16(i.value), i.rest);
  }

  /** A MethodType, Module or Package entry read back: one 16-bit index. */
  lemma ExtendedSingleReadThenWrite(s: seq<u8>)
    requires ParseEntry(s).Ok?
    requires s[0] == CONSTANT_METHODTYPE || s[0] == CONSTANT_MODULE || s[0] == CONSTANT_PACKAGE
    ensures s == EncodeCpInfo(ParseEntry(s).value.value) + ParseEntry(s).value.rest
  {
    var t := s[1..];
    var a := ReadU16(t).value;
    assert ParseEntry(s).value.rest == a.rest;
    assert EncodeCpInfo(ParseEntry(s).value.value) == [s[0]] + EncodeU16(a.value);
    WriteAfterReadU16(t);
    TagThen(s, EncodeU16(a.value), a.rest);
  }

  /** A Dynamic or InvokeDynamic entry read back: two 16-bit indices. */
  lemma ExtendedPairReadThenWrite(s: seq<u8>)
    requires ParseEntry(s).Ok?
    requires s[0] == CONSTANT_DYNAMIC || s[0] == CONSTANT_INVOKEDYNAMIC
    ensures s == EncodeCpInfo(ParseEntry(s).value.value) + ParseEntry(s).value.rest
  {
    var t := s[1..];
    var a := ReadU16(t).value;
    var b := ReadU16(a.rest).value;
    assert ParseEntry(s).value.rest == b.rest;
    assert EncodeCpInfo(ParseEntry(s).value.value) == [s[0]] + (EncodeU16(a.value) + EncodeU16(b.value));
    U16PairReadThenWrite(t);
    TagThen(s, EncodeU16(a.value) + EncodeU16(b.value), b.rest);
  }

  /** Whatever entry is read, of any of the seventeen kinds, is written back as the bytes consumed. */
  lemma EntryReadThenWrite(s: seq<u8>)
    ensures ParseEntry(s).Ok? ==> s == EncodeCpInfo(ParseEntry(s).value.value) + ParseEntry(s).value.rest
  {
    if ParseEntry(s).Ok? {
      var tag := s[0];
      if tag == CONSTANT_METHODHANDLE {
        MethodHandleReadThenWrite(s);
      } else if tag == CONSTANT_METHODTYPE || tag == CONSTANT_MODULE || tag == CONSTANT_PACKAGE {
        ExtendedSingleReadThenWrite(s);
      } else if tag == CONSTANT_DYNAMIC || tag == CONSTANT_INVOKEDYNAMIC {
        ExtendedPairReadThenWrite(s);
      } else {
        assert ParseEntry(s) == ParseCpInfo(s);
        CpInfoReadThenWrite(s);
      }
    }
  }

  /** One more slot written after a run of slots. */
  lemma SlotWritten(s: seq<u8>, slots: seq<Option<CpInfo>>, t: seq<u8>, slot: Option<CpInfo>, rest: seq<u8>)
    requires s == EncodePool(slots) + t && t == EncodeSlot(slot) + rest
    ensures s == EncodePool(slots + [slot]) + rest
  {
    assert (slots + [slot])[..|slots|] == slots;
    AppendAssoc(EncodePool(slots), EncodeSlot(slot), rest);
  }

  /** The slot after a run of slots read back is written back after them. */
  lemma SlotReadThenWrite(s: seq<u8>, n: nat)
    requires n >= 2
    requires ParseSlots(s, n - 1).Ok? ==>
      s == EncodePool(ParseSlots(s, n - 1).value.value) + ParseSlots(s, n - 1).value.rest
    ensures ParseSlots(s, n).Ok? ==> s == EncodePool(ParseSlots(s, n).value.value) + ParseSlots(s, n).value.rest
  {
    if ParseSlots(s, n).Ok? {
      var p := ParseSlots(s, n - 1).value;
      if IsWideSlot(p.value[n - 2]) {
        assert ParseSlots(s, n) == Ok(Parsed(p.value + [None], p.rest));
        SlotWritten(s, p.value, p.rest, None, p.rest);
      } else {
        var e := ParseEntry(p.rest).value;
        assert ParseSlots(s, n) == Ok(Parsed(p.value + [Some(e.value)], e.rest));
        assert p.rest == EncodeCpInfo(e.value) + e.rest by { EntryReadThenWrite(p.rest); }
        SlotWritten(s, p.value, p.rest, Some(e.value), e.rest);
      }
    }
  }

  /** Slot 0 is read as empty, from no bytes, and is written as no bytes. */
  lemma FirstSlotReadThenWrite(s: seq<u8>, n: nat)
    requires n == 1
    ensures ParseSlots(s, n) == Ok(Parsed([None], s))
    ensures s == EncodePool(ParseSlots(s, n).value.value) + ParseSlots(s, n).value.rest
  {
    var none: seq<Option<CpInfo>> := [None];
    assert none[..0] == [];
    assert EncodePool(none) == [];
  }

  /** Whatever leading slots are read are written back as the bytes consumed. */
  lemma {:induction false} SlotsReadThenWrite(s: seq<u8>, n: nat, slots: seq<Option<CpInfo>>, rest: seq<u8>)
    requires n >= 1 && ParseSlots(s, n) == Ok(Parsed(slots, rest))
    ensures s == EncodePool(slots) + rest
  {
    if n == 1 {
      FirstSlotReadThenWrite(s, n);
    } else {
      var p := ParseSlots(s, n - 1).value;
      SlotsReadThenWrite(s, n - 1, p.value, p.rest);
      SlotReadThenWrite(s, n);
    }
  }

  /**
   * Every pool `ParsePool` accepts is well formed, and written back it is
   * exactly the bytes that were read; a count of 0 is an error.
   */
  lemma PoolReadThenWrite(s: seq<u8>, count: u16)
    ensures count == 0 ==> ParsePool(s, count) == Err(CountUnderflow)
    ensures ParsePool(s, count).Ok? ==>
      var p := ParsePool(s, count).value;
      WellFormedPool(count, p.value) && s == EncodePool(p.value) + p.rest
  {
    if count > 0 {
      ParsedSlotsShape(s, count as nat);
      if ParsePool(s, count).Ok? {
        SlotsReadThenWrite(s, count as nat, ParsePool(s, count).value.value, ParsePool(s, count).value.rest);
      }
    }
  }

  /** An adjusted index read back is one the encoder can adjust, and writes as the bytes read. */
  lemma BumpedReadThenWrite(s: seq<u8>)
    ensures ParseBumped(s).Ok? ==>
      var p := ParseBumped(s).value;
      p.value != 0xFFFF && s == EncodeU16(Bump(p.value)) + p.rest
  {
    WriteAfterReadU16(s);
  }

  lemma HandlerReadThenWrite(s: seq<u8>)
    ensures ParseHandler(s).Ok? ==>
      var p := ParseHandler(s).value;
      p.value.catchType != 0xFFFF && s == EncodeHandler(p.value) + p.rest
  {
    if ParseHandler(s).Ok? {
      var h := ParseHandler(s).value.value;
      var rest := ParseHandler(s).value.rest;
      var a := ReadU16(s).value;
      var b := ReadU16(a.rest).value;
      var c := ReadU16(b.rest).value;
      WriteAfterReadU16(s);
      WriteAfterReadU16(a.rest);
      WriteAfterReadU16(b.rest);
      BumpedReadThenWrite(c.rest);
      var t3 := EncodeU16(Bump(h.catchType)) + rest;
      AppendAssoc(EncodeU16(h.startPc) + EncodeU16(h.endPc) + EncodeU16(h.handlerPc), EncodeU16(Bump(h.catchType)), rest);
      AppendAssoc(EncodeU16(h.startPc) + EncodeU16(h.endPc), EncodeU16(h.handlerPc), t3);
      AppendAssoc(EncodeU16(h.startPc), EncodeU16(h.endPc), EncodeU16(h.handlerPc) + t3);
    }
  }

  lemma LineNumberReadThenWrite(s: seq<u8>)
    ensures ParseLineNumber(s).Ok? ==>
      var p := ParseLineNumber(s).value;
      s == EncodeU16(p.value.startPc) + EncodeU16(p.value.lineNumber) + p.rest
  {
    if ParseLineNumber(s).Ok? {
      var a := ReadU16(s).value;
      WriteAfterReadU16(s);
      WriteAfterReadU16(a.rest);
      AppendAssoc(EncodeU16(a.value), EncodeU16(ReadU16(a.rest).value.value), ReadU16(a.rest).value.rest);
    }
  }

  lemma LocalVariableReadThenWrite(s: seq<u8>)
    ensures ParseLocalVariable(s).Ok? ==>
      var p := ParseLocalVariable(s).value;
      s == EncodeLocalVariable(p.value) + p.rest
  {
    if ParseLocalVariable(s).Ok? {
      var v := ParseLocalVariable(s).value.value;
      var rest := ParseLocalVariable(s).value.rest;
      var a := ReadU16(s).value;
      var b := ReadU16(a.rest).value;
      var c := ReadU16(b.rest).value;
      var d := ReadU16(c.rest).value;
      WriteAfterReadU16(s);
      WriteAfterReadU16(a.rest);
      WriteAfterReadU16(b.rest);
      WriteAfterReadU16(c.rest);
      WriteAfterReadU16(d.rest);
      var t4 := EncodeU16(v.index) + rest;
      var t3 := EncodeU16(v.descriptorIndex) + t4;
      var t2 := EncodeU16(v.nameIndex) + t3;
      var x := EncodeU16(v.startPc);
      AppendAssoc(x + EncodeU16(v.length) + EncodeU16(v.nameIndex) + EncodeU16(v.descriptorIndex), EncodeU16(v.index), rest);
      AppendAssoc(x + EncodeU16(v.length) + EncodeU16(v.nameIndex), EncodeU16(v.descriptorIndex), t4);
      AppendAssoc(x + EncodeU16(v.length), EncodeU16(v.nameIndex), t3);
      AppendAssoc(x, EncodeU16(v.length), t2);
    }
  }

  /** One more handler written after a run of handlers. */
  lemma HandlerWritten(s: seq<u8>, et: seq<ExceptionHandler>, t: seq<u8>, h: ExceptionHandler, rest: seq<u8>)
    requires forall i :: 0 <= i < |et| ==> et[i].catchType != 0xFFFF
    requires h.catchType != 0xFFFF
    requires s == EncodeHandlers(et) + t && t == EncodeHandler(h) + rest
    ensures forall i :: 0 <= i < |et + [h]| ==> (et + [h])[i].catchType != 0xFFFF
    ensures s == EncodeHandlers(et + [h]) + rest
  {
    var all := et + [h];
    assert forall i :: 0 <= i < |all| ==> all[i].catchType != 0xFFFF by {
      forall i | 0 <= i < |all|
        ensures all[i].catchType != 0xFFFF
      {
        if i < |et| {
          assert all[i] == et[i];
        }
      }
    }
    EncodeHandlersPrefix(all, |et|);
    assert all[..|et|] == et && all[..|et| + 1] == all;
    AppendAssoc(EncodeHandlers(et), EncodeHandler(h), rest);
  }

  lemma {:induction false} HandlersReadThenWrite(s: seq<u8>, n: nat, et: seq<ExceptionHandler>, rest: seq<u8>)
    requires ParseSeq(ParseHandler, s, n) == Ok(Parsed(et, rest))
    ensures forall i :: 0 <= i < |et| ==> et[i].catchType != 0xFFFF
    ensures s == EncodeHandlers(et) + rest
  {
    if n > 0 {
      ParseSeqLast(ParseHandler, s, n);
      var p := ParseSeq(ParseHandler, s, n - 1).value;
      var x := ParseHandler(p.rest).value;
      HandlersReadThenWrite(s, n - 1, p.value, p.rest);
      assert x.value.catchType != 0xFFFF && p.rest == EncodeHandler(x.value) + x.rest by {
        HandlerReadThenWrite(p.rest);
      }
      HandlerWritten(s, p.value, p.rest, x.value, x.rest);
    } else {
      assert et == [] && rest == s;
    }
  }

  lemma {:induction false} ExceptionIndexTableReadThenWrite(s: seq<u8>, n: nat)
    ensures ParseSeq(ParseBumped, s, n).Ok? ==>
      var p := ParseSeq(ParseBumped, s, n).value;
      && (forall i :: 0 <= i < |p.value| ==> p.value[i] != 0xFFFF)
      && s == EncodeExceptionIndexTable(p.value) + p.rest
  {
    if n > 0 && ParseSeq(ParseBumped, s, n).Ok? {
      ExceptionIndexTableReadThenWrite(s, n - 1);
      var p := ParseSeq(ParseBumped, s, n - 1).value;
      var x := ParseBumped(p.rest).value;
      var table := p.value + [x.value];
      assert ParseSeq(ParseBumped, s, n).value == Parsed(table, x.rest);
      BumpedReadThenWrite(p.rest);
      EncodeExceptionIndexTablePrefix(table, n - 1);
      assert table[..n - 1] == p.value && table[..n] == table;
      AppendAssoc(EncodeExceptionIndexTable(p.value), EncodeU16(Bump(x.value)), x.rest);
    }
  }

  lemma {:induction false} LineNumbersReadThenWrite(s: seq<u8>, n: nat)
    ensures ParseSeq(ParseLineNumber, s, n).Ok? ==>
      var p := ParseSeq(ParseLineNumber, s, n).value;
      s == EncodeLineNumbers(p.value) + p.rest
  {
    if n > 0 && ParseSeq(ParseLineNumber, s, n).Ok? {
      LineNumbersReadThenWrite(s, n - 1);
      var p := ParseSeq(ParseLineNumber, s, n - 1).value;
      var x := ParseLineNumber(p.rest).value;
      var table := p.value + [x.value];
      assert ParseSeq(ParseLineNumber, s, n).value == Parsed(table, x.rest);
      LineNumberReadThenWrite(p.rest);
      EncodeLineNumbersPrefix(table, n - 1);
      assert table[..n - 1] == p.value && table[..n] == table;
      AppendAssoc(EncodeLineNumbers(p.value), EncodeU16(x.value.startPc) + EncodeU16(x.value.lineNumber), x.rest);
    }
  }

  lemma {:induction false} LocalVariablesReadThenWrite(s: seq<u8>, n: nat)
    ensures ParseSeq(ParseLocalVariable, s, n).Ok? ==>
      var p := ParseSeq(ParseLocalVariable, s, n).value;
      s == EncodeLocalVariables(p.value) + p.rest
  {
    if n > 0 && ParseSeq(ParseLocalVariable, s, n).Ok? {
      LocalVariablesReadThenWrite(s, n - 1);
      var p := ParseSeq(ParseLocalVariable, s, n - 1).value;
      var x := ParseLocalVariable(p.rest).value;
      var table := p.value + [x.value];
      assert ParseSeq(ParseLocalVariable, s, n).value == Parsed(table, x.rest);
      LocalVariableReadThenWrite(p.rest);
      EncodeLocalVariablesPrefix(table, n - 1);
      assert table[..n - 1] == p.value && table[..n] == table;
      AppendAssoc(EncodeLocalVariables(p.value), EncodeLocalVariable(x.value), x.rest);
    }
  }

  /**
   * Whatever attribute is read is one the encoder can write, and written
   * back it is exactly the bytes that were read.
   */
  lemma {:induction false} AttributeReadThenWrite(pool: seq<Option<CpInfo>>, s: seq<u8>)
    ensures ParseAttribute(pool, s).Ok? ==>
      var p := ParseAttribute(pool, s).value;
      AttributeEncodable(p.value) && s == EncodeAttribute(p.value) + p.rest
    decreases |s|, 0
  {
    if ParseAttribute(pool, s).Ok? {
      var name := ReadU16(s).value;
      var len := ReadU32(name.rest).value;
      var kind := NamedKind(pool, name.value).value;
      WriteAfterReadU16(s);
      WriteAfterReadU32(name.rest);
      AppendAssoc(EncodeU16(name.value), EncodeU32(len.value), len.rest);
      PayloadReadThenWrite(pool, kind, name.value, len.value, len.rest);
    }
  }

  lemma {:induction false} AttributeListReadThenWrite(pool: seq<Option<CpInfo>>, s: seq<u8>, n: nat)
    ensures ParseAttributeList(pool, s, n).Ok? ==>
      var p := ParseAttributeList(pool, s, n).value;
      AttributesEncodable(p.value) && s == EncodeAttributes(p.value) + p.rest
    decreases |s|, n
  {
    if n > 0 && ParseAttributeList(pool, s, n).Ok? {
      AttributeListReadThenWrite(pool, s, n - 1);
      var p := ParseAttributeList(pool, s, n - 1).value;
      var x := ParseAttribute(pool, p.rest).value;
      var attrs := p.value + [x.value];
      assert ParseAttributeList(pool, s, n).value == Parsed(attrs, x.rest);
      AttributeReadThenWrite(pool, p.rest);
      assert attrs[..n - 1] == p.value && attrs[n - 1] == x.value;
      assert AttributesEncodable(attrs);
      EncodeAttributesPrefix(attrs, n - 1);
      assert attrs[..n] == attrs;
      AppendAssoc(EncodeAttributes(p.value), EncodeAttribute(x.value), x.rest);
    }
  }

  /**
   * A payload read after its name index and length: with that header in
   * front, it is the attribute's encoding.
   */
  lemma {:induction false} PayloadReadThenWrite(pool: seq<Option<CpInfo>>, kind: AttrKind, name: u16, len: u32, s: seq<u8>)
    ensures ParsePayload(pool, kind, name, len, s).Ok? ==>
      var p := ParsePayload(pool, kind, name, len, s).value;
      AttributeEncodable(p.value) && EncodeU16(name) + EncodeU32(len) + s == EncodeAttribute(p.value) + p.rest
    decreases |s|, 1
  {
    if ParsePayload(pool, kind, name, len, s).Ok? {
      var p := ParsePayload(pool, kind, name, len, s).value;
      var h, l := EncodeU16(name), EncodeU32(len);
      WriteAfterReadU16(s);
      match kind {
        case SourceFileKind =>
          AppendAssoc(h + l, EncodeU16(ReadU16(s).value.value), p.rest);
        case ConstantValueKind =>
          AppendAssoc(h + l, EncodeU16(ReadU16(s).value.value), p.rest);
        case CodeKind =>
          CodeReadThenWrite(pool, name, len, s);
        case ExceptionsKind =>
          var c := ReadU16(s).value;
          ExceptionIndexTableReadThenWrite(c.rest, c.value as nat);
          var table := EncodeExceptionIndexTable(p.value.exceptionIndexTable);
          FourPieces(h, l, EncodeU16(c.value), table, p.rest);
          AppendAssoc(h, l, s);
        case LineNumberTableKind =>
          var c := ReadU16(s).value;
          LineNumbersReadThenWrite(c.rest, c.value as nat);
          var table := EncodeLineNumbers(p.value.lineNumberTable);
          FourPieces(h, l, EncodeU16(c.value), table, p.rest);
          AppendAssoc(h, l, s);
        case LocalVariableTableKind =>
          var c := ReadU16(s).value;
          LocalVariablesReadThenWrite(c.rest, c.value as nat);
          var table := EncodeLocalVariables(p.value.localVariableTable);
          FourPieces(h, l, EncodeU16(c.value), table, p.rest);
          AppendAssoc(h, l, s);
      }
    }
  }

  /** The parts of a Code payload, each followed by the next, with the header in front. */
  lemma CodeWritten(a: AttributeInfo, u0: seq<u8>, u1: seq<u8>, u2: seq<u8>, u3: seq<u8>, u4: seq<u8>,
                    u5: seq<u8>, u6: seq<u8>, u7: seq<u8>, rest: seq<u8>)
    requires a.Code? && AttributeEncodable(a)
    requires u0 == EncodeU16(a.maxStack) + u1
    requires u1 == EncodeU16(a.maxLocals) + u2
    requires u2 == EncodeU32(a.codeLength) + u3
    requires u3 == a.code + u4
    requires u4 == EncodeU16(a.exceptionTableLength) + u5
    requires u5 == EncodeHandlers(a.exceptionTable) + u6
    requires u6 == EncodeU16(a.codeAttributesCount) + u7
    requires u7 == EncodeAttributes(a.codeAttributes) + rest
    ensures EncodeU16(a.attributeNameIndex) + EncodeU32(a.attributeLength) + u0 == EncodeAttribute(a) + rest
  {
    CodeSections(a, rest);
    AppendAssoc(EncodeU16(a.attributeNameIndex), EncodeU32(a.attributeLength), u0);
  }

  /** The stack and local sizes and the code bytes of a Code payload, as read, written back. */
  lemma CodeBytesWritten(a: AttributeInfo, u0: seq<u8>, u1: seq<u8>, u2: seq<u8>, u3: seq<u8>, u4: seq<u8>)
    requires a.Code?
    requires ReadU16(u0) == Ok(Parsed(a.maxStack, u1))
    requires ReadU16(u1) == Ok(Parsed(a.maxLocals, u2))
    requires ReadU32(u2) == Ok(Parsed(a.codeLength, u3))
    requires ParseSeq(ReadU8, u3, a.codeLength as nat) == Ok(Parsed(a.code, u4))
    ensures u0 == EncodeU16(a.maxStack) + u1
    ensures u1 == EncodeU16(a.maxLocals) + u2
    ensures u2 == EncodeU32(a.codeLength) + u3
    ensures u3 == a.code + u4
  {
    assert u0 == EncodeU16(a.maxStack) + u1 by { WriteAfterReadU16(u0); }
    assert u1 == EncodeU16(a.maxLocals) + u2 by { WriteAfterReadU16(u1); }
    assert u2 == EncodeU32(a.codeLength) + u3 by { WriteAfterReadU32(u2); }
    assert u3 == a.code + u4 by {
      ParseBytesTakesPrefix(u3, a.codeLength as nat);
      assert a.code == u3[..a.codeLength] && u4 == u3[a.codeLength..];
    }
  }

  /** The exception table and the nested count of a Code payload, as read, written back. */
  lemma CodeTableWritten(a: AttributeInfo, u4: seq<u8>, u5: seq<u8>, u6: seq<u8>, u7: seq<u8>)
    requires a.Code?
    requires ReadU16(u4) == Ok(Parsed(a.exceptionTableLength, u5))
    requires ParseSeq(ParseHandler, u5, a.exceptionTableLength as nat) == Ok(Parsed(a.exceptionTable, u6))
    requires ReadU16(u6) == Ok(Parsed(a.codeAttributesCount, u7))
    ensures u4 == EncodeU16(a.exceptionTableLength) + u5
    ensures forall i :: 0 <= i < |a.exceptionTable| ==> a.exceptionTable[i].catchType != 0xFFFF
    ensures u5 == EncodeHandlers(a.exceptionTable) + u6
    ensures u6 == EncodeU16(a.codeAttributesCount) + u7
  {
    WriteAfterReadU16(u4);
    HandlersReadThenWrite(u5, a.exceptionTableLength as nat, a.exceptionTable, u6);
    WriteAfterReadU16(u6);
  }

  /** The parts of a Code payload as read, each from where the previous one stopped, written back. */
  lemma CodePartsWritten(a: AttributeInfo, u0: seq<u8>, u1: seq<u8>, u2: seq<u8>, u3: seq<u8>, u4: seq<u8>,
                         u5: seq<u8>, u6: seq<u8>, u7: seq<u8>, rest: seq<u8>)
    requires a.Code?
    requires ReadU16(u0) == Ok(Parsed(a.maxStack, u1))
    requires ReadU16(u1) == Ok(Parsed(a.maxLocals, u2))
    requires ReadU32(u2) == Ok(Parsed(a.codeLength, u3))
    requires ParseSeq(ReadU8, u3, a.codeLength as nat) == Ok(Parsed(a.code, u4))
    requires ReadU16(u4) == Ok(Parsed(a.exceptionTableLength, u5))
    requires ParseSeq(ParseHandler, u5, a.exceptionTableLength as nat) == Ok(Parsed(a.exceptionTable, u6))
    requires ReadU16(u6) == Ok(Parsed(a.codeAttributesCount, u7))
    requires AttributesEncodable(a.codeAttributes) && u7 == EncodeAttributes(a.codeAttributes) + rest
    ensures AttributeEncodable(a)
    ensures EncodeU16(a.attributeNameIndex) + EncodeU32(a.attributeLength) + u0 == EncodeAttribute(a) + rest
  {
    CodeBytesWritten(a, u0, u1, u2, u3, u4);
    CodeTableWritten(a, u4, u5, u6, u7);
    CodeWritten(a, u0, u1, u2, u3, u4, u5, u6, u7, rest);
  }

  /** A Code payload read back, its exception table and nested attributes included. */
  lemma {:induction false} CodeReadThenWrite(pool: seq<Option<CpInfo>>, name: u16, len: u32, s: seq<u8>)
    ensures ParseCode(pool, name, len, s).Ok? ==>
      var p := ParseCode(pool, name, len, s).value;
      AttributeEncodable(p.value) && EncodeU16(name) + EncodeU32(len) + s == EncodeAttribute(p.value) + p.rest
    decreases |s|, 0
  {
    if ParseCode(pool, name, len, s).Ok? {
      var maxStack := ReadU16(s).value;
      var maxLocals := ReadU16(maxStack.rest).value;
      var codeLength := ReadU32(maxLocals.rest).value;
      var code := ParseSeq(ReadU8, codeLength.rest, codeLength.value as nat).value;
      var etLength := ReadU16(code.rest).value;
      var et := ParseSeq(ParseHandler, etLength.rest, etLength.value as nat).value;
      var count := ReadU16(et.rest).value;
      var nested := ParseAttributeList(pool, count.rest, count.value as nat).value;
      var a := Code(name, len, maxStack.value, maxLocals.value, codeLength.value, code.value,
                    etLength.value, et.value, count.value, nested.value);
      assert ParseCode(pool, name, len, s) == Ok(Parsed(a, nested.rest));
      ParseSeqShrinks(ReadU8, codeLength.rest, codeLength.value as nat);
      ParseSeqShrinks(ParseHandler, etLength.rest, etLength.value as nat);
      AttributeListReadThenWrite(pool, count.rest, count.value as nat);
      CodePartsWritten(a, s, maxStack.rest, maxLocals.rest, codeLength.rest, code.rest, etLength.rest,
                       et.rest, count.rest, nested.rest);
    }
  }

  /** A member read back is written as the bytes it was read from. */
  lemma MemberReadThenWrite(pool: seq<Option<CpInfo>>, s: seq<u8>)
    ensures ParseMember(pool, s).Ok? ==>
      var p := ParseMember(pool, s).value;
      AttributesEncodable(p.value.attributes) && s == EncodeMember(p.value) + p.rest
  {
    if ParseMember(pool, s).Ok? {
      var accessFlags := ReadU16(s).value;
      var nameIndex := ReadU16(accessFlags.rest).value;
      var descriptorIndex := ReadU16(nameIndex.rest).value;
      var attributesCount := ReadU16(descriptorIndex.rest).value;
      var attributes := ParseAttributeList(pool, attributesCount.rest, attributesCount.value as nat).value;
      var m := MemberInfo(accessFlags.value, nameIndex.value, descriptorIndex.value,
                          attributesCount.value, attributes.value);
      assert ParseMember(pool, s).value == Parsed(m, attributes.rest);
      WriteAfterReadU16(s);
      WriteAfterReadU16(accessFlags.rest);
      WriteAfterReadU16(nameIndex.rest);
      WriteAfterReadU16(descriptorIndex.rest);
      AttributeListReadThenWrite(pool, attributesCount.rest, attributesCount.value as nat);
      MemberSections(m, attributes.rest);
    }
  }

  /** One more member written after a run of members. */
  lemma MemberWritten(s: seq<u8>, ms: seq<MemberInfo>, t: seq<u8>, m: MemberInfo, rest: seq<u8>)
    requires MembersEncodable(ms) && AttributesEncodable(m.attributes)
    requires s == EncodeMembers(ms) + t && t == EncodeMember(m) + rest
    ensures MembersEncodable(ms + [m]) && s == EncodeMembers(ms + [m]) + rest
  {
    var all := ms + [m];
    assert MembersEncodable(all) by {
      forall i | 0 <= i < |all|
        ensures AttributesEncodable(all[i].attributes)
      {
        if i < |ms| {
          assert all[i] == ms[i];
        }
      }
    }
    EncodeMembersPrefix(all, |ms|);
    assert all[..|ms|] == ms && all[..|ms| + 1] == all;
    AppendAssoc(EncodeMembers(ms), EncodeMember(m), rest);
  }

  lemma {:induction false} MembersReadThenWrite(pool: seq<Option<CpInfo>>, s: seq<u8>, n: nat,
                                                ms: seq<MemberInfo>, rest: seq<u8>)
    requires ParseSeq(MemberParser(pool), s, n) == Ok(Parsed(ms, rest))
    ensures MembersEncodable(ms) && s == EncodeMembers(ms) + rest
  {
    if n > 0 {
      ParseSeqLast(MemberParser(pool), s, n);
      var p := ParseSeq(MemberParser(pool), s, n - 1).value;
      var x := ParseMember(pool, p.rest).value;
      MembersReadThenWrite(pool, s, n - 1, p.value, p.rest);
      assert AttributesEncodable(x.value.attributes) && p.rest == EncodeMember(x.value) + x.rest by {
        MemberReadThenWrite(pool, p.rest);
      }
      MemberWritten(s, p.value, p.rest, x.value, x.rest);
    } else {
      assert ms == [] && rest == s;
    }
  }

  /** The encoder's sections, each given with what follows it, make up the class file's encoding. */
  lemma ClassFileWritten(cf: ClassFile, t0: seq<u8>, t1: seq<u8>, t2: seq<u8>, t3: seq<u8>,
                         t4: seq<u8>, t5: seq<u8>, t6: seq<u8>, t7: seq<u8>,
                         t8: seq<u8>, t9: seq<u8>, t10: seq<u8>, t11: seq<u8>,
                         t12: seq<u8>, t13: seq<u8>, t14: seq<u8>, t15: seq<u8>, t16: seq<u8>)
    requires Encodable(cf) && cf.interfacesCount as int == |cf.interfaces|
    requires t0 == EncodeU32(cf.magic) + t1
    requires t1 == EncodeU16(cf.minorVersion) + t2
    requires t2 == EncodeU16(cf.majorVersion) + t3
    requires t3 == EncodeU16(cf.constantPoolCount) + t4
    requires t4 == EncodePool(cf.constantPool) + t5
    requires t5 == EncodeU16(cf.accessFlags) + t6
    requires t6 == EncodeU16(cf.thisClass) + t7
    requires t7 == EncodeU16(Bump(cf.superClass)) + t8
    requires t8 == EncodeU16(cf.interfacesCount) + t9
    requires t9 == EncodeU16s(cf.interfaces) + t10
    requires t10 == EncodeU16(cf.fieldsCount) + t11
    requires t11 == EncodeMembers(cf.fields) + t12
    requires t12 == EncodeU16(cf.methodsCount) + t13
    requires t13 == EncodeMembers(cf.methods) + t14
    requires t14 == EncodeU16(cf.attributesCount) + t15
    requires t15 == EncodeAttributes(cf.attributes) + t16
    ensures EncodeClassFile(cf) + t16 == t0
  {
    ClassFileSections(cf, t16);
  }

  /**
   * The other direction of the round trip: whatever class file is read,
   * the encoder can write it, and what it writes is exactly the bytes the
   * decoder consumed.
   */
  lemma ReadThenWrite(s: seq<u8>, cf: ClassFile, rest: seq<u8>)
    requires ParseClassFile(s) == Ok(Parsed(cf, rest))
    ensures Encodable(cf) && EncodeClassFile(cf) + rest == s
  {
    var magic := ReadU32(s).value;
    var minorVersion := ReadU16(magic.rest).value;
    var majorVersion := ReadU16(minorVersion.rest).value;
    var constantPoolCount := ReadU16(majorVersion.rest).value;
    var constantPool := ParsePool(constantPoolCount.rest, constantPoolCount.value).value;
    var pool := constantPool.value;
    var accessFlags := ReadU16(constantPool.rest).value;
    var thisClass := ReadU16(accessFlags.rest).value;
    var superClass := ParseBumped(thisClass.rest).value;
    var interfacesCount := ReadU16(superClass.rest).value;
    var interfaces := ParseSeq(ReadU16, interfacesCount.rest, interfacesCount.value as nat).value;
    var fieldsCount := ReadU16(interfaces.rest).value;
    var fields := ParseSeq(MemberParser(pool), fieldsCount.rest, fieldsCount.value as nat).value;
    var methodsCount := ReadU16(fields.rest).value;
    var methods := ParseSeq(MemberParser(pool), methodsCount.rest, methodsCount.value as nat).value;
    var attributesCount := ReadU16(methods.rest).value;
    var attributes := ParseAttributeList(pool, attributesCount.rest, attributesCount.value as nat).value;
    assert cf == ClassFile(magic.value, minorVersion.value, majorVersion.value,
                           constantPoolCount.value, pool,
                           accessFlags.value, thisClass.value, superClass.value,
                           interfacesCount.value, interfaces.value,
                           fieldsCount.value, fields.value,
                           methodsCount.value, methods.value,
                           attributesCount.value, attributes.value);
    assert rest == attributes.rest;
    WriteAfterReadU32(s);
    WriteAfterReadU16(magic.rest);
    WriteAfterReadU16(minorVersion.rest);
    WriteAfterReadU16(majorVersion.rest);
    PoolReadThenWrite(constantPoolCount.rest, constantPoolCount.value);
    WriteAfterReadU16(constantPool.rest);
    WriteAfterReadU16(accessFlags.rest);
    BumpedReadThenWrite(thisClass.rest);
    WriteAfterReadU16(superClass.rest);
    U16sReadThenWrite(interfacesCount.rest, interfacesCount.value as nat);
    WriteAfterReadU16(interfaces.rest);
    MembersReadThenWrite(pool, fieldsCount.rest, fieldsCount.value as nat, fields.value, fields.rest);
    WriteAfterReadU16(fields.rest);
    MembersReadThenWrite(pool, methodsCount.rest, methodsCount.value as nat, methods.value, methods.rest);
    WriteAfterReadU16(methods.rest);
    AttributeListReadThenWrite(pool, attributesCount.rest, attributesCount.value as nat);
    ClassFileWritten(cf, s, magic.rest, minorVersion.rest, majorVersion.rest, constantPoolCount.rest,
                     constantPool.rest, accessFlags.rest, thisClass.rest, superClass.rest,
                     interfacesCount.rest, interfaces.rest, fieldsCount.rest, fields.rest,
                     methodsCount.rest, methods.rest, attributesCount.rest, rest);
  }
}
