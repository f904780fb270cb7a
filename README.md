# phoron_core class-file codec, in Dafny

This project models the class-file codec of `phoron_core`, the Rust crate that
reads and writes JVM class files (chapter 4 of the Java Virtual Machine
Specification). It covers five parts of the crate.

- **Byte primitives** (`rw.rs`, module `Rw`):
  - `HasBeBytes` as `FromBeBytes`/`ToBeBytes` on byte sequences.
  - The `Reader` class: a byte sequence and a cursor.
  - The `Writer` class: an output sequence that its methods append to.
  - Pure `ReadU*`/`EncodeU*` functions that specify those classes.
- **Shift-and-OR reader** (`reader.rs`, module `ShiftReader`): the second `Reader`, whose `read_n` builds the value by OR-ing shifted bytes into an accumulator. It is proved equal to the `rw.rs` reader at every width.
- **Object model** (`model.rs`, module `Model`):
  - `ClassFile`, `MemberInfo` (fields and methods), `AttributeInfo` and `CpInfo`, with the tag and access-flag constants.
  - Well-formedness predicates for the counts, the constant pool, and the attribute lengths.
- **Encoder** (`serializer.rs`, module `Encoder`):
  - Pure `Encode*` functions that state the byte layout.
  - A `Serializer` class whose methods write through a `Writer`, with loops over attributes, members, pool slots, code bytes and table entries. Each method is proved to append exactly its `Encode*` bytes.
- **Decoder** (`deserializer.rs`, module `Decoder`):
  - Pure `Parse*` functions on the remaining input, returning the value and the rest.
  - A `Deserializer` class whose methods consume a `Reader`. Each is proved to return what its `Parse*` function gives and to leave the reader where that function stops.

Module `Mirror` is a separate, corrected decoder that inverts the encoder. Four things set it apart from `Decoder`:
- It skips the unusable slot after a Long or Double (section 4.4.5 of the Java Virtual Machine Specification).
- It undoes the encoder's k+1 adjustments.
- It knows all seventeen constant kinds.
- It reads attributes by resolving their names through the constant pool.

`Mirror.RoundTrip` proves that decoding the encoder's output gives back the class file, and `Mirror.ReadThenWrite` proves the other direction: whatever class file it reads, the encoder writes back exactly the bytes read. `Decoder.FaithfulRoundTrip` states what the crate's own decoder gives back instead.

Module `Vectors` checks the encoder against the crate's Minimal test class: the whole 217-byte array the test expects, and the read-back of the class. Modules `HelloWorldVector` and `FieldsVector` do the same for the HelloWorld (422 bytes) and Fields (1023 bytes) classes of the integration tests: each writes the expected array section by section and proves the encoder's output equal to it.

Module `Numeric` holds the fixed-width integer types and powers of two. Module `Results` holds the error, result and option types.

Where `model.rs` and the code disagree, the model follows the code:
- `model.rs` declares the constant pool as a list of entries.
- The encoder and every test use one optional slot per index, with slot 0 and the slot after a Long or Double empty. `ClassFile.constantPool` follows them.
- The crate's decoder returns only the entries it read. `Decoder.ParseClassFile` states this: its pool holds one occupied slot per entry read, and slot 0 is not among them.

Integers are the exact widths of the source (`u8` to `u64`, as subset types of `int`). Arithmetic that overflows in the source is ruled out where it panics or made an error where it would underflow, as the notes below say.

## Model

| member | source | states |
|---|---|---|
| Numeric.Pow256Widths | projects/phoron/phoron_rs/phoron_core/src/rw.rs:11-49 | 256^N for the four widths is 2^8, 2^16, 2^32 and 2^64, the ranges of u8, u16, u32 and u64 |
| Numeric.Shl | projects/phoron/phoron_rs/phoron_core/src/reader.rs:34-37 | a left shift inside an N-byte accumulator always stays below 2^(8N), as a shift on the target integer type does |
| Numeric.BitOrDisjoint | projects/phoron/phoron_rs/phoron_core/src/reader.rs:34-37 | OR-ing a value into bits that are still zero is the same as adding it |
| Numeric.ShlNoOverflow | projects/phoron/phoron_rs/phoron_core/src/reader.rs:34-37 | a shift that does not overflow the target width multiplies by 2^s |
| Rw.FromBeBytes | projects/phoron/phoron_rs/phoron_core/src/rw.rs:11-49 | the value of N big-endian bytes lies in [0, 256^N) |
| Rw.ToBeBytes | projects/phoron/phoron_rs/phoron_core/src/rw.rs:11-49 | `to_be_bytes` of a value below 256^N yields exactly N bytes |
| Rw.FromToBeBytes | projects/phoron/phoron_rs/phoron_core/src/rw.rs:11-49 | `from_be_bytes(to_be_bytes(x)) == x` at every width |
| Rw.ToFromBeBytes | projects/phoron/phoron_rs/phoron_core/src/rw.rs:11-49 | `to_be_bytes(from_be_bytes(b)) == b` for every byte string |
| Rw.FromBeBytesIsPositionalSum | projects/phoron/phoron_rs/phoron_core/src/rw.rs:11-49 | the big-endian value is the sum of buf[i] * 256^(N-1-i), the first byte being the most significant |
| Rw.FromBeBytesConcat | projects/phoron/phoron_rs/phoron_core/src/rw.rs:11-49 | splitting a big-endian byte string splits its value as high part * 256^|low| + low part |
| Rw.ReadBe | projects/phoron/phoron_rs/phoron_core/src/rw.rs:72-76 | a read of N bytes succeeds exactly when N bytes remain, consumes exactly those N from the front, and returns their value, which is below 256^N |
| Rw.ReadU16IsReadBe | projects/phoron/phoron_rs/phoron_core/src/rw.rs:84-87 | `read_unsigned_short` is the generic N-byte read at N = 2 (the u8, u32 and u64 readers have the matching lemmas `Rw.ReadU8IsReadBe`, `Rw.ReadU32IsReadBe` and `Rw.ReadU64IsReadBe`) |
| Rw.ReadU8IsReadBe | projects/phoron/phoron_rs/phoron_core/src/rw.rs:79-82 | `read_unsigned_byte` is the generic N-byte read at N = 1 |
| Rw.ReadU32IsReadBe | projects/phoron/phoron_rs/phoron_core/src/rw.rs:89-92 | `read_unsigned_int` is the generic N-byte read at N = 4 |
| Rw.ReadU64IsReadBe | projects/phoron/phoron_rs/phoron_core/src/rw.rs:94-97 | `read_unsigned_long` is the generic N-byte read at N = 8 |
| Rw.EncodeU16IsToBeBytes | projects/phoron/phoron_rs/phoron_core/src/rw.rs:21-29 | the 16-bit encoding is `to_be_bytes` at N = 2 |
| Rw.EncodeU8IsToBeBytes | projects/phoron/phoron_rs/phoron_core/src/rw.rs:11-19 | the 8-bit encoding is `to_be_bytes` at N = 1 |
| Rw.EncodeU32IsToBeBytes | projects/phoron/phoron_rs/phoron_core/src/rw.rs:31-39 | the 32-bit encoding is `to_be_bytes` at N = 4 |
| Rw.EncodeU64IsToBeBytes | projects/phoron/phoron_rs/phoron_core/src/rw.rs:41-49 | the 64-bit encoding is `to_be_bytes` at N = 8 |
| Rw.ToBeBytesHalves | projects/phoron/phoron_rs/phoron_core/src/rw.rs:11-49 | the 2k-byte encoding of hi * 256^k + lo is the k-byte encoding of hi followed by that of lo |
| Rw.ReadBeAfterWrite | projects/phoron/phoron_rs/phoron_core/src/rw.rs:72-76 | reading N bytes after writing a value in N bytes returns the value and leaves what followed |
| Rw.ReadU8AfterWrite | projects/phoron/phoron_rs/phoron_core/src/rw.rs:79-82 | a byte written and read back is the same byte, and the rest of the stream is untouched |
| Rw.ReadU16AfterWrite | projects/phoron/phoron_rs/phoron_core/src/rw.rs:84-87 | a u16 written and read back is the same value, whatever follows it |
| Rw.ReadU32AfterWrite | projects/phoron/phoron_rs/phoron_core/src/rw.rs:89-92 | a u32 written and read back is the same value, whatever follows it |
| Rw.ReadU64AfterWrite | projects/phoron/phoron_rs/phoron_core/src/rw.rs:94-97 | a u64 written and read back is the same value, whatever follows it |
| Rw.WriteAfterReadU8 | projects/phoron/phoron_rs/phoron_core/src/rw.rs:79-82 | a byte read succeeds exactly when a byte remains, and writing the byte read gives back the bytes consumed |
| Rw.WriteAfterReadU16 | projects/phoron/phoron_rs/phoron_core/src/rw.rs:84-87 | a u16 read succeeds exactly when two bytes remain, and writing the value read gives back the two bytes consumed |
| Rw.WriteAfterReadU32 | projects/phoron/phoron_rs/phoron_core/src/rw.rs:89-92 | a u32 read succeeds exactly when four bytes remain, and writing the value read gives back the four bytes consumed |
| Rw.WriteAfterReadU64 | projects/phoron/phoron_rs/phoron_core/src/rw.rs:94-97 | a u64 read succeeds exactly when eight bytes remain, and writing the value read gives back the eight bytes consumed |
| Rw.WriterTestVectors | projects/phoron/phoron_rs/phoron_core/src/rw.rs:202-244 | the writer tests' outputs: four bytes, two shorts and one int give `ca fe ba be`; the long 0x00000041000f0a00 gives `00 00 00 41 00 0f 0a 00` |
| Rw.ReaderTestVectors | projects/phoron/phoron_rs/phoron_core/src/rw.rs:104-138 | the reader tests' values: `ca fe ba be` read as 0xca, then as 0xcafe and 0xbabe in turn, then as 0xcafebabe; the eight-byte test reads 0x00000041000f0a00 |
| Rw.TestReadUnsignedByte | projects/phoron/phoron_rs/phoron_core/src/rw.rs:105-113 | four byte reads of `ca fe ba be` through the reader class return 0xca, 0xfe, 0xba and 0xbe in turn |
| Rw.TestReadUnsignedShort | projects/phoron/phoron_rs/phoron_core/src/rw.rs:116-122 | two short reads of `ca fe ba be` return 0xcafe, then 0xbabe: the second continues where the first stopped |
| Rw.TestReadUnsignedInt | projects/phoron/phoron_rs/phoron_core/src/rw.rs:125-130 | an int read of `ca fe ba be` returns 0xcafebabe |
| Rw.TestReadUnsignedLong | projects/phoron/phoron_rs/phoron_core/src/rw.rs:133-138 | a long read of `00 00 00 41 00 0f 0a 00` returns 0x00000041000f0a00 |
| Rw.TestWriteUnsignedByte | projects/phoron/phoron_rs/phoron_core/src/rw.rs:203-213 | writing 0xca, 0xfe, 0xba and 0xbe through the writer class leaves `ca fe ba be` in the buffer |
| Rw.TestWriteUnsignedShort | projects/phoron/phoron_rs/phoron_core/src/rw.rs:216-224 | writing 0xcafe then 0xbabe leaves `ca fe ba be` |
| Rw.TestWriteUnsignedInt | projects/phoron/phoron_rs/phoron_core/src/rw.rs:227-234 | writing 0xcafebabe leaves `ca fe ba be` |
| Rw.TestWriteUnsignedLong | projects/phoron/phoron_rs/phoron_core/src/rw.rs:237-244 | writing 0x00000041000f0a00 leaves `00 00 00 41 00 0f 0a 00` |
| Rw.Reader.constructor | projects/phoron/phoron_rs/phoron_core/src/rw.rs:68-70 | a new reader is at the start of its stream |
| Rw.Reader.ReadN | projects/phoron/phoron_rs/phoron_core/src/rw.rs:72-76 | on success returns the big-endian value of the next N bytes and advances by exactly N; with fewer than N bytes left returns a read error |
| Rw.Reader.ReadUnsignedByte | projects/phoron/phoron_rs/phoron_core/src/rw.rs:79-82 | returns and consumes the next byte, or a read error when none is left |
| Rw.Reader.ReadUnsignedShort | projects/phoron/phoron_rs/phoron_core/src/rw.rs:84-87 | returns and consumes the next two bytes as a big-endian u16, or a read error |
| Rw.Reader.ReadUnsignedInt | projects/phoron/phoron_rs/phoron_core/src/rw.rs:89-92 | returns and consumes the next four bytes as a big-endian u32, or a read error |
| Rw.Reader.ReadUnsignedLong | projects/phoron/phoron_rs/phoron_core/src/rw.rs:94-97 | returns and consumes the next eight bytes as a big-endian u64, or a read error |
| Rw.Writer.constructor | projects/phoron/phoron_rs/phoron_core/src/rw.rs:157-159 | a new writer has written nothing |
| Rw.Writer.WriteN | projects/phoron/phoron_rs/phoron_core/src/rw.rs:161-175 | appends exactly the N big-endian bytes of the value and leaves the earlier output alone; the width-mismatch error is never returned |
| Rw.Writer.WriteUnsignedByte | projects/phoron/phoron_rs/phoron_core/src/rw.rs:178-181 | appends the one byte and succeeds |
| Rw.Writer.WriteUnsignedShort | projects/phoron/phoron_rs/phoron_core/src/rw.rs:183-186 | appends the two big-endian bytes of the u16 and succeeds |
| Rw.Writer.WriteUnsignedInt | projects/phoron/phoron_rs/phoron_core/src/rw.rs:188-191 | appends the four big-endian bytes of the u32 and succeeds |
| Rw.Writer.WriteUnsignedLong | projects/phoron/phoron_rs/phoron_core/src/rw.rs:193-196 | appends the eight big-endian bytes of the u64 and succeeds |
| ShiftReader.ShiftOrStep | projects/phoron/phoron_rs/phoron_core/src/reader.rs:34-37 | one step of the shift-and-OR loop turns the value of the first i bytes, scaled, into the value of the first i+1 bytes, scaled |
| ShiftReader.Reader.constructor | projects/phoron/phoron_rs/phoron_core/src/reader.rs:20-22 | a new reader is at the start of its stream |
| ShiftReader.Reader.ReadN | projects/phoron/phoron_rs/phoron_core/src/reader.rs:24-40 | the accumulator built by shifting and OR-ing the N bytes equals the big-endian value that `rw.rs` reads (so it lies in [0, 256^N)); the stream advances by exactly N; fewer than N bytes left gives a read error |
| ShiftReader.Reader.ReadUnsignedByte | projects/phoron/phoron_rs/phoron_core/src/reader.rs:43-46 | agrees with the `rw.rs` reader at one byte |
| ShiftReader.Reader.ReadUnsignedShort | projects/phoron/phoron_rs/phoron_core/src/reader.rs:48-51 | agrees with the `rw.rs` reader at two bytes |
| ShiftReader.Reader.ReadUnsignedInt | projects/phoron/phoron_rs/phoron_core/src/reader.rs:53-56 | agrees with the `rw.rs` reader at four bytes |
| ShiftReader.Reader.ReadUnsignedLong | projects/phoron/phoron_rs/phoron_core/src/reader.rs:58-61 | agrees with the `rw.rs` reader at eight bytes |
| ShiftReader.TestReadUnsignedByte | projects/phoron/phoron_rs/phoron_core/src/reader.rs:69-77 | four byte reads of `ca fe ba be` through the shift-and-OR reader return 0xca, 0xfe, 0xba and 0xbe in turn |
| ShiftReader.TestReadUnsignedShort | projects/phoron/phoron_rs/phoron_core/src/reader.rs:80-86 | two short reads return 0xcafe, then 0xbabe |
| ShiftReader.TestReadUnsignedInt | projects/phoron/phoron_rs/phoron_core/src/reader.rs:89-94 | an int read of `ca fe ba be` returns 0xcafebabe |
| ShiftReader.TestReadUnsignedLong | projects/phoron/phoron_rs/phoron_core/src/reader.rs:97-102 | a long read of `00 00 00 41 00 0f 0a 00` returns 0x00000041000f0a00 |
| Model.TagsDistinct | projects/phoron/phoron_rs/phoron_core/src/model.rs:136-148 | two entries have the same tag exactly when they are of the same kind, for the eleven declared kinds and the six later ones (Table 4.4-B of the JVM Specification) |
| Model.TagTables | projects/phoron/phoron_rs/phoron_core/src/model.rs:136-148 | the eleven tag constants are pairwise distinct, as are the six later tags, and the two sets do not meet |
| Model.AccessFlagFacts | projects/phoron/phoron_rs/phoron_core/src/model.rs:120-133 | ACC_SUPER and ACC_SYNCHRONIZED share 0x0020; ACC_PUBLIC or ACC_SUPER is 33 and ACC_PUBLIC or ACC_STATIC is 9, the flags the tests use |
| Encoder.Bump | projects/phoron/phoron_rs/phoron_core/src/serializer.rs:508-516 | the k+1 adjustment: 0 stays 0, every other index becomes nonzero and never 1, so it can be undone |
| Encoder.EncodeCpInfo | projects/phoron/phoron_rs/phoron_core/src/serializer.rs:349-489 | an entry's bytes start with its tag and take the number of bytes section 4.4 of the JVM Specification gives its kind |
| Encoder.EncodePoolPrefix | projects/phoron/phoron_rs/phoron_core/src/serializer.rs:347-348 | the pool is written slot by slot, each slot's bytes after those of the slots before it |
| Encoder.Utf8Layout | projects/phoron/phoron_rs/phoron_core/src/serializer.rs:430-437 | a Utf8 entry is its tag, its stored length in two bytes, then its bytes in order: 3 + |bytes| bytes |
| Encoder.EncodePoolConcat | projects/phoron/phoron_rs/phoron_core/src/serializer.rs:347-348 | the encoding of two runs of slots is the concatenation of their encodings |
| Encoder.DoubleThenEmptySlot | projects/phoron/phoron_rs/phoron_core/src/serializer.rs:347-348 | the empty slot after a Double emits nothing: the Double's nine bytes `06 40 08 00 00 00 00 00 00` are followed directly by the next entry's tag `0a` |
| Encoder.EncodeHandlersPrefix | projects/phoron/phoron_rs/phoron_core/src/serializer.rs:72-82 | handlers are written one after another, 8 bytes each, with catch_type adjusted by k+1 when nonzero |
| Encoder.EncodeExceptionIndexTablePrefix | projects/phoron/phoron_rs/phoron_core/src/serializer.rs:98-101 | exception indices are written one after another, each adjusted by k+1 when nonzero |
| Encoder.EncodeLineNumbersPrefix | projects/phoron/phoron_rs/phoron_core/src/serializer.rs:115-118 | line numbers are written one after another, 4 bytes each |
| Encoder.EncodeLocalVariablesPrefix | projects/phoron/phoron_rs/phoron_core/src/serializer.rs:132-139 | local variables are written one after another, 10 bytes each |
| Encoder.EncodeAttributesPrefix | projects/phoron/phoron_rs/phoron_core/src/serializer.rs:26-27 | attributes are written one after another, each after those before it |
| Encoder.AttributeSize | projects/phoron/phoron_rs/phoron_core/src/serializer.rs:49-86 | with consistent stored lengths an attribute, a Code attribute with nested attributes included, takes 6 + attribute_length bytes |
| Encoder.AttributesSize | projects/phoron/phoron_rs/phoron_core/src/serializer.rs:26-27 | with consistent stored lengths a list of attributes takes the sum of 6 + attribute_length over its members |
| Encoder.EncodeMembersPrefix | projects/phoron/phoron_rs/phoron_core/src/serializer.rs:318-340 | fields and methods are written one after another, each as flags, name, descriptor, count, then its attributes |
| Encoder.EncodeU16sPrefix | projects/phoron/phoron_rs/phoron_core/src/serializer.rs:520-523 | interface indices are written one after another, unchanged |
| Encoder.EncodeInterfaces | projects/phoron/phoron_rs/phoron_core/src/serializer.rs:518-523 | the stored count and exactly that many indices: 2 + 2 * interfaces_count bytes |
| Encoder.Serializer.constructor | projects/phoron/phoron_rs/phoron_core/src/serializer.rs:21-23 | the serializer writes to the given writer |
| Encoder.Serializer.SerializeAttributes | projects/phoron/phoron_rs/phoron_core/src/serializer.rs:26-315 | appends the encodings of the attributes in order and nothing else |
| Encoder.Serializer.SerializeAttribute | projects/phoron/phoron_rs/phoron_core/src/serializer.rs:28-310 | appends one attribute: name, length and payload for the six modelled kinds, the nested list of a Code attribute recursively, and nothing for the kinds the source leaves empty |
| Encoder.Serializer.SerializeBytes | projects/phoron/phoron_rs/phoron_core/src/serializer.rs:67-69 | appends the code bytes one by one, in order |
| Encoder.Serializer.SerializeHandlers | projects/phoron/phoron_rs/phoron_core/src/serializer.rs:72-82 | appends each handler's four fields, catch_type written as 0 when 0 and as k+1 otherwise |
| Encoder.Serializer.SerializeExceptionIndexTable | projects/phoron/phoron_rs/phoron_core/src/serializer.rs:98-101 | appends each exception index, 0 as 0 and k as k+1 |
| Encoder.Serializer.SerializeLineNumbers | projects/phoron/phoron_rs/phoron_core/src/serializer.rs:115-118 | appends start_pc and line_number of each entry |
| Encoder.Serializer.SerializeLocalVariables | projects/phoron/phoron_rs/phoron_core/src/serializer.rs:132-139 | appends the five fields of each local variable |
| Encoder.Serializer.SerializeMembers | projects/phoron/phoron_rs/phoron_core/src/serializer.rs:318-340 | appends each field or method: flags, name, descriptor, stored attribute count, then its attributes |
| Encoder.Serializer.SerializeConstantPool | projects/phoron/phoron_rs/phoron_core/src/serializer.rs:343-493 | appends the entries of the occupied slots in order; empty slots append nothing |
| Encoder.Serializer.SerializeCpInfo | projects/phoron/phoron_rs/phoron_core/src/serializer.rs:349-489 | appends the tag and then the fields of each of the seventeen kinds at their widths |
| Encoder.Serializer.SerializeHeader | projects/phoron/phoron_rs/phoron_core/src/serializer.rs:497-500 | appends magic as four bytes, then minor and major as two bytes each, big-endian |
| Encoder.Serializer.SerializeClassRefs | projects/phoron/phoron_rs/phoron_core/src/serializer.rs:508-516 | appends access_flags and this_class as stored and super_class adjusted by k+1 when nonzero |
| Encoder.Serializer.SerializeInterfaces | projects/phoron/phoron_rs/phoron_core/src/serializer.rs:518-523 | appends interfaces_count and exactly that many interface indices, unchanged |
| Encoder.Serializer.Serialize | projects/phoron/phoron_rs/phoron_core/src/serializer.rs:496-539 | appends the whole class file in file order: header, pool count (which must be nonzero) and pool, class references, interfaces, fields, methods, attributes |
| Decoder.ParseSeq | projects/phoron/phoron_rs/phoron_core/src/deserializer.rs:37-81 | a counted loop of reads either fails or yields exactly the count of items |
| Decoder.ParseSeqStuck | projects/phoron/phoron_rs/phoron_core/src/deserializer.rs:90-92 | once one read inside a counted loop fails, the whole loop fails with that error |
| Decoder.ParseBytesTakesPrefix | projects/phoron/phoron_rs/phoron_core/src/deserializer.rs:174-182 | reading `length` single bytes takes exactly the first `length` bytes, or fails when fewer remain |
| Decoder.PoolStuck | projects/phoron/phoron_rs/phoron_core/src/deserializer.rs:90-92 | an entry that cannot be read fails the whole constant pool |
| Decoder.CpInfoReadThenWrite | projects/phoron/phoron_rs/phoron_core/src/deserializer.rs:91-185 | the contract of `ParseCpInfo` in the read-then-write direction: whatever entry is read, the bytes consumed are exactly that entry's encoding |
| Decoder.EntriesWellFormed | projects/phoron/phoron_rs/phoron_core/src/deserializer.rs:90-187 | every entry of a run the decoder reads is one of the eleven declared kinds and well formed |
| Decoder.ConstantPoolReadThenWrite | projects/phoron/phoron_rs/phoron_core/src/deserializer.rs:84-189 | the contract of `ParseConstantPool`: a count of 0 is an error; otherwise exactly count - 1 entries are read, and the bytes consumed are their encoding as occupied slots |
| Decoder.ParsedEntryWellFormed | projects/phoron/phoron_rs/phoron_core/src/deserializer.rs:91-182 | every entry the decoder builds has the tag byte it read, is one of the eleven declared kinds, holds exactly `length` bytes when it is Utf8, and was read from exactly its encoded size |
| Decoder.UnknownTagRejected | projects/phoron/phoron_rs/phoron_core/src/deserializer.rs:184 | a tag byte outside the eleven declared ones stops decoding with an error and no entry |
| Decoder.ExtendedKindRejected | projects/phoron/phoron_rs/phoron_core/src/deserializer.rs:184 | each of the six kinds the encoder writes but the decoder does not know is read back as an unknown tag |
| Decoder.ParseCpInfoAfterEncode | projects/phoron/phoron_rs/phoron_core/src/deserializer.rs:91-182 | decode(encode(e)) == e for each of the eleven declared kinds, whatever follows the entry |
| Decoder.ParseEntriesAfterEncode | projects/phoron/phoron_rs/phoron_core/src/deserializer.rs:90-187 | a run of occupied slots of declared kinds is read back entry for entry |
| Decoder.ParseMemberAfterEncode | projects/phoron/phoron_rs/phoron_core/src/deserializer.rs:37-81 | a field or method is read back as flags, name, descriptor and attribute count in that order, with no attributes and the attribute bytes left unread |
| Decoder.ParseMembersAfterEncode | projects/phoron/phoron_rs/phoron_core/src/deserializer.rs:37-81 | members without attributes are read back exactly, as many as were written |
| Decoder.ParseU16sAfterEncode | projects/phoron/phoron_rs/phoron_core/src/deserializer.rs:205-209 | interface indices are read back exactly, as many as the count |
| Decoder.U16sReadThenWrite | projects/phoron/phoron_rs/phoron_core/src/deserializer.rs:205-209 | whatever interface indices are read, written back they are exactly the bytes consumed |
| Decoder.ParsedMembersBare | projects/phoron/phoron_rs/phoron_core/src/deserializer.rs:37-81 | the fields and methods the decoder reads never carry attributes |
| Decoder.ParsedClassFileShape | projects/phoron/phoron_rs/phoron_core/src/deserializer.rs:191-241 | the contract of `ParseClassFile`: a positive pool count and count - 1 occupied slots of declared, well-formed kinds; as many interfaces, fields and methods as their counts say; no attributes on the class or any member |
| Decoder.PoolAfterEncode | projects/phoron/phoron_rs/phoron_core/src/deserializer.rs:84-189 | the pool of a class file without wide or later kinds is read back without its empty slot 0 |
| Decoder.FaithfulRoundTrip | projects/phoron/phoron_rs/phoron_core/src/deserializer.rs:191-241 | reading what the encoder wrote gives the class file back except that the pool loses its slot 0 and super_class comes back as k+1 |
| Decoder.WidePoolMisread | projects/phoron/phoron_rs/phoron_core/src/deserializer.rs:90 | a pool of count 3 holding one Long is read as two entries, the second from the bytes after the pool, which fails on a zero tag |
| Decoder.WideEntryMisread | projects/phoron/phoron_rs/phoron_core/src/deserializer.rs:90 | a whole class file whose pool holds a Long and whose access_flags are below 0x100 is rejected by the decoder |
| Decoder.Deserializer.constructor | projects/phoron/phoron_rs/phoron_core/src/deserializer.rs:22-24 | the deserializer reads from the given reader |
| Decoder.Deserializer.DeserializeAttributes | projects/phoron/phoron_rs/phoron_core/src/deserializer.rs:27-34 | reads nothing and returns an empty list for any count |
| Decoder.Deserializer.DeserializeMember | projects/phoron/phoron_rs/phoron_core/src/deserializer.rs:39-53 | reads one field or method: four u16 fields in order and no attributes; fails when a read fails |
| Decoder.Deserializer.DeserializeMembers | projects/phoron/phoron_rs/phoron_core/src/deserializer.rs:37-81 | reads exactly `count` fields or methods in order, or fails with the first failing read |
| Decoder.Deserializer.DeserializeUtf8Bytes | projects/phoron/phoron_rs/phoron_core/src/deserializer.rs:175-180 | reads exactly `length` bytes in order, or fails when fewer remain |
| Decoder.Deserializer.DeserializeCpInfo | projects/phoron/phoron_rs/phoron_core/src/deserializer.rs:91-185 | reads a tag and the fields of its kind; an unknown tag gives an error |
| Decoder.Deserializer.DeserializeConstantPool | projects/phoron/phoron_rs/phoron_core/src/deserializer.rs:84-189 | reads count - 1 entries in order without skipping after a Long or Double; a count of 0 gives an underflow error |
| Decoder.Deserializer.DeserializeInterfaces | projects/phoron/phoron_rs/phoron_core/src/deserializer.rs:205-209 | reads exactly interfaces_count indices as stored |
| Decoder.Deserializer.Deserialize | projects/phoron/phoron_rs/phoron_core/src/deserializer.rs:191-241 | reads every part in file order with the same widths the encoder writes; any failed read yields an error and no class file |
| Mirror.EntryAfterEncode | projects/phoron/phoron_rs/phoron_core/src/serializer.rs:349-489 | every well-formed entry of all seventeen kinds the encoder writes is read back exactly, whatever follows |
| Mirror.ParseSlots | projects/phoron/phoron_rs/phoron_core/src/deserializer.rs:90 | a successful read of the slots yields one slot per index below the count, slot 0 empty |
| Mirror.PoolAfterEncode | projects/phoron/phoron_rs/phoron_core/src/serializer.rs:343-348 | every well-formed pool, Long and Double entries and their empty slots included, is read back slot for slot |
| Mirror.PoolReadThenWrite | projects/phoron/phoron_rs/phoron_core/src/deserializer.rs:84-189 | a pool count of 0 is an error; every pool the corrected decoder accepts is well formed (empty slot 0, an empty slot exactly after each Long or Double, stored tags and lengths consistent), and written back it is exactly the bytes that were read |
| Mirror.WidePoolReadBack | projects/phoron/phoron_rs/phoron_core/src/deserializer.rs:90 | the pool of count 3 holding one Long that the faithful decoder rejects is read back as written |
| Mirror.Unbump | projects/phoron/phoron_rs/phoron_core/src/serializer.rs:508-516 | undoing k+1 fails exactly on 1, which the encoder never writes, and otherwise gives the index whose adjustment is the value read |
| Mirror.UnbumpBump | projects/phoron/phoron_rs/phoron_core/src/serializer.rs:508-516 | undoing the adjustment after applying it gives the index back |
| Mirror.ParseBumpedAfterEncode | projects/phoron/phoron_rs/phoron_core/src/serializer.rs:77-81 | an adjusted index written by the encoder is read back as the original |
| Mirror.KindNamed | projects/phoron/phoron_rs/phoron_core/src/model.rs:88-95 | the six attribute names are told apart: a name maps to a kind exactly when it is that kind's name |
| Mirror.HandlersAfterEncode | projects/phoron/phoron_rs/phoron_core/src/serializer.rs:72-82 | exception handlers are read back exactly, catch_type undone |
| Mirror.ExceptionIndexTableAfterEncode | projects/phoron/phoron_rs/phoron_core/src/serializer.rs:98-101 | the Exceptions table is read back exactly, each k+1 undone |
| Mirror.LineNumbersAfterEncode | projects/phoron/phoron_rs/phoron_core/src/serializer.rs:115-118 | line-number entries are read back exactly |
| Mirror.LocalVariablesAfterEncode | projects/phoron/phoron_rs/phoron_core/src/serializer.rs:132-139 | local-variable entries are read back exactly |
| Mirror.CodeAfterEncode | projects/phoron/phoron_rs/phoron_core/src/serializer.rs:49-86 | a Code attribute, its code, handlers and nested attributes included, is read back exactly when every name resolves through the pool |
| Mirror.AttributeAfterEncode | projects/phoron/phoron_rs/phoron_core/src/serializer.rs:28-141 | each of the six written attribute kinds is read back exactly when its name resolves through the pool |
| Mirror.AttributesAfterEncode | projects/phoron/phoron_rs/phoron_core/src/serializer.rs:26-27 | a list of attributes is read back exactly |
| Mirror.MemberAfterEncode | projects/phoron/phoron_rs/phoron_core/src/serializer.rs:318-328 | a field or method is read back exactly, attributes included |
| Mirror.MembersAfterEncode | projects/phoron/phoron_rs/phoron_core/src/serializer.rs:318-340 | a run of fields or methods is read back exactly |
| Mirror.RoundTrip | projects/phoron/phoron_rs/phoron_core/src/serializer.rs:496-539 | for every well-formed, encodable class file whose attribute names resolve, decoding what the encoder wrote gives back the same class file, whatever follows it |
| Mirror.HandlersReadThenWrite | projects/phoron/phoron_rs/phoron_core/src/serializer.rs:72-82 | whatever exception handlers are read, none has catch_type 0xFFFF, and written back they are exactly the bytes consumed |
| Mirror.ExceptionIndexTableReadThenWrite | projects/phoron/phoron_rs/phoron_core/src/serializer.rs:98-101 | whatever exception indices are read, none is 0xFFFF, and written back they are exactly the bytes consumed |
| Mirror.LineNumbersReadThenWrite | projects/phoron/phoron_rs/phoron_core/src/serializer.rs:115-118 | whatever line-number entries are read, written back they are exactly the bytes consumed |
| Mirror.LocalVariablesReadThenWrite | projects/phoron/phoron_rs/phoron_core/src/serializer.rs:132-139 | whatever local-variable entries are read, written back they are exactly the bytes consumed |
| Mirror.CodeReadThenWrite | projects/phoron/phoron_rs/phoron_core/src/serializer.rs:49-86 | whatever Code attribute is read, nested attributes included, the encoder can write it and writes exactly the bytes consumed |
| Mirror.AttributeReadThenWrite | projects/phoron/phoron_rs/phoron_core/src/serializer.rs:28-141 | the contract of `ParseAttribute` in the read-then-write direction: whatever attribute is read, the encoder can write it and writes exactly the bytes consumed |
| Mirror.AttributeListReadThenWrite | projects/phoron/phoron_rs/phoron_core/src/serializer.rs:26-27 | whatever list of attributes is read, written back it is exactly the bytes consumed |
| Mirror.MemberReadThenWrite | projects/phoron/phoron_rs/phoron_core/src/serializer.rs:318-328 | whatever field or method is read, written back it is exactly the bytes consumed |
| Mirror.MembersReadThenWrite | projects/phoron/phoron_rs/phoron_core/src/serializer.rs:318-340 | whatever run of fields or methods is read, written back it is exactly the bytes consumed |
| Mirror.ReadThenWrite | projects/phoron/phoron_rs/phoron_core/src/deserializer.rs:191-241 | the contract of `ParseClassFile` in the read-then-write direction: every class file the corrected decoder accepts is encodable, and the encoder writes exactly the bytes that were read |
| Vectors.ClassFilePrefix | projects/phoron/phoron_rs/phoron_core/src/serializer.rs:497-506 | the first ten bytes of any encoded class file are magic, minor, major and the pool count |
| Vectors.MinimalHeader | projects/phoron/phoron_rs/phoron_core/src/serializer.rs:594-595 | the Minimal test's file starts `ca fe ba be 00 03 00 2d 00 0e` |
| Vectors.MinimalClassRefs | projects/phoron/phoron_rs/phoron_core/src/serializer.rs:689-691 | the Minimal test's access_flags 33, this_class 12 and super_class 12 are written `00 21 00 0c 00 0d` |
| Vectors.MinimalPoolWellFormed | projects/phoron/phoron_rs/phoron_core/src/serializer.rs:618-688 | the Minimal test's fourteen-slot pool is well formed |
| Vectors.MinimalDecodable | projects/phoron/phoron_rs/phoron_core/src/serializer.rs:613-741 | the Minimal test's class file meets every condition of the round trip |
| Vectors.MinimalReadBack | projects/phoron/phoron_rs/phoron_core/src/serializer.rs:743-746 | the encoder's output for the Minimal test's class file is read back as that class file |
| Vectors.MinimalBytes | projects/phoron/phoron_rs/phoron_core/src/serializer.rs:743-746 | the encoder's output for the Minimal test's class file is exactly the 217 bytes the test expects (serializer.rs:594-608) |
| HelloWorldVector.HelloWorldBytes | projects/phoron/phoron_rs/phoron_core/tests/test_serializer.rs:343-346 | the encoder's output for the HelloWorld test's class file is exactly the 422 bytes the test expects |
| FieldsVector.FieldsBytes | projects/phoron/phoron_rs/phoron_core/tests/test_serializer.rs:1157-1160 | the encoder's output for the Fields test's class file, a Double and its empty slot included, is exactly the 1023 bytes the test expects |
| Vectors.HelloWorldInitCode | projects/phoron/phoron_rs/phoron_core/tests/test_serializer.rs:288-306 | a Code attribute with five code bytes and one LineNumberTable has attribute_length 29 and is written as 35 bytes |

## Left out

- `main.rs` (the command-line driver), `error.rs` (message strings and `Display`) and the `std::io::Read`/`Write` streams are not part of this model. Streams are byte sequences, errors are one `Results.Error` datatype, and every write to the sink is taken to write all its bytes.
- Float and Double constants are kept as their raw 32-bit words. Their IEEE meaning is not modelled.
- Bytecode inside `code` is opaque bytes.
- The 22 attribute kinds after LocalVariableTable (StackMapTable through PermittedSubclasses) are one `Unwritten` variant. Its encoding is empty, as in the source. Their payload formats are not modelled.
- Encoder.Serializer.Serialize: the source returns early if a write fails. The model's `Writer` never fails, so the serializer methods discard the always-successful outcome and have no error path.
- Encoder.Serializer.Serialize: `assert!(constant_pool_count > 0)`, a nonzero `super_class`, `catch_type` or exception index equal to 0xFFFF (whose k+1 overflows and panics), and `interfaces_count` above the vector's length (out-of-bounds panic) are preconditions (`Encoder.Encodable`), not modelled panics.
- Decoder.Deserializer.DeserializeConstantPool: a pool count of 0, whose `count - 1` underflows in the source, is modelled as the error `CountUnderflow`. The `unimplemented!()` on an unknown tag is modelled as the error `UnknownTag`, not a panic.
- Rw.Reader.ReadN: after a failed read the source leaves the stream position unspecified. The model leaves the cursor where it was.
- Decoder.Deserializer.DeserializeAttributes: the source's body is an empty loop, so the faithful decoder reads no attribute bytes. The model keeps that behaviour and does not add an attribute reader.
- Mirror.ParseAttribute: the corrected decoder does not check `attribute_length` against the payload it reads, and it rejects attributes whose name does not resolve to one of the six modelled kinds.
- `#[derive(Debug)]` output and the decoder's print-only test are not modelled.

## Findings

| source | as written | input that shows it | evidently intended | confidence | as-written member | corrected member |
|---|---|---|---|---|---|---|
| projects/phoron/phoron_rs/phoron_core/src/deserializer.rs:90 | The pool loop reads one entry for each of the count - 1 slots, including the unusable slot after a Long or Double | A class file with constant_pool_count 3, a Long in slot 1 and access_flags below 0x100. The encoder writes nine pool bytes; the decoder reads a second entry from the access_flags bytes and stops on tag 0 | Skip the slot after a Long or Double (section 4.4.5 of the Java Virtual Machine Specification), as the encoder's pool layout assumes | not executed; high | Decoder.WideEntryMisread | Mirror.PoolAfterEncode |
| projects/phoron/phoron_rs/phoron_core/src/deserializer.rs:203 | super_class is read as written, while the encoder writes a nonzero super_class k as k+1 | Any class file with super_class 12: it is written as 13 and read back as 13 | Reading back what was written gives the same class file, so one side's adjustment must be undone by the other | not executed; medium (the Minimal test stores 12 for a superclass at pool index 13, so the encoder's k+1 may be the part at fault) | Decoder.FaithfulRoundTrip | Mirror.RoundTrip |
