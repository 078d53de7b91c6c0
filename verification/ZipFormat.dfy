// The archive layout and an independent reader of it: end record, central
// directory and local headers as sections 4.3.16, 4.3.12 and 4.3.7 of the
// PKWARE APPNOTE lay them out. The writer is in ZipWriter.dfy.
module ZipFormat {
  import opened Wrappers
  import opened Crc32

  // A name is the UTF-8 encoding the writer stores.
  datatype Entry = Entry(name: seq<byte>, data: seq<byte>)

  const LOCAL_SIGNATURE: nat := 0x04034b50
  const CENTRAL_SIGNATURE: nat := 0x02014b50
  const END_SIGNATURE: nat := 0x06054b50
  const UTF8_FLAG: nat := 0x0800
  const VERSION: nat := 20
  const MAX16: nat := 0xFFFF
  const MAX32: nat := 0xFFFF_FFFF

  /******* Fields *******/

  function U16(z: seq<byte>, at: nat): nat
    requires at + 2 <= |z|
  {
    var low: nat, high: nat := z[at], z[at + 1];
    low + 256 * high
  }

  function U32(z: seq<byte>, at: nat): nat
    requires at + 4 <= |z|
  {
    U16(z, at) + 0x1_0000 * U16(z, at + 2)
  }

  /******* Records *******/

  predicate LocalHeader(z: seq<byte>, at: nat, crc: nat, size: nat, nameLength: nat) {
    && at + 30 <= |z|
    && U32(z, at) == LOCAL_SIGNATURE
    && U16(z, at + 4) == VERSION
    && U16(z, at + 6) == UTF8_FLAG
    && U16(z, at + 8) == 0 // stored
    && U32(z, at + 10) == 0 // time and date
    && U32(z, at + 14) == crc
    && U32(z, at + 18) == size
    && U32(z, at + 22) == size
    && U16(z, at + 26) == nameLength
    && U16(z, at + 28) == 0 // no extra field
  }

  predicate CentralHeader(z: seq<byte>, at: nat, crc: nat, size: nat, nameLength: nat, offset: nat) {
    && at + 46 <= |z|
    && U32(z, at) == CENTRAL_SIGNATURE
    && U16(z, at + 4) == VERSION
    && U16(z, at + 6) == VERSION
    && U16(z, at + 8) == UTF8_FLAG
    && U16(z, at + 10) == 0 // stored
    && U32(z, at + 12) == 0 // time and date
    && U32(z, at + 16) == crc
    && U32(z, at + 20) == size
    && U32(z, at + 24) == size
    && U16(z, at + 28) == nameLength
    && U16(z, at + 30) == 0 // no extra field
    && U16(z, at + 32) == 0 // no comment
    && U16(z, at + 34) == 0 // first disk
    && U16(z, at + 36) == 0 // internal attributes
    && U32(z, at + 38) == 0 // external attributes
    && U32(z, at + 42) == offset
  }

  predicate EndRecord(z: seq<byte>, at: nat, count: nat, size: nat, start: nat) {
    && at + 22 <= |z|
    && U32(z, at) == END_SIGNATURE
    && U16(z, at + 4) == 0 && U16(z, at + 6) == 0 // one disk
    && U16(z, at + 8) == count && U16(z, at + 10) == count
    && U32(z, at + 12) == size
    && U32(z, at + 16) == start
    && U16(z, at + 20) == 0 // no comment
  }

  // The bytes s stand at position at.
  predicate BytesAt(z: seq<byte>, at: nat, s: seq<byte>) {
    at + |s| <= |z| && z[at..at + |s|] == s
  }

  predicate LocalAt(z: seq<byte>, at: nat, e: Entry) {
    && LocalHeader(z, at, Crc(e.data), |e.data|, |e.name|)
    && BytesAt(z, at + 30, e.name)
    && BytesAt(z, at + 30 + |e.name|, e.data)
  }

  predicate CentralAt(z: seq<byte>, at: nat, e: Entry, offset: nat) {
    && CentralHeader(z, at, Crc(e.data), |e.data|, |e.name|, offset)
    && BytesAt(z, at + 46, e.name)
  }

  /******* The whole archive *******/

  // Where the i-th local header starts, and the i-th central header relative
  // to the first one.
  function LocalStart(entries: seq<Entry>, i: nat): nat
    requires i <= |entries|
  {
    if i == 0 then 0
    else LocalStart(entries, i - 1) + 30 + |entries[i - 1].name| + |entries[i - 1].data|
  }

  function CentralStart(entries: seq<Entry>, i: nat): nat
    requires i <= |entries|
  {
    if i == 0 then 0 else CentralStart(entries, i - 1) + 46 + |entries[i - 1].name|
  }

  predicate LocalsWritten(z: seq<byte>, entries: seq<Entry>, n: nat)
    requires n <= |entries|
  {
    forall i {:trigger LocalStart(entries, i)} :: 0 <= i < n ==> LocalAt(z, LocalStart(entries, i), entries[i])
  }

  predicate CentralsWritten(z: seq<byte>, start: nat, entries: seq<Entry>, n: nat)
    requires n <= |entries|
  {
    forall i {:trigger CentralStart(entries, i)} :: 0 <= i < n ==>
      CentralAt(z, start + CentralStart(entries, i), entries[i], LocalStart(entries, i))
  }

  predicate IsArchive(z: seq<byte>, entries: seq<Entry>) {
    var n := |entries|;
    var start := LocalStart(entries, n);
    var size := CentralStart(entries, n);
    && |z| == start + size + 22
    && LocalsWritten(z, entries, n)
    && CentralsWritten(z, start, entries, n)
    && EndRecord(z, start + size, n, size, start)
  }

  // What the 16 and 32 bit fields can hold.
  predicate EntryFits(e: Entry) {
    |e.name| <= MAX16 && |e.data| <= MAX32
  }

  predicate Fits(entries: seq<Entry>) {
    && |entries| <= MAX16
    && LocalStart(entries, |entries|) <= MAX32
    && CentralStart(entries, |entries|) <= MAX32
    && forall i :: 0 <= i < |entries| ==> EntryFits(entries[i])
  }

  // Below two to the sixteen and two to the thirty-two.
  lemma LimitsAre(entries: seq<Entry>)
    ensures Fits(entries) <==>
      && |entries| < 65536
      && (forall i :: 0 <= i < |entries| ==> |entries[i].name| < 65536 && |entries[i].data| < 4294967296)
      && LocalStart(entries, |entries|) < 4294967296 && CentralStart(entries, |entries|) < 4294967296
  {
    hide LocalStart, CentralStart;
    forall i | 0 <= i < |entries|
      ensures EntryFits(entries[i]) <==> |entries[i].name| < 65536 && |entries[i].data| < 4294967296
    {
    }
  }

  /******* The reader *******/

  // Finds the end record, walks the central directory and follows each
  // offset to the local header, checking what the two say about the entry.
  function Read(z: seq<byte>): Option<seq<Entry>> {
    if |z| < 22 then None else
    var end := |z| - 22;
    if U32(z, end) != END_SIGNATURE || U16(z, end + 20) != 0 then None else
    if U16(z, end + 4) != 0 || U16(z, end + 6) != 0 || U16(z, end + 8) != U16(z, end + 10) then None else
    var size, start := U32(z, end + 12), U32(z, end + 16);
    if start + size > end then None else ReadDirectory(z, start, start + size, U16(z, end + 10))
  }

  function ReadDirectory(z: seq<byte>, at: nat, end: nat, count: nat): Option<seq<Entry>>
    requires end <= |z|
    decreases count
  {
    if count == 0 then (if at == end then Some([]) else None) else
    if at + 46 > end || U32(z, at) != CENTRAL_SIGNATURE then None else
    var next := at + 46 + U16(z, at + 28) + U16(z, at + 30) + U16(z, at + 32);
    if next > end then None else
    var first := ReadMember(z, at);
    var rest := ReadDirectory(z, next, end, count - 1);
    if first.None? || rest.None? then None else Some([first.value] + rest.value)
  }

  // The local header repeats what the central one says.
  predicate HeadersAgree(z: seq<byte>, at: nat, offset: nat)
    requires at + 46 <= |z| && offset + 30 <= |z|
  {
    && U32(z, offset) == LOCAL_SIGNATURE
    && U16(z, offset + 6) == U16(z, at + 8)
    && U16(z, offset + 8) == U16(z, at + 10) == 0
    && U32(z, offset + 14) == U32(z, at + 16)
    && U32(z, offset + 18) == U32(z, offset + 22) == U32(z, at + 20) == U32(z, at + 24)
    && U16(z, offset + 26) == U16(z, at + 28)
  }

  function ReadMember(z: seq<byte>, at: nat): Option<Entry>
    requires at + 46 <= |z|
    requires at + 46 + U16(z, at + 28) <= |z|
  {
    var name := z[at + 46..at + 46 + U16(z, at + 28)];
    var offset := U32(z, at + 42);
    if offset + 30 > |z| || !HeadersAgree(z, at, offset) then None else
    var body := offset + 30 + |name| + U16(z, offset + 28);
    var size := U32(z, at + 20);
    if body + size > |z| || z[offset + 30..offset + 30 + |name|] != name then None else
    var data := z[body..body + size];
    if Crc(data) != U32(z, at + 16) then None else Some(Entry(name, data))
  }

  /******* Reading back *******/

  lemma WrittenHeadersAgree(z: seq<byte>, at: nat, offset: nat, crc: nat, size: nat, nameLength: nat)
    requires CentralHeader(z, at, crc, size, nameLength, offset) && LocalHeader(z, offset, crc, size, nameLength)
    ensures HeadersAgree(z, at, offset)
  {
  }

  lemma ReadsMember(z: seq<byte>, at: nat, e: Entry, offset: nat)
    requires CentralAt(z, at, e, offset) && LocalAt(z, offset, e)
    ensures ReadMember(z, at) == Some(e)
  {
    hide U16, U32, Crc;
    WrittenHeadersAgree(z, at, offset, Crc(e.data), |e.data|, |e.name|);
    assert U16(z, at + 28) == |e.name| && U32(z, at + 20) == |e.data| && U32(z, at + 16) == Crc(e.data);
    assert U16(z, offset + 28) == 0;
  }

  lemma ReadsFirst(z: seq<byte>, at: nat, end: nat, count: nat, e: Entry, offset: nat, rest: seq<Entry>)
    requires CentralAt(z, at, e, offset) && LocalAt(z, offset, e)
    requires at + 46 + |e.name| <= end <= |z| && count > 0
    requires ReadDirectory(z, at + 46 + |e.name|, end, count - 1) == Some(rest)
    ensures ReadDirectory(z, at, end, count) == Some([e] + rest)
  {
    hide U16, U32, Crc;
    ReadsMember(z, at, e, offset);
    assert U16(z, at + 28) == |e.name| && U16(z, at + 30) == 0 && U16(z, at + 32) == 0;
  }

  lemma {:induction false} CentralStartGrows(entries: seq<Entry>, i: nat, n: nat)
    requires i <= n <= |entries|
    ensures CentralStart(entries, i) + 46 * (n - i) <= CentralStart(entries, n)
    decreases n - i
  {
    if i < n { CentralStartGrows(entries, i, n - 1); }
  }

  lemma {:induction false} ReadsDirectory(z: seq<byte>, entries: seq<Entry>, i: nat, at: nat, end: nat)
    requires i <= |entries| && end <= |z|
    requires LocalsWritten(z, entries, |entries|)
    requires CentralsWritten(z, LocalStart(entries, |entries|), entries, |entries|)
    requires at == LocalStart(entries, |entries|) + CentralStart(entries, i)
    requires end == LocalStart(entries, |entries|) + CentralStart(entries, |entries|)
    ensures ReadDirectory(z, at, end, |entries| - i) == Some(entries[i..])
    decreases |entries| - i
  {
    hide U16, U32, Crc, ReadMember, LocalAt, CentralAt, LocalStart;
    if i == |entries| {
      assert entries[i..] == [];
    } else {
      var e := entries[i];
      var offset := LocalStart(entries, i);
      var next := at + 46 + |e.name|;
      assert next == LocalStart(entries, |entries|) + CentralStart(entries, i + 1);
      CentralStartGrows(entries, i + 1, |entries|);
      ReadsDirectory(z, entries, i + 1, next, end);
      ReadsFirst(z, at, end, |entries| - i, e, offset, entries[i + 1..]);
      assert entries[i..] == [e] + entries[i + 1..];
    }
  }

  // The reader recovers exactly the names and data that were put in, with the
  // sizes and checksums of both headers agreeing with the data.
  lemma ReadsArchive(z: seq<byte>, entries: seq<Entry>)
    requires IsArchive(z, entries)
    ensures Read(z) == Some(entries)
  {
    hide ReadDirectory, LocalsWritten, CentralsWritten, LocalStart;
    ReadsDirectory(z, entries, 0, LocalStart(entries, |entries|), |z| - 22);
    assert entries[0..] == entries;
  }

  /******* The fixed bytes *******/

  // A field stands with its low byte first.
  lemma FieldBytes(z: seq<byte>, at: nat, v: nat)
    requires at + 2 <= |z| && U16(z, at) == v
    ensures z[at] == v % 256 && z[at + 1] == v / 256
  {
  }

  // What a header is recognised by, byte for byte: "PK", the kind of record,
  // version 2.0, UTF-8 names, stored, no time.
  lemma LocalHeaderBytes(z: seq<byte>, at: nat, crc: nat, size: nat, nameLength: nat)
    requires LocalHeader(z, at, crc, size, nameLength)
    ensures z[at..at + 14] == [0x50, 0x4B, 3, 4, 20, 0, 0, 8, 0, 0, 0, 0, 0, 0]
  {
    var low, high := U16(z, at), U16(z, at + 2);
    assert low == 0x4B50 && high == 0x0403;
    hide U16, U32;
    FieldBytes(z, at, 0x4B50);
    FieldBytes(z, at + 2, 0x0403);
    FieldBytes(z, at + 4, 20);
    FieldBytes(z, at + 6, 0x0800);
    FieldBytes(z, at + 8, 0);
    ZeroBytes(z, at + 10);
  }

  lemma ZeroBytes(z: seq<byte>, at: nat)
    requires at + 4 <= |z| && U32(z, at) == 0
    ensures z[at] == z[at + 1] == z[at + 2] == z[at + 3] == 0
  {
  }

  lemma CentralHeaderBytes(z: seq<byte>, at: nat, crc: nat, size: nat, nameLength: nat, offset: nat)
    requires CentralHeader(z, at, crc, size, nameLength, offset)
    ensures z[at..at + 16] == [0x50, 0x4B, 1, 2, 20, 0, 20, 0, 0, 8, 0, 0, 0, 0, 0, 0]
  {
    var low, high := U16(z, at), U16(z, at + 2);
    assert low == 0x4B50 && high == 0x0201;
    hide U16, U32;
    FieldBytes(z, at, 0x4B50);
    FieldBytes(z, at + 2, 0x0201);
    FieldBytes(z, at + 4, 20);
    FieldBytes(z, at + 6, 20);
    FieldBytes(z, at + 8, 0x0800);
    FieldBytes(z, at + 10, 0);
    ZeroBytes(z, at + 12);
  }

  lemma EndRecordBytes(z: seq<byte>, at: nat, count: nat, size: nat, start: nat)
    requires EndRecord(z, at, count, size, start)
    ensures z[at..at + 8] == [0x50, 0x4B, 5, 6, 0, 0, 0, 0]
  {
    var low, high := U16(z, at), U16(z, at + 2);
    assert low == 0x4B50 && high == 0x0605;
    hide U16, U32;
    FieldBytes(z, at, 0x4B50);
    FieldBytes(z, at + 2, 0x0605);
    FieldBytes(z, at + 4, 0);
    FieldBytes(z, at + 6, 0);
  }
}
