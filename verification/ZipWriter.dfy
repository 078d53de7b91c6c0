// The archive writer: headers filled in place field by field, parts and
// central records collected with a running offset.
module ZipWriter {
  import opened Wrappers
  import opened Crc32
  import opened ZipFormat

  // A value does not fit the field it is written to.
  datatype RangeError = RangeError

  // What the first loop keeps about an entry for the second.
  datatype Central = Central(name: seq<byte>, crc: nat, size: nat, offset: nat)

  // Buffer.alloc fills with zeros.
  method Alloc(n: nat) returns (b: array<byte>)
    ensures fresh(b) && b.Length == n
    ensures forall q: nat {:trigger U16(b[..], q)} :: q + 2 <= n ==> U16(b[..], q) == 0
  {
    b := new byte[n](_ => 0);
  }

  method WriteUInt16(b: array<byte>, v: nat, at: nat)
    requires at + 2 <= b.Length && v <= MAX16
    modifies b
    ensures U16(b[..], at) == v
    ensures forall q: nat {:trigger U16(b[..], q)} :: q + 2 <= b.Length && (q + 2 <= at || at + 2 <= q) ==>
      U16(b[..], q) == old(U16(b[..], q))
  {
    b[at] := v % 256;
    b[at + 1] := v / 256;
  }

  method WriteUInt32(b: array<byte>, v: nat, at: nat)
    requires at + 4 <= b.Length && v <= MAX32
    modifies b
    ensures U32(b[..], at) == v
    ensures forall q: nat {:trigger U16(b[..], q)} :: q + 2 <= b.Length && (q + 2 <= at || at + 4 <= q) ==>
      U16(b[..], q) == old(U16(b[..], q))
  {
    hide U16;
    WriteUInt16(b, v % 0x1_0000, at);
    WriteUInt16(b, v / 0x1_0000, at + 2);
  }

  method WriteLocalHeader(crc: nat, size: nat, nameLength: nat) returns (local: array<byte>)
    requires crc <= MAX32 && size <= MAX32 && nameLength <= MAX16
    ensures fresh(local) && local.Length == 30
    ensures LocalHeader(local[..], 0, crc, size, nameLength)
  {
    hide U16;
    local := Alloc(30);
    WriteUInt32(local, LOCAL_SIGNATURE, 0);
    WriteUInt16(local, VERSION, 4);
    WriteUInt16(local, UTF8_FLAG, 6);
    WriteUInt16(local, 0, 8);
    WriteUInt32(local, crc, 14);
    WriteUInt32(local, size, 18);
    WriteUInt32(local, size, 22);
    WriteUInt16(local, nameLength, 26);
  }

  method WriteCentralHeader(c: Central) returns (header: array<byte>)
    requires c.crc <= MAX32 && c.size <= MAX32 && |c.name| <= MAX16 && c.offset <= MAX32
    ensures fresh(header) && header.Length == 46
    ensures CentralHeader(header[..], 0, c.crc, c.size, |c.name|, c.offset)
  {
    hide U16;
    header := Alloc(46);
    WriteUInt32(header, CENTRAL_SIGNATURE, 0);
    WriteUInt16(header, VERSION, 4);
    WriteUInt16(header, VERSION, 6);
    WriteUInt16(header, UTF8_FLAG, 8);
    WriteUInt32(header, c.crc, 16);
    WriteUInt32(header, c.size, 20);
    WriteUInt32(header, c.size, 24);
    WriteUInt16(header, |c.name|, 28);
    WriteUInt32(header, c.offset, 42);
  }

  method WriteEndRecord(count: nat, size: nat, start: nat) returns (end: array<byte>)
    requires count <= MAX16 && size <= MAX32 && start <= MAX32
    ensures fresh(end) && end.Length == 22
    ensures EndRecord(end[..], 0, count, size, start)
  {
    hide U16;
    end := Alloc(22);
    WriteUInt32(end, END_SIGNATURE, 0);
    WriteUInt16(end, count, 8);
    WriteUInt16(end, count, 10);
    WriteUInt32(end, size, 12);
    WriteUInt32(end, start, 16);
  }

  /******* Records keep when bytes are put around them *******/

  lemma FieldsLift(a: seq<byte>, s: seq<byte>, b: seq<byte>)
    ensures forall q: nat {:trigger U16(s, q)} :: q + 2 <= |s| ==> U16(a + s + b, |a| + q) == U16(s, q)
    ensures forall q: nat {:trigger U32(s, q)} :: q + 4 <= |s| ==> U32(a + s + b, |a| + q) == U32(s, q)
  {
  }

  lemma BytesLift(a: seq<byte>, s: seq<byte>, b: seq<byte>, at: nat, bytes: seq<byte>)
    requires BytesAt(s, at, bytes)
    ensures BytesAt(a + s + b, |a| + at, bytes)
  {
  }

  lemma LocalHeaderLifts(a: seq<byte>, s: seq<byte>, b: seq<byte>, at: nat, crc: nat, size: nat, nameLength: nat)
    requires LocalHeader(s, at, crc, size, nameLength)
    ensures LocalHeader(a + s + b, |a| + at, crc, size, nameLength)
  {
    hide U16, U32;
    FieldsLift(a, s, b);
  }

  lemma CentralHeaderLifts(a: seq<byte>, s: seq<byte>, b: seq<byte>, at: nat, crc: nat, size: nat, nameLength: nat,
                           offset: nat)
    requires CentralHeader(s, at, crc, size, nameLength, offset)
    ensures CentralHeader(a + s + b, |a| + at, crc, size, nameLength, offset)
  {
    hide U16, U32;
    FieldsLift(a, s, b);
  }

  lemma EndRecordLifts(a: seq<byte>, s: seq<byte>, count: nat, size: nat, start: nat)
    requires EndRecord(s, 0, count, size, start)
    ensures EndRecord(a + s, |a|, count, size, start)
  {
    hide U16, U32;
    FieldsLift(a, s, []);
    assert a + s + [] == a + s;
  }

  lemma LocalLifts(a: seq<byte>, s: seq<byte>, b: seq<byte>, at: nat, e: Entry)
    requires LocalAt(s, at, e)
    ensures LocalAt(a + s + b, |a| + at, e)
  {
    hide LocalHeader, BytesAt, Crc;
    LocalHeaderLifts(a, s, b, at, Crc(e.data), |e.data|, |e.name|);
    BytesLift(a, s, b, at + 30, e.name);
    BytesLift(a, s, b, at + 30 + |e.name|, e.data);
  }

  lemma CentralLifts(a: seq<byte>, s: seq<byte>, b: seq<byte>, at: nat, e: Entry, offset: nat)
    requires CentralAt(s, at, e, offset)
    ensures CentralAt(a + s + b, |a| + at, e, offset)
  {
    hide CentralHeader, BytesAt, Crc;
    CentralHeaderLifts(a, s, b, at, Crc(e.data), |e.data|, |e.name|, offset);
    BytesLift(a, s, b, at + 46, e.name);
  }

  lemma LocalRecord(header: seq<byte>, e: Entry)
    requires |header| == 30 && LocalHeader(header, 0, Crc(e.data), |e.data|, |e.name|)
    ensures LocalAt(header + e.name + e.data, 0, e)
  {
    hide LocalHeader, Crc;
    var s := header + e.name + e.data;
    LocalHeaderLifts([], header, e.name + e.data, 0, Crc(e.data), |e.data|, |e.name|);
    assert [] + header + (e.name + e.data) == s;
  }

  lemma CentralRecord(header: seq<byte>, e: Entry, offset: nat)
    requires |header| == 46 && CentralHeader(header, 0, Crc(e.data), |e.data|, |e.name|, offset)
    ensures CentralAt(header + e.name, 0, e, offset)
  {
    hide CentralHeader, Crc;
    CentralHeaderLifts([], header, e.name, 0, Crc(e.data), |e.data|, |e.name|, offset);
    assert [] + header + e.name == header + e.name;
  }

  lemma LocalsLift(s: seq<byte>, b: seq<byte>, entries: seq<Entry>, n: nat)
    requires n <= |entries| && LocalsWritten(s, entries, n)
    ensures LocalsWritten(s + b, entries, n)
  {
    hide LocalAt, LocalStart;
    forall j | 0 <= j < n
      ensures LocalAt(s + b, LocalStart(entries, j), entries[j])
    {
      LocalLifts([], s, b, LocalStart(entries, j), entries[j]);
      assert [] + s + b == s + b;
    }
  }

  lemma CentralsLift(a: seq<byte>, s: seq<byte>, b: seq<byte>, entries: seq<Entry>, n: nat)
    requires n <= |entries| && CentralsWritten(s, 0, entries, n)
    ensures CentralsWritten(a + s + b, |a|, entries, n)
  {
    hide CentralAt, LocalStart, CentralStart;
    forall j | 0 <= j < n
      ensures CentralAt(a + s + b, |a| + CentralStart(entries, j), entries[j], LocalStart(entries, j))
    {
      CentralLifts(a, s, b, CentralStart(entries, j), entries[j], LocalStart(entries, j));
    }
  }

  lemma OneMoreLocal(parts: seq<byte>, entries: seq<Entry>, i: nat, header: seq<byte>)
    requires i < |entries| && LocalsWritten(parts, entries, i) && |parts| == LocalStart(entries, i)
    requires |header| == 30
    requires LocalHeader(header, 0, Crc(entries[i].data), |entries[i].data|, |entries[i].name|)
    ensures LocalsWritten(parts + header + entries[i].name + entries[i].data, entries, i + 1)
  {
    hide LocalHeader, Crc, LocalAt, LocalStart;
    var e := entries[i];
    var record := header + e.name + e.data;
    assert parts + record + [] == parts + header + e.name + e.data == parts + record;
    LocalRecord(header, e);
    LocalLifts(parts, record, [], 0, e);
    LocalsLift(parts, record, entries, i);
  }

  lemma OneMoreCentral(parts: seq<byte>, entries: seq<Entry>, i: nat, header: seq<byte>)
    requires i < |entries| && CentralsWritten(parts, 0, entries, i) && |parts| == CentralStart(entries, i)
    requires |header| == 46
    requires CentralHeader(header, 0, Crc(entries[i].data), |entries[i].data|, |entries[i].name|, LocalStart(entries, i))
    ensures CentralsWritten(parts + header + entries[i].name, 0, entries, i + 1)
  {
    hide CentralHeader, Crc, CentralAt, LocalStart, CentralStart;
    var e := entries[i];
    var record := header + e.name;
    assert parts + record + [] == parts + header + e.name == [] + parts + record;
    CentralRecord(header, e, LocalStart(entries, i));
    CentralLifts(parts, record, [], 0, e, LocalStart(entries, i));
    CentralsLift([], parts, record, entries, i);
  }

  // The three parts joined are an archive.
  lemma Joined(locals: seq<byte>, centrals: seq<byte>, end: seq<byte>, entries: seq<Entry>)
    requires LocalsWritten(locals, entries, |entries|) && |locals| == LocalStart(entries, |entries|)
    requires CentralsWritten(centrals, 0, entries, |entries|) && |centrals| == CentralStart(entries, |entries|)
    requires |end| == 22 && EndRecord(end, 0, |entries|, |centrals|, |locals|)
    ensures IsArchive(locals + centrals + end, entries)
  {
    hide LocalAt, CentralAt, EndRecord, LocalStart, CentralStart;
    var z := locals + centrals + end;
    EndRecordLifts(locals + centrals, end, |entries|, |centrals|, |locals|);
    LocalsLift(locals, centrals + end, entries, |entries|);
    assert locals + (centrals + end) == z;
    CentralsLift(locals, centrals, end, entries, |entries|);
  }

  /******* The program *******/

  function CentralOf(entries: seq<Entry>, i: nat): Central
    requires i < |entries|
  {
    Central(entries[i].name, Crc(entries[i].data), |entries[i].data|, LocalStart(entries, i))
  }

  // The write of a value outside its field's range is what fails.
  method WriteLocals(t: array<nat>, entries: seq<Entry>) returns (r: Result<(seq<byte>, seq<Central>), RangeError>)
    requires t.Length == 256 && forall n :: 0 <= n < 256 ==> t[n] == Shifts(n, 8)
    ensures r.Success? <==> forall i :: 0 <= i < |entries| ==> EntryFits(entries[i])
    ensures r.Success? ==>
      && |r.value.0| == LocalStart(entries, |entries|)
      && LocalsWritten(r.value.0, entries, |entries|)
      && |r.value.1| == |entries|
      && forall i :: 0 <= i < |entries| ==> r.value.1[i] == CentralOf(entries, i)
  {
    hide LocalHeader, Crc, LocalsWritten, Shifts;
    var parts: seq<byte> := [];
    var central: seq<Central> := [];
    var offset := 0;
    assert LocalsWritten(parts, entries, 0) by { NothingWritten(entries); }
    for i := 0 to |entries|
      invariant offset == |parts| == LocalStart(entries, i)
      invariant LocalsWritten(parts, entries, i)
      invariant forall j :: 0 <= j < i ==> EntryFits(entries[j])
      invariant |central| == i && forall j :: 0 <= j < i ==> central[j] == CentralOf(entries, j)
    {
      var e := entries[i];
      var crc := Checksum(t, e.data);
      if |e.data| > MAX32 || |e.name| > MAX16 { return Failure(RangeError); }
      var local := WriteLocalHeader(crc, |e.data|, |e.name|);
      OneMoreLocal(parts, entries, i, local[..]);
      parts := parts + local[..] + e.name + e.data;
      central := central + [Central(e.name, crc, |e.data|, offset)];
      offset := offset + 30 + |e.name| + |e.data|;
    }
    r := Success((parts, central));
  }

  lemma NothingWritten(entries: seq<Entry>)
    ensures LocalsWritten([], entries, 0) && CentralsWritten([], 0, entries, 0)
  {
  }

  method WriteCentrals(ghost entries: seq<Entry>, central: seq<Central>) returns (r: Result<seq<byte>, RangeError>)
    requires |central| == |entries| && forall i :: 0 <= i < |entries| ==> central[i] == CentralOf(entries, i)
    requires forall i :: 0 <= i < |entries| ==> EntryFits(entries[i])
    ensures r.Success? <==> forall i :: 0 <= i < |entries| ==> LocalStart(entries, i) <= MAX32
    ensures r.Success? ==>
      && |r.value| == CentralStart(entries, |entries|)
      && CentralsWritten(r.value, 0, entries, |entries|)
  {
    hide CentralHeader, Crc, CentralsWritten, LocalStart;
    var parts: seq<byte> := [];
    assert CentralsWritten(parts, 0, entries, 0) by { NothingWritten(entries); }
    for i := 0 to |central|
      invariant |parts| == CentralStart(entries, i)
      invariant CentralsWritten(parts, 0, entries, i)
      invariant forall j :: 0 <= j < i ==> LocalStart(entries, j) <= MAX32
    {
      var c := central[i];
      CrcIsWord(entries[i].data);
      assert c == CentralOf(entries, i) && c.offset == LocalStart(entries, i);
      if c.offset > MAX32 { return Failure(RangeError); }
      var header := WriteCentralHeader(c);
      OneMoreCentral(parts, entries, i, header[..]);
      parts := parts + header[..] + c.name;
    }
    r := Success(parts);
  }

  lemma {:induction false} LocalStartGrows(entries: seq<Entry>, i: nat, n: nat)
    requires i <= n <= |entries|
    ensures LocalStart(entries, i) <= LocalStart(entries, n)
    decreases n - i
  {
    if i < n { LocalStartGrows(entries, i, n - 1); }
  }

  // Fails exactly when some count, length or offset is too big for its field;
  // otherwise the reader gets every entry back.
  method BuildZip(t: array<nat>, entries: seq<Entry>) returns (r: Result<seq<byte>, RangeError>)
    requires t.Length == 256 && forall n :: 0 <= n < 256 ==> t[n] == Shifts(n, 8)
    ensures r.Success? <==> Fits(entries)
    ensures r.Success? ==> IsArchive(r.value, entries) && Read(r.value) == Some(entries)
  {
    hide LocalsWritten, CentralsWritten, EndRecord, LocalStart, CentralStart, Read, IsArchive, Shifts;
    var first := WriteLocals(t, entries);
    if first.Failure? { return Failure(RangeError); }
    var (parts, central) := first.value;
    var second := WriteCentrals(entries, central);
    forall i | 0 <= i < |entries| ensures LocalStart(entries, i) <= LocalStart(entries, |entries|) {
      LocalStartGrows(entries, i, |entries|);
    }
    if second.Failure? { return Failure(RangeError); }
    if |central| > MAX16 || |second.value| > MAX32 || |parts| > MAX32 { return Failure(RangeError); }
    var end := WriteEndRecord(|central|, |second.value|, |parts|);
    Joined(parts, second.value, end[..], entries);
    ReadsArchive(parts + second.value + end[..], entries);
    r := Success(parts + second.value + end[..]);
  }
}
