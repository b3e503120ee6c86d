/**
 The stored-entry ZIP writer: fixed buffers filled field by field, running offsets, and three
 concatenated parts (PKWARE APPNOTE.TXT sections 4.3.7, 4.3.12 and 4.3.16).
*/
module ZipArchive {
  import opened Wrappers
  import Crc32

  newtype byte = v: int | 0 <= v < 0x100
  type Bytes = seq<byte>

  datatype Entry = Entry(name: Bytes, data: Bytes)

  const LOCAL_SIGNATURE: nat := 0x04034b50
  const CENTRAL_SIGNATURE: nat := 0x02014b50
  const END_SIGNATURE: nat := 0x06054b50
  const LIMIT16: nat := 0x1_0000
  const LIMIT32: nat := 0x1_0000_0000

  // ------------------------------------------------------------------ little-endian fields

  /** Byte `k` of a little-endian number. */
  function Byte(v: nat, k: nat): byte
    requires k < 4
  {
    var place := if k == 0 then v else if k == 1 then v / 0x100 else if k == 2 then v / 0x1_0000 else v / 0x100_0000;
    (place % 0x100) as byte
  }

  function Value(b: byte): nat { b as nat }

  function Read16(s: Bytes, o: nat): nat
    requires o + 2 <= |s|
  {
    Value(s[o]) + 0x100 * Value(s[o + 1])
  }

  function Read32(s: Bytes, o: nat): nat
    requires o + 4 <= |s|
  {
    Value(s[o]) + 0x100 * Value(s[o + 1]) + 0x1_0000 * Value(s[o + 2]) + 0x100_0000 * Value(s[o + 3])
  }

  lemma BytesOf16(v: nat)
    requires v < LIMIT16
    ensures Value(Byte(v, 0)) + 0x100 * Value(Byte(v, 1)) == v
  {
  }

  lemma Digits(v: nat)
    ensures v == v % 0x100 + 0x100 * (v / 0x100)
    ensures v / 0x1_0000 == v / 0x100 / 0x100 && v / 0x100_0000 == v / 0x1_0000 / 0x100
  {
  }

  lemma BytesOf32(v: nat)
    requires v < LIMIT32
    ensures Value(Byte(v, 0)) + 0x100 * Value(Byte(v, 1)) + 0x1_0000 * Value(Byte(v, 2))
            + 0x100_0000 * Value(Byte(v, 3)) == v
  {
    var v1, v2, v3 := v / 0x100, v / 0x1_0000, v / 0x100_0000;
    Digits(v);
    assert v1 == v1 % 0x100 + 0x100 * v2;
    assert v2 == v2 % 0x100 + 0x100 * v3;
    assert v3 % 0x100 == v3;
  }

  function LE16(v: nat): Bytes { [Byte(v, 0), Byte(v, 1)] }

  function LE32(v: nat): Bytes { [Byte(v, 0), Byte(v, 1), Byte(v, 2), Byte(v, 3)] }

  // ------------------------------------------------------------------ the three records

  function Octets(data: Bytes): seq<bv8> { seq(|data|, i requires 0 <= i < |data| => data[i] as bv8) }

  function Checksum(data: Bytes): (v: nat)
    ensures v < LIMIT32
  {
    Crc32.Crc(Octets(data)) as nat
  }

  function LocalHeader(crc: nat, size: nat, nameLength: nat): Bytes {
    LE32(LOCAL_SIGNATURE) + LE16(20) + LE16(0) + LE16(0) + LE32(0)
    + LE32(crc) + LE32(size) + LE32(size) + LE16(nameLength) + LE16(0)
  }

  function Zeros(n: nat): Bytes { seq(n, i => 0) }

  /** Up to the name length; the extra and comment lengths, disk and attributes after it are all zero. */
  function CentralFront(crc: nat, size: nat, nameLength: nat): Bytes {
    LE32(CENTRAL_SIGNATURE) + LE16(20) + LE16(20) + LE16(0) + LE16(0) + LE32(0)
    + LE32(crc) + LE32(size) + LE32(size) + LE16(nameLength)
  }

  function CentralHeader(crc: nat, size: nat, nameLength: nat, offset: nat): Bytes {
    CentralFront(crc, size, nameLength) + Zeros(12) + LE32(offset)
  }

  function EndRecord(count: nat, centralSize: nat, centralOffset: nat): Bytes {
    LE32(END_SIGNATURE) + Zeros(4) + LE16(count) + LE16(count) + LE32(centralSize) + LE32(centralOffset) + Zeros(2)
  }

  function LocalRecord(e: Entry): Bytes {
    LocalHeader(Checksum(e.data), |e.data|, |e.name|) + e.name + e.data
  }

  function CentralRecord(e: Entry, offset: nat): Bytes {
    CentralHeader(Checksum(e.data), |e.data|, |e.name|, offset) + e.name
  }

  /** The local records of the first `n` files. */
  function Locals(files: seq<Entry>, n: nat): Bytes
    requires n <= |files|
  {
    if n == 0 then [] else Locals(files, n - 1) + LocalRecord(files[n - 1])
  }

  /** Their central records, each with the offset of its local one. */
  function Centrals(files: seq<Entry>, n: nat): Bytes
    requires n <= |files|
  {
    if n == 0 then [] else Centrals(files, n - 1) + CentralRecord(files[n - 1], |Locals(files, n - 1)|)
  }

  function Archive(files: seq<Entry>): Bytes {
    var locals, centrals := Locals(files, |files|), Centrals(files, |files|);
    locals + centrals + EndRecord(|files|, |centrals|, |locals|)
  }

  /** The files whose every recorded number fits its field; outside it a buffer write throws. */
  predicate Fits(files: seq<Entry>) {
    && |files| < LIMIT16
    && |Locals(files, |files|)| < LIMIT32
    && |Centrals(files, |files|)| < LIMIT32
    && forall e | e in files :: |e.name| < LIMIT16
  }

  // ------------------------------------------------------------------ the writer

  method WriteUInt16LE(buf: array<byte>, value: nat, o: nat) returns (ok: bool)
    requires o + 2 <= buf.Length
    modifies buf
    ensures ok <==> value < LIMIT16
    ensures buf[..o] == old(buf[..o])
    ensures forall i | o + 2 <= i < buf.Length :: buf[i] == old(buf[i])
    ensures buf[o..o + 2] == if ok then LE16(value) else old(buf[o..o + 2])
  {
    if value >= LIMIT16 { return false; }
    buf[o], buf[o + 1] := Byte(value, 0), Byte(value, 1);
    return true;
  }

  method WriteUInt32LE(buf: array<byte>, value: nat, o: nat) returns (ok: bool)
    requires o + 4 <= buf.Length
    modifies buf
    ensures ok <==> value < LIMIT32
    ensures buf[..o] == old(buf[..o])
    ensures forall i | o + 4 <= i < buf.Length :: buf[i] == old(buf[i])
    ensures buf[o..o + 4] == if ok then LE32(value) else old(buf[o..o + 4])
  {
    if value >= LIMIT32 { return false; }
    buf[o], buf[o + 1], buf[o + 2], buf[o + 3] := Byte(value, 0), Byte(value, 1), Byte(value, 2), Byte(value, 3);
    return true;
  }

  /** What is written so far, followed by what was allocated. */
  lemma Extend(buf: array<byte>, o: nat, n: nat)
    requires o + n <= buf.Length
    ensures buf[..o + n] == buf[..o] + buf[o..o + n]
  {
  }

  method MakeLocal(crc: nat, size: nat, nameLength: nat) returns (header: Option<Bytes>)
    requires crc < LIMIT32
    ensures header.Some? <==> size < LIMIT32 && nameLength < LIMIT16
    ensures header.Some? ==> header.value == LocalHeader(crc, size, nameLength)
  {
    var local := new byte[30](i => 0);
    var ok := WriteUInt32LE(local, LOCAL_SIGNATURE, 0);
    assert local[..4] == LE32(LOCAL_SIGNATURE);
    ok := WriteUInt16LE(local, 20, 4);
    Extend(local, 4, 2);
    ok := WriteUInt16LE(local, 0, 6);
    Extend(local, 6, 2);
    ok := WriteUInt16LE(local, 0, 8);
    Extend(local, 8, 2);
    ok := WriteUInt32LE(local, 0, 10);
    Extend(local, 10, 4);
    ok := WriteUInt32LE(local, crc, 14);
    Extend(local, 14, 4);
    ok := WriteUInt32LE(local, size, 18);
    if !ok { return None; }
    Extend(local, 18, 4);
    ok := WriteUInt32LE(local, size, 22);
    Extend(local, 22, 4);
    ok := WriteUInt16LE(local, nameLength, 26);
    if !ok { return None; }
    Extend(local, 26, 2);
    ok := WriteUInt16LE(local, 0, 28);
    Extend(local, 28, 2);
    assert local[..30] == local[..];
    return Some(local[..]);
  }

  method FillCentralFront(central: array<byte>, crc: nat, size: nat, nameLength: nat) returns (ok: bool)
    requires central.Length == 46 && crc < LIMIT32
    modifies central
    ensures ok <==> size < LIMIT32 && nameLength < LIMIT16
    ensures ok ==> central[..30] == CentralFront(crc, size, nameLength)
    ensures forall i | 30 <= i < 46 :: central[i] == old(central[i])
  {
    ok := WriteUInt32LE(central, CENTRAL_SIGNATURE, 0);
    assert central[..4] == LE32(CENTRAL_SIGNATURE);
    ok := WriteUInt16LE(central, 20, 4);
    Extend(central, 4, 2);
    ok := WriteUInt16LE(central, 20, 6);
    Extend(central, 6, 2);
    ok := WriteUInt16LE(central, 0, 8);
    Extend(central, 8, 2);
    ok := WriteUInt16LE(central, 0, 10);
    Extend(central, 10, 2);
    ok := WriteUInt32LE(central, 0, 12);
    Extend(central, 12, 4);
    ok := WriteUInt32LE(central, crc, 16);
    Extend(central, 16, 4);
    ok := WriteUInt32LE(central, size, 20);
    if !ok { return; }
    Extend(central, 20, 4);
    ok := WriteUInt32LE(central, size, 24);
    Extend(central, 24, 4);
    ok := WriteUInt16LE(central, nameLength, 28);
    if !ok { return; }
    Extend(central, 28, 2);
  }

  method MakeCentral(crc: nat, size: nat, nameLength: nat, offset: nat) returns (header: Option<Bytes>)
    requires crc < LIMIT32
    ensures header.Some? <==> size < LIMIT32 && nameLength < LIMIT16 && offset < LIMIT32
    ensures header.Some? ==> header.value == CentralHeader(crc, size, nameLength, offset)
  {
    var central := new byte[46](i => 0);
    var ok := FillCentralFront(central, crc, size, nameLength);
    if !ok { return None; }
    assert central[30..42] == Zeros(12);
    Extend(central, 30, 12);
    ok := WriteUInt32LE(central, offset, 42);
    if !ok { return None; }
    Extend(central, 42, 4);
    assert central[..46] == central[..];
    return Some(central[..]);
  }

  method MakeEnd(count: nat, centralSize: nat, offset: nat) returns (record: Option<Bytes>)
    ensures record.Some? <==> count < LIMIT16 && centralSize < LIMIT32 && offset < LIMIT32
    ensures record.Some? ==> record.value == EndRecord(count, centralSize, offset)
  {
    var end := new byte[22](i => 0);
    var ok := WriteUInt32LE(end, END_SIGNATURE, 0);
    assert end[..4] == LE32(END_SIGNATURE) && end[4..8] == Zeros(4);
    Extend(end, 4, 4);
    ok := WriteUInt16LE(end, count, 8);
    if !ok { return None; }
    Extend(end, 8, 2);
    ok := WriteUInt16LE(end, count, 10);
    Extend(end, 10, 2);
    ok := WriteUInt32LE(end, centralSize, 12);
    if !ok { return None; }
    Extend(end, 12, 4);
    ok := WriteUInt32LE(end, offset, 16);
    if !ok { return None; }
    Extend(end, 16, 4);
    assert end[20..22] == Zeros(2);
    Extend(end, 20, 2);
    assert end[..22] == end[..];
    return Some(end[..]);
  }

  /** `Buffer.concat`. */
  function Concat(parts: seq<Bytes>): Bytes {
    if parts == [] then [] else Concat(parts[..|parts| - 1]) + parts[|parts| - 1]
  }

  lemma ConcatPush(parts: seq<Bytes>, part: Bytes)
    ensures Concat(parts + [part]) == Concat(parts) + part
  {
    assert (parts + [part])[..|parts|] == parts;
  }

  lemma {:induction false} LocalsGrow(files: seq<Entry>, i: nat, n: nat)
    requires i <= n <= |files|
    ensures |Locals(files, i)| <= |Locals(files, n)|
    decreases n
  {
    hide LocalRecord;
    if i < n { LocalsGrow(files, i, n - 1); }
  }

  lemma LocalRecordLength(e: Entry)
    ensures |LocalRecord(e)| == 30 + |e.name| + |e.data|
  {
  }

  lemma EntryWithin(files: seq<Entry>, i: nat)
    requires i < |files|
    ensures |Locals(files, i)| + |files[i].data| <= |Locals(files, |files|)|
  {
    LocalRecordLength(files[i]);
    LocalsGrow(files, i + 1, |files|);
  }

  method TotalLength(parts: seq<Bytes>) returns (n: nat)
    ensures n == |Concat(parts)|
  {
    n := 0;
    for i := 0 to |parts|
      invariant n == |Concat(parts[..i])|
    {
      assert parts[..i + 1] == parts[..i] + [parts[i]];
      ConcatPush(parts[..i], parts[i]);
      n := n + |parts[i]|;
    }
    assert parts[..|parts|] == parts;
  }

  lemma PushTwo(parts: seq<Bytes>, a: Bytes, b: Bytes)
    ensures Concat(parts + [a] + [b]) == Concat(parts) + (a + b)
  {
    ConcatPush(parts, a);
    ConcatPush(parts + [a], b);
    assert Concat(parts) + a + b == Concat(parts) + (a + b);
  }

  lemma PushThree(parts: seq<Bytes>, a: Bytes, b: Bytes, c: Bytes)
    ensures Concat(parts + [a] + [b] + [c]) == Concat(parts) + (a + b + c)
  {
    PushTwo(parts, a, b);
    ConcatPush(parts + [a] + [b], c);
    assert Concat(parts) + (a + b) + c == Concat(parts) + (a + b + c);
  }

  /** The two headers of one file, or nothing when a number does not fit. */
  method MakeRecords(table: array<bv32>, e: Entry, offset: nat) returns (local: Option<Bytes>, central: Option<Bytes>)
    requires Crc32.IsTable(table[..])
    ensures local.Some? && central.Some? <==> |e.data| < LIMIT32 && |e.name| < LIMIT16 && offset < LIMIT32
    ensures local.Some? && central.Some? ==>
            local.value + e.name + e.data == LocalRecord(e) && central.value + e.name == CentralRecord(e, offset)
  {
    var crc := Crc32.ComputeCrc(table, Octets(e.data));
    local := MakeLocal(crc as nat, |e.data|, |e.name|);
    central := MakeCentral(crc as nat, |e.data|, |e.name|, offset);
  }

  /** The first `i` files are written out. */
  predicate Written(files: seq<Entry>, i: nat, locals: seq<Bytes>, centrals: seq<Bytes>, offset: nat)
    requires i <= |files|
  {
    && Concat(locals) == Locals(files, i) && Concat(centrals) == Centrals(files, i)
    && offset == |Locals(files, i)|
    && forall k | 0 <= k < i :: |files[k].name| < LIMIT16
  }

  lemma WrittenNext(files: seq<Entry>, i: nat, locals: seq<Bytes>, centrals: seq<Bytes>, offset: nat,
                    locals': seq<Bytes>, centrals': seq<Bytes>, offset': nat)
    requires i < |files| && Written(files, i, locals, centrals, offset) && |files[i].name| < LIMIT16
    requires Concat(locals') == Concat(locals) + LocalRecord(files[i])
    requires Concat(centrals') == Concat(centrals) + CentralRecord(files[i], offset)
    requires offset' == offset + 30 + |files[i].name| + |files[i].data|
    ensures Written(files, i + 1, locals', centrals', offset')
  {
    hide LocalRecord, CentralRecord;
    LocalRecordLength(files[i]);
  }

  /** One turn of the loop: the file's two headers, or nothing more once a number does not fit. */
  method AppendFile(table: array<bv32>, files: seq<Entry>, i: nat, locals: seq<Bytes>, centrals: seq<Bytes>,
      offset: nat)
    returns (ok: bool, locals': seq<Bytes>, centrals': seq<Bytes>, offset': nat)
    requires Crc32.IsTable(table[..]) && i < |files| && Written(files, i, locals, centrals, offset)
    ensures !ok ==> !Fits(files)
    ensures ok ==> Written(files, i + 1, locals', centrals', offset')
  {
    ok, locals', centrals', offset' := false, [], [], 0;
    var e := files[i];
    var local, central := MakeRecords(table, e, offset);
    if local.None? || central.None? {
      TooBig(files, i);
      return;
    }
    PushThree(locals, local.value, e.name, e.data);
    PushTwo(centrals, central.value, e.name);
    ok := true;
    locals' := locals + [local.value] + [e.name] + [e.data];
    centrals' := centrals + [central.value] + [e.name];
    offset' := offset + 30 + |e.name| + |e.data|;
    WrittenNext(files, i, locals, centrals, offset, locals', centrals', offset');
  }

  /** The local and central parts, and the offset where the central part will start. */
  method MakeParts(table: array<bv32>, files: seq<Entry>)
      returns (ok: bool, locals: seq<Bytes>, centrals: seq<Bytes>, offset: nat)
    requires Crc32.IsTable(table[..])
    ensures !ok ==> !Fits(files)
    ensures ok ==> Written(files, |files|, locals, centrals, offset)
  {
    ok, locals, centrals, offset := true, [], [], 0;
    for i := 0 to |files|
      invariant ok && Written(files, i, locals, centrals, offset)
    {
      ok, locals, centrals, offset := AppendFile(table, files, i, locals, centrals, offset);
      if !ok { return; }
    }
  }

  /** The archive, or the RangeError of the first number that does not fit its field. */
  method ZipFiles(files: seq<Entry>) returns (r: Result<Bytes>)
    ensures r.Ok? <==> Fits(files)
    ensures r.Ok? ==> r.value == Archive(files)
  {
    var table := Crc32.MakeTable();
    var ok, locals, centrals, offset := MakeParts(table, files);
    if !ok { return Raised("ERR_OUT_OF_RANGE"); }
    var centralSize := TotalLength(centrals);
    var end := MakeEnd(|files|, centralSize, offset);
    if end.None? { return Raised("ERR_OUT_OF_RANGE"); }
    return Ok(Concat(locals) + Concat(centrals) + end.value);
  }

  lemma TooBig(files: seq<Entry>, i: nat)
    requires i < |files|
    requires |files[i].data| >= LIMIT32 || |files[i].name| >= LIMIT16 || |Locals(files, i)| >= LIMIT32
    ensures !Fits(files)
  {
    EntryWithin(files, i);
    assert files[i] in files;
  }
}
