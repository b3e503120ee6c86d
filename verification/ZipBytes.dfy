/** The archive byte by byte: where every file's two records stand and what is in them. */
module ZipBytes {
  import opened Wrappers
  import opened ZipArchive
  import opened ZipReader
  import Crc32

  /** Where the local record of file `i` starts. */
  function LocalStart(files: seq<Entry>, i: nat): nat
    requires i <= |files|
  {
    if i == 0 then 0 else LocalStart(files, i - 1) + 30 + |files[i - 1].name| + |files[i - 1].data|
  }

  /** And how far into the directory its central one does. */
  function DirectoryStart(files: seq<Entry>, i: nat): nat
    requires i <= |files|
  {
    if i == 0 then 0 else DirectoryStart(files, i - 1) + 46 + |files[i - 1].name|
  }

  lemma {:induction false} Starts(files: seq<Entry>, i: nat)
    requires i <= |files|
    ensures |Locals(files, i)| == LocalStart(files, i) && |Centrals(files, i)| == DirectoryStart(files, i)
  {
    hide LocalRecord, CentralRecord;
    if i > 0 {
      Starts(files, i - 1);
      LocalRecordLength(files[i - 1]);
      CentralRecordLength(files[i - 1], |Locals(files, i - 1)|);
    }
  }

  function Two(v: nat): Bytes { [Byte(v, 0), Byte(v, 1)] }

  function Four(v: nat): Bytes { [Byte(v, 0), Byte(v, 1), Byte(v, 2), Byte(v, 3)] }

  /** Version 2.0, no flags, stored, no time; checksum and both sizes; length of the name, no extra field. */
  function LocalBytes(crc: nat, size: nat, n: nat): Bytes {
    [0x50, 0x4b, 3, 4] + [20, 0] + [0, 0] + [0, 0] + [0, 0, 0, 0] + Four(crc) + Four(size) + Four(size) + Two(n)
    + [0, 0]
  }

  /** The same, made by version 2.0; no extra field, comment, other disk or attributes; where the local header is. */
  function CentralBytes(crc: nat, size: nat, n: nat, offset: nat): Bytes {
    [0x50, 0x4b, 1, 2] + [20, 0] + [20, 0] + [0, 0] + [0, 0] + [0, 0, 0, 0] + Four(crc) + Four(size) + Four(size)
    + Two(n) + [0, 0, 0, 0, 0, 0, 0, 0, 0, 0, 0, 0] + Four(offset)
  }

  /** On this disk, `count` of `count` entries; size and place of the directory; no comment. */
  function EndBytes(count: nat, size: nat, offset: nat): Bytes {
    [0x50, 0x4b, 5, 6] + [0, 0, 0, 0] + Two(count) + Two(count) + Four(size) + Four(offset) + [0, 0]
  }

  lemma Signatures()
    ensures LE32(LOCAL_SIGNATURE) == [0x50, 0x4b, 3, 4]
    ensures LE32(CENTRAL_SIGNATURE) == [0x50, 0x4b, 1, 2]
    ensures LE32(END_SIGNATURE) == [0x50, 0x4b, 5, 6]
  {
  }

  lemma SmallNumbers()
    ensures LE16(0) == [0, 0] && LE16(20) == [20, 0] && LE32(0) == [0, 0, 0, 0]
    ensures Zeros(2) == [0, 0] && Zeros(4) == [0, 0, 0, 0] && Zeros(12) == [0, 0, 0, 0, 0, 0, 0, 0, 0, 0, 0, 0]
  {
  }

  lemma HeadersInBytes(crc: nat, size: nat, n: nat, offset: nat, count: nat)
    ensures LocalHeader(crc, size, n) == LocalBytes(crc, size, n)
    ensures CentralHeader(crc, size, n, offset) == CentralBytes(crc, size, n, offset)
    ensures EndRecord(count, size, offset) == EndBytes(count, size, offset)
    ensures |EndBytes(count, size, offset)| == 22
  {
    hide Byte, Zeros;
    Signatures();
    SmallNumbers();
  }

  /** CRC-32 of the file's bytes. */
  function CrcOf(e: Entry): nat {
    Crc32.Crc(seq(|e.data|, k requires 0 <= k < |e.data| => e.data[k] as bv8)) as nat
  }

  lemma RecordsInBytes(e: Entry, offset: nat)
    ensures LocalRecord(e) == LocalBytes(CrcOf(e), |e.data|, |e.name|) + e.name + e.data
    ensures CentralRecord(e, offset) == CentralBytes(CrcOf(e), |e.data|, |e.name|, offset) + e.name
  {
    hide LocalHeader, CentralHeader, LocalBytes, CentralBytes;
    assert Octets(e.data) == seq(|e.data|, k requires 0 <= k < |e.data| => e.data[k] as bv8);
    HeadersInBytes(CrcOf(e), |e.data|, |e.name|, offset, 0);
  }

  /**
   Every file is in the archive twice: behind its local header with its name and its bytes as they are, and in the
   directory with its checksum, sizes and the place of the first.
  */
  lemma ArchiveInBytes(files: seq<Entry>, i: nat)
    requires i < |files|
    ensures var b, e, o := Archive(files), files[i], LocalStart(files, i);
            && At(b, o, LocalBytes(CrcOf(e), |e.data|, |e.name|) + e.name + e.data)
            && At(b, LocalStart(files, |files|) + DirectoryStart(files, i),
                  CentralBytes(CrcOf(e), |e.data|, |e.name|, o) + e.name)
  {
    hide Locals, Centrals, LocalBytes, CentralBytes, LocalRecord, CentralRecord, CrcOf, At, EndRecord, LocalStart;
    var e, n := files[i], |files|;
    Starts(files, i);
    Starts(files, n);
    RecordsInBytes(e, LocalStart(files, i));
    var locals, centrals := Locals(files, n), Centrals(files, n);
    var end := EndRecord(n, |centrals|, |locals|);
    LocalInPlace(files, i, locals, centrals, end);
    CentralInPlace(files, i, locals, centrals, end);
  }

  /** The end record has the last 22 bytes. */
  lemma ArchiveEnds(files: seq<Entry>)
    ensures var n, b := |files|, Archive(files);
            && |b| == LocalStart(files, n) + DirectoryStart(files, n) + 22
            && b[|b| - 22..] == EndBytes(n, DirectoryStart(files, n), LocalStart(files, n))
  {
    hide Locals, Centrals, EndRecord, EndBytes;
    var n := |files|;
    Starts(files, n);
    HeadersInBytes(0, DirectoryStart(files, n), 0, LocalStart(files, n), n);
  }
}
