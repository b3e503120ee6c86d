/**
 A reader for stored ZIP archives as PKWARE APPNOTE.TXT describes them: find the end record,
 walk the central directory, follow each local offset, and check sizes and checksums. It knows
 nothing of how the writer lays archives out.
*/
module ZipReader {
  import opened Wrappers
  import opened ZipArchive

  /** The last place at or before `p` where an end record closes the file (section 4.3.16). */
  function FindEnd(b: Bytes, p: int): Option<nat>
    decreases p
  {
    if p < 0 then None
    else if p + 22 <= |b| && Read32(b, p) == END_SIGNATURE && p + 22 + Read16(b, p + 20) == |b| then Some(p)
    else FindEnd(b, p - 1)
  }

  /** The data behind a local header that agrees with its central one (section 4.3.7). */
  function ReadLocal(b: Bytes, o: nat, name: Bytes, crc: nat, size: nat): Option<Bytes> {
    if o + 30 > |b| || Read32(b, o) != LOCAL_SIGNATURE then None
    else if Read16(b, o + 8) != 0 || Read32(b, o + 14) != crc || Read32(b, o + 18) != size
      || Read32(b, o + 22) != size then None
    else
      var nameEnd := o + 30 + Read16(b, o + 26);
      var start := nameEnd + Read16(b, o + 28);
      if start + size > |b| || b[o + 30..nameEnd] != name then None
      else if Checksum(b[start..start + size]) != crc then None
      else Some(b[start..start + size])
  }

  /** `count` central headers from `p`, each with the file it points at (section 4.3.12). */
  function Walk(b: Bytes, p: nat, count: nat): Option<seq<Entry>>
    decreases count
  {
    if count == 0 then Some([])
    else if p + 46 > |b| || Read32(b, p) != CENTRAL_SIGNATURE || Read16(b, p + 10) != 0 then None
    else
      var size := Read32(b, p + 24);
      var nameEnd := p + 46 + Read16(b, p + 28);
      var next := nameEnd + Read16(b, p + 30) + Read16(b, p + 32);
      if nameEnd > |b| || Read32(b, p + 20) != size then None
      else
        var name := b[p + 46..nameEnd];
        var data := ReadLocal(b, Read32(b, p + 42), name, Read32(b, p + 16), size);
        var rest := Walk(b, next, count - 1);
        if data.None? || rest.None? then None else Some([Entry(name, data.value)] + rest.value)
  }

  function Unzip(b: Bytes): Option<seq<Entry>> {
    var end := FindEnd(b, |b| - 22);
    if end.None? || end.value + 22 > |b| then None
    else
      var size, start := Read32(b, end.value + 12), Read32(b, end.value + 16);
      if start + size != end.value || Read16(b, end.value + 8) != Read16(b, end.value + 10) then None
      else Walk(b, start, Read16(b, end.value + 10))
  }

  // ------------------------------------------------------------------ reading inside a record

  /** `record` sits in `b` at `p`. */
  predicate At(b: Bytes, p: nat, record: Bytes) { p + |record| <= |b| && b[p..p + |record|] == record }

  lemma ReadAt(b: Bytes, p: nat, record: Bytes, k: nat)
    requires At(b, p, record)
    ensures k + 2 <= |record| ==> Read16(b, p + k) == Read16(record, k)
    ensures k + 4 <= |record| ==> Read32(b, p + k) == Read32(record, k)
  {
    assert forall i | 0 <= i < |record| :: b[p + i] == record[i];
  }

  lemma AtPart(b: Bytes, p: nat, x: Bytes, y: Bytes)
    requires At(b, p, x + y)
    ensures At(b, p, x) && At(b, p + |x|, y)
  {
    assert b[p..p + |x|] == b[p..p + |x + y|][..|x|];
    assert b[p + |x|..p + |x| + |y|] == b[p..p + |x + y|][|x|..];
    assert (x + y)[..|x|] == x && (x + y)[|x|..] == y;
  }

  lemma ReadsBack16(s: Bytes, o: nat, v: nat)
    requires v < LIMIT16 && At(s, o, LE16(v))
    ensures Read16(s, o) == v
  {
    BytesOf16(v);
    assert s[o] == LE16(v)[0] && s[o + 1] == LE16(v)[1];
  }

  lemma ReadsBack32(s: Bytes, o: nat, v: nat)
    requires v < LIMIT32 && At(s, o, LE32(v))
    ensures Read32(s, o) == v
  {
    BytesOf32(v);
    assert forall i | 0 <= i < 4 :: s[o + i] == LE32(v)[i];
  }

  lemma LocalFields(crc: nat, size: nat, n: nat)
    requires crc < LIMIT32 && size < LIMIT32 && n < LIMIT16
    ensures DescribesLocal(LocalHeader(crc, size, n), crc, size, n)
  {
    var h := LocalHeader(crc, size, n);
    ReadsBack32(h, 0, LOCAL_SIGNATURE);
    ReadsBack16(h, 8, 0);
    ReadsBack32(h, 14, crc);
    ReadsBack32(h, 18, size);
    ReadsBack32(h, 22, size);
    ReadsBack16(h, 26, n);
    ReadsBack16(h, 28, 0);
  }

  lemma CentralFields(crc: nat, size: nat, n: nat, offset: nat)
    requires crc < LIMIT32 && size < LIMIT32 && n < LIMIT16 && offset < LIMIT32
    ensures DescribesCentral(CentralHeader(crc, size, n, offset), crc, size, n, offset)
  {
    var h := CentralHeader(crc, size, n, offset);
    ReadsBack32(h, 0, CENTRAL_SIGNATURE);
    ReadsBack16(h, 10, 0);
    ReadsBack32(h, 16, crc);
    ReadsBack32(h, 20, size);
    ReadsBack32(h, 24, size);
    ReadsBack16(h, 28, n);
    ReadsBack32(h, 42, offset);
  }

  lemma EndFields(count: nat, size: nat, offset: nat)
    requires count < LIMIT16 && size < LIMIT32 && offset < LIMIT32
    ensures DescribesEnd(EndRecord(count, size, offset), count, size, offset)
  {
    var r := EndRecord(count, size, offset);
    ReadsBack32(r, 0, END_SIGNATURE);
    ReadsBack16(r, 8, count);
    ReadsBack16(r, 10, count);
    ReadsBack32(r, 12, size);
    ReadsBack32(r, 16, offset);
  }

  // ------------------------------------------------------------------ the archive, entry by entry

  lemma {:induction false} LaterParts(files: seq<Entry>, i: nat, n: nat)
    requires i <= n <= |files|
    ensures Locals(files, i) <= Locals(files, n) && Centrals(files, i) <= Centrals(files, n)
    decreases n
  {
    hide LocalRecord, CentralRecord;
    if i < n { LaterParts(files, i, n - 1); }
  }

  lemma PrefixHolds(a: Bytes, x: Bytes, whole: Bytes)
    requires a + x <= whole
    ensures At(whole, |a|, x)
  {
    assert whole[..|a| + |x|] == a + x;
    assert whole[|a|..|a| + |x|] == whole[..|a| + |x|][|a|..];
  }

  lemma Shifted(pre: Bytes, whole: Bytes, post: Bytes, p: nat, x: Bytes)
    requires At(whole, p, x)
    ensures At(pre + whole + post, |pre| + p, x)
  {
    var b := pre + whole + post;
    assert b[|pre|..|pre| + |whole|] == whole;
    assert b[|pre| + p..|pre| + p + |x|] == b[|pre|..|pre| + |whole|][p..p + |x|];
  }

  /** What the reader needs of a local header, whatever its bytes. */
  predicate DescribesLocal(h: Bytes, crc: nat, size: nat, n: nat) {
    && |h| == 30 && Read32(h, 0) == LOCAL_SIGNATURE && Read16(h, 8) == 0
    && Read32(h, 14) == crc && Read32(h, 18) == size && Read32(h, 22) == size
    && Read16(h, 26) == n && Read16(h, 28) == 0
  }

  predicate DescribesCentral(h: Bytes, crc: nat, size: nat, n: nat, offset: nat) {
    && |h| == 46 && Read32(h, 0) == CENTRAL_SIGNATURE && Read16(h, 10) == 0
    && Read32(h, 16) == crc && Read32(h, 20) == size && Read32(h, 24) == size
    && Read16(h, 28) == n && Read16(h, 30) == 0 && Read16(h, 32) == 0 && Read32(h, 42) == offset
  }

  lemma LocalAt(b: Bytes, o: nat, h: Bytes, crc: nat, size: nat, n: nat)
    requires At(b, o, h) && DescribesLocal(h, crc, size, n)
    ensures Read32(b, o) == LOCAL_SIGNATURE && Read16(b, o + 8) == 0
    ensures Read32(b, o + 14) == crc && Read32(b, o + 18) == size && Read32(b, o + 22) == size
    ensures Read16(b, o + 26) == n && Read16(b, o + 28) == 0
  {
    ReadAt(b, o, h, 0); ReadAt(b, o, h, 8); ReadAt(b, o, h, 14); ReadAt(b, o, h, 18);
    ReadAt(b, o, h, 22); ReadAt(b, o, h, 26); ReadAt(b, o, h, 28);
  }

  lemma ReadsLocal(b: Bytes, o: nat, h: Bytes, name: Bytes, data: Bytes)
    requires At(b, o, h) && At(b, o + 30, name) && At(b, o + 30 + |name|, data)
    requires DescribesLocal(h, Checksum(data), |data|, |name|)
    ensures ReadLocal(b, o, name, Checksum(data), |data|) == Some(data)
  {
    hide Checksum, Read16, Read32;
    LocalAt(b, o, h, Checksum(data), |data|, |name|);
  }

  lemma CentralAt(b: Bytes, p: nat, h: Bytes, crc: nat, size: nat, n: nat, offset: nat)
    requires At(b, p, h) && DescribesCentral(h, crc, size, n, offset)
    ensures Read32(b, p) == CENTRAL_SIGNATURE && Read16(b, p + 10) == 0
    ensures Read32(b, p + 16) == crc && Read32(b, p + 20) == size && Read32(b, p + 24) == size
    ensures Read16(b, p + 28) == n && Read16(b, p + 30) == 0 && Read16(b, p + 32) == 0 && Read32(b, p + 42) == offset
  {
    ReadAt(b, p, h, 0); ReadAt(b, p, h, 10); ReadAt(b, p, h, 16); ReadAt(b, p, h, 20); ReadAt(b, p, h, 24);
    ReadAt(b, p, h, 28); ReadAt(b, p, h, 30); ReadAt(b, p, h, 32); ReadAt(b, p, h, 42);
  }

  lemma ReadsCentral(b: Bytes, p: nat, h: Bytes, e: Entry, offset: nat, count: nat)
    requires At(b, p, h) && At(b, p + 46, e.name) && count > 0
    requires DescribesCentral(h, Checksum(e.data), |e.data|, |e.name|, offset)
    requires ReadLocal(b, offset, e.name, Checksum(e.data), |e.data|) == Some(e.data)
    ensures var rest := Walk(b, p + 46 + |e.name|, count - 1);
            Walk(b, p, count) == if rest.None? then None else Some([e] + rest.value)
  {
    hide Checksum, ReadLocal, Read16, Read32;
    CentralAt(b, p, h, Checksum(e.data), |e.data|, |e.name|, offset);
  }

  function CentralStart(files: seq<Entry>, i: nat): nat
    requires i <= |files|
  {
    |Locals(files, |files|)| + |Centrals(files, i)|
  }

  /** A piece of the first or of the second part is in place in the whole. */
  lemma InPlace(locals: Bytes, centrals: Bytes, end: Bytes, before: Bytes, x: Bytes)
    ensures before + x <= locals ==> At(locals + centrals + end, |before|, x)
    ensures before + x <= centrals ==> At(locals + centrals + end, |locals| + |before|, x)
  {
    if before + x <= locals {
      PrefixHolds(before, x, locals);
      Shifted([], locals, centrals + end, |before|, x);
      assert [] + locals + (centrals + end) == locals + centrals + end;
    }
    if before + x <= centrals {
      PrefixHolds(before, x, centrals);
      Shifted(locals, centrals, end, |before|, x);
    }
  }

  lemma OneMore(files: seq<Entry>, i: nat)
    requires i < |files|
    ensures Locals(files, i + 1) == Locals(files, i) + LocalRecord(files[i])
    ensures Centrals(files, i + 1) == Centrals(files, i) + CentralRecord(files[i], |Locals(files, i)|)
  {
    hide LocalRecord, CentralRecord;
  }

  lemma LocalInPlace(files: seq<Entry>, i: nat, locals: Bytes, centrals: Bytes, end: Bytes)
    requires i < |files| && locals == Locals(files, |files|)
    ensures At(locals + centrals + end, |Locals(files, i)|, LocalRecord(files[i]))
  {
    hide LocalRecord, Locals, Centrals;
    OneMore(files, i);
    LaterParts(files, i + 1, |files|);
    InPlace(locals, centrals, end, Locals(files, i), LocalRecord(files[i]));
  }

  lemma CentralInPlace(files: seq<Entry>, i: nat, locals: Bytes, centrals: Bytes, end: Bytes)
    requires i < |files| && locals == Locals(files, |files|) && centrals == Centrals(files, |files|)
    ensures At(locals + centrals + end, CentralStart(files, i), CentralRecord(files[i], |Locals(files, i)|))
  {
    hide CentralRecord, LocalRecord, Locals, Centrals;
    OneMore(files, i);
    LaterParts(files, i + 1, |files|);
    InPlace(locals, centrals, end, Centrals(files, i), CentralRecord(files[i], |Locals(files, i)|));
  }

  lemma CentralStartNext(files: seq<Entry>, i: nat)
    requires i < |files|
    ensures CentralStart(files, i + 1) == CentralStart(files, i) + 46 + |files[i].name|
  {
    CentralRecordLength(files[i], |Locals(files, i)|);
  }

  lemma CentralRecordLength(e: Entry, offset: nat)
    ensures |CentralRecord(e, offset)| == 46 + |e.name|
  {
  }

  /** The reader's view of one file: its local record reads back, and its central record leads there. */
  lemma ReadsEntry(b: Bytes, p: nat, e: Entry, offset: nat, count: nat)
    requires At(b, p, CentralRecord(e, offset)) && At(b, offset, LocalRecord(e)) && count > 0
    requires |e.name| < LIMIT16 && |e.data| < LIMIT32 && offset < LIMIT32
    ensures var rest := Walk(b, p + 46 + |e.name|, count - 1);
            Walk(b, p, count) == if rest.None? then None else Some([e] + rest.value)
  {
    hide LocalHeader, CentralHeader, Walk, ReadLocal, Checksum, DescribesLocal, DescribesCentral;
    var crc := Checksum(e.data);
    var h, c := LocalHeader(crc, |e.data|, |e.name|), CentralHeader(crc, |e.data|, |e.name|, offset);
    LocalFields(crc, |e.data|, |e.name|);
    CentralFields(crc, |e.data|, |e.name|, offset);
    AtPart(b, offset, h + e.name, e.data);
    AtPart(b, offset, h, e.name);
    AtPart(b, p, c, e.name);
    ReadsLocal(b, offset, h, e.name, e.data);
    ReadsCentral(b, p, c, e, offset, count);
  }

  lemma ReadsNext(files: seq<Entry>, i: nat, locals: Bytes, centrals: Bytes, end: Bytes)
    requires Fits(files) && i < |files| && locals == Locals(files, |files|) && centrals == Centrals(files, |files|)
    ensures var b := locals + centrals + end;
            var rest := Walk(b, CentralStart(files, i + 1), |files| - i - 1);
            Walk(b, CentralStart(files, i), |files| - i) == if rest.None? then None else Some([files[i]] + rest.value)
  {
    hide LocalRecord, CentralRecord, Walk;
    var e := files[i];
    assert e in files;
    EntryWithin(files, i);
    LocalInPlace(files, i, locals, centrals, end);
    CentralInPlace(files, i, locals, centrals, end);
    CentralStartNext(files, i);
    ReadsEntry(locals + centrals + end, CentralStart(files, i), e, |Locals(files, i)|, |files| - i);
  }

  lemma WalkNothing(b: Bytes, p: nat)
    ensures Walk(b, p, 0) == Some([])
  {
  }

  lemma {:induction false} WalksFrom(files: seq<Entry>, i: nat, locals: Bytes, centrals: Bytes, end: Bytes)
    requires Fits(files) && i <= |files| && locals == Locals(files, |files|) && centrals == Centrals(files, |files|)
    ensures Walk(locals + centrals + end, CentralStart(files, i), |files| - i) == Some(files[i..])
    decreases |files| - i
  {
    hide CentralStart, Locals, Centrals, Walk;
    if i < |files| {
      WalksFrom(files, i + 1, locals, centrals, end);
      ReadsNext(files, i, locals, centrals, end);
      assert files[i..] == [files[i]] + files[i + 1..];
    } else {
      WalkNothing(locals + centrals + end, CentralStart(files, i));
      assert files[i..] == [];
    }
  }

  predicate DescribesEnd(r: Bytes, count: nat, size: nat, offset: nat) {
    && |r| == 22 && Read32(r, 0) == END_SIGNATURE && Read16(r, 8) == count && Read16(r, 10) == count
    && Read32(r, 12) == size && Read32(r, 16) == offset && Read16(r, 20) == 0
  }

  lemma ReadsEnd(locals: Bytes, centrals: Bytes, end: Bytes, count: nat)
    requires DescribesEnd(end, count, |centrals|, |locals|)
    ensures var b := locals + centrals + end; Unzip(b) == Walk(b, |locals|, count)
  {
    hide Walk, Read16, Read32;
    var b := locals + centrals + end;
    var p := |locals| + |centrals|;
    assert b[p..p + 22] == end;
    ReadAt(b, p, end, 0); ReadAt(b, p, end, 8); ReadAt(b, p, end, 10); ReadAt(b, p, end, 12);
    ReadAt(b, p, end, 16); ReadAt(b, p, end, 20);
    assert FindEnd(b, p) == Some(p);
  }

  /** Round trip: the reader gets back the same names and bytes, in order, from every archive the writer can make. */
  lemma UnzipOfArchive(files: seq<Entry>)
    requires Fits(files)
    ensures Unzip(Archive(files)) == Some(files)
  {
    hide LocalRecord, CentralRecord;
    var locals, centrals := Locals(files, |files|), Centrals(files, |files|);
    EndFields(|files|, |centrals|, |locals|);
    ReadsEnd(locals, centrals, EndRecord(|files|, |centrals|, |locals|), |files|);
    WalksFrom(files, 0, locals, centrals, EndRecord(|files|, |centrals|, |locals|));
    assert files[0..] == files;
  }

  /** No two archives of different files are the same bytes. */
  lemma ArchivesAreDistinct(a: seq<Entry>, b: seq<Entry>)
    requires Fits(a) && Fits(b) && Archive(a) == Archive(b)
    ensures a == b
  {
    UnzipOfArchive(a);
    UnzipOfArchive(b);
  }
}
