/**
 The table-driven CRC-32 of the archive writer, against the bit-serial CRC-32 of section 8 of
 RFC 1952 (reflected polynomial 0xEDB88320), and what the checksum detects.
*/
module Crc32 {

  const POLYNOMIAL: bv32 := 0xedb88320

  // ------------------------------------------------------------------ repetition

  function Iterate<T>(f: T -> T, x: T, n: nat): T
    decreases n
  {
    if n == 0 then x else Iterate(f, f(x), n - 1)
  }

  ghost predicate Respects<T(!new)>(f: T -> T, op: (T, T) -> T) { forall x, y :: f(op(x, y)) == op(f(x), f(y)) }

  ghost predicate Injective<T(!new)>(f: T -> T) { forall x, y :: f(x) == f(y) ==> x == y }

  lemma {:induction false} IterateRespects<T(!new)>(f: T -> T, op: (T, T) -> T, x: T, y: T, n: nat)
    requires Respects(f, op)
    ensures Iterate(f, op(x, y), n) == op(Iterate(f, x, n), Iterate(f, y, n))
    decreases n
  {
    if n > 0 {
      assert f(op(x, y)) == op(f(x), f(y));
      IterateRespects(f, op, f(x), f(y), n - 1);
    }
  }

  lemma {:induction false} IterateIsInjective<T(!new)>(f: T -> T, x: T, y: T, n: nat)
    requires Injective(f) && Iterate(f, x, n) == Iterate(f, y, n)
    ensures x == y
    decreases n
  {
    if n > 0 { IterateIsInjective(f, f(x), f(y), n - 1); }
  }

  lemma {:induction false} IterateCommutes<S(!new), T>(step: S -> S, f: T -> T, view: S -> T, s: S, n: nat)
    requires forall r :: view(step(r)) == f(view(r))
    ensures view(Iterate(step, s, n)) == Iterate(f, view(s), n)
    decreases n
  {
    if n > 0 { IterateCommutes(step, f, view, step(s), n - 1); }
  }

  lemma {:induction false} IterateAdds<T>(f: T -> T, x: T, m: nat, n: nat)
    ensures Iterate(f, Iterate(f, x, m), n) == Iterate(f, x, m + n)
    decreases m
  {
    if m > 0 { IterateAdds(f, f(x), m - 1, n); }
  }

  // ------------------------------------------------------------------ the bit-serial definition

  function Xor(x: bv32, y: bv32): bv32 { x ^ y }

  predicate Odd(c: bv32) { c & 1 == 1 }

  /** One message bit enters the register. */
  function FeedBit(c: bv32, bit: bool): bv32 {
    if Odd(c) != bit then Xor(POLYNOMIAL, c >> 1) else c >> 1
  }

  /** The register and the bits of the current byte still to come, least significant first. */
  datatype Serial = Serial(register: bv32, pending: bv8)

  function SerialStep(s: Serial): Serial {
    Serial(FeedBit(s.register, s.pending & 1 == 1), s.pending >> 1)
  }

  function FeedByte(c: bv32, b: bv8): bv32 { Iterate(SerialStep, Serial(c, b), 8).register }

  function Feed(c: bv32, data: seq<bv8>): bv32
    decreases |data|
  {
    if data == [] then c else Feed(FeedByte(c, data[0]), data[1..])
  }

  function Crc(data: seq<bv8>): bv32 { Feed(0xffffffff, data) ^ 0xffffffff }

  // ------------------------------------------------------------------ the register shift

  function Shift(c: bv32): bv32 { if Odd(c) then Xor(POLYNOMIAL, c >> 1) else c >> 1 }

  function Shifts(c: bv32, n: nat): bv32 { Iterate(Shift, c, n) }

  lemma LowBitOfXor(x: bv32, y: bv32)
    ensures ((x ^ y) & 1 == 1) <==> ((x & 1 == 1) != (y & 1 == 1))
  {
  }

  lemma HalfOfXor(x: bv32, y: bv32)
    ensures (x ^ y) >> 1 == (x >> 1) ^ (y >> 1)
  {
  }

  lemma XorCancels(p: bv32, x: bv32, y: bv32)
    ensures (p ^ x) ^ (p ^ y) == x ^ y && (p ^ x) ^ y == p ^ (x ^ y) && x ^ (p ^ y) == p ^ (x ^ y)
  {
  }

  lemma ShiftOfXor(x: bv32, y: bv32)
    ensures Shift(x ^ y) == Shift(x) ^ Shift(y)
  {
    LowBitOfXor(x, y);
    HalfOfXor(x, y);
    XorCancels(POLYNOMIAL, x >> 1, y >> 1);
  }

  lemma ShiftDeterminesStart(x: bv32, y: bv32)
    requires Shift(x) == Shift(y)
    ensures x == y
  {
  }

  lemma ShiftIsLinear()
    ensures Respects(Shift, Xor)
  {
    forall x, y ensures Shift(Xor(x, y)) == Xor(Shift(x), Shift(y)) { ShiftOfXor(x, y); }
  }

  lemma ShiftIsInjective()
    ensures Injective(Shift)
  {
    forall x, y | Shift(x) == Shift(y) ensures x == y { ShiftDeterminesStart(x, y); }
  }

  lemma ShiftsOfXor(x: bv32, y: bv32, n: nat)
    ensures Shifts(Xor(x, y), n) == Xor(Shifts(x, n), Shifts(y, n))
  {
    ShiftIsLinear();
    IterateRespects(Shift, Xor, x, y, n);
  }

  function Drop(c: bv32): bv32 { c >> 1 }

  lemma EvenShift(c: bv32)
    requires c & 1 == 0
    ensures Shift(c) == Drop(c)
  {
  }

  predicate LowBitsClear(c: bv32, n: nat)
    decreases n
  {
    n > 0 ==> c & 1 == 0 && LowBitsClear(Drop(c), n - 1)
  }

  lemma {:induction false} ClearBitsDropOff(c: bv32, n: nat)
    requires LowBitsClear(c, n)
    ensures Iterate(Shift, c, n) == Iterate(Drop, c, n)
    decreases n
  {
    if n > 0 {
      EvenShift(c);
      ClearBitsDropOff(Drop(c), n - 1);
    }
  }

  lemma LowByteClear(c: bv32)
    requires c & 0xff == 0
    ensures LowBitsClear(c, 8)
  {
    assert LowBitsClear(c >> 4, 4);
  }

  lemma TwoDrops(c: bv32)
    ensures Iterate(Drop, c, 2) == c >> 2
  {
    assert Iterate(Drop, Drop(c), 1) == Drop(Drop(c));
  }

  lemma FourDrops(c: bv32)
    ensures Iterate(Drop, c, 4) == c >> 4
  {
    IterateAdds(Drop, c, 2, 2);
    TwoDrops(c);
    TwoDrops(c >> 2);
  }

  lemma EightDrops(c: bv32)
    ensures Iterate(Drop, c, 8) == c >> 8
  {
    IterateAdds(Drop, c, 4, 4);
    FourDrops(c);
    FourDrops(c >> 4);
  }

  /** Eight zero bits fall off the low end. */
  lemma ShiftsOfHighBytes(c: bv32)
    requires c & 0xff == 0
    ensures Shifts(c, 8) == c >> 8
  {
    LowByteClear(c);
    ClearBitsDropOff(c, 8);
    EightDrops(c);
  }

  // ------------------------------------------------------------------ a byte at a time

  function Wide(b: bv8): bv32 { b as bv32 }

  function Merged(s: Serial): bv32 { Xor(s.register, Wide(s.pending)) }

  /** Widening keeps the low bit and the halving: the only conversions a serial step needs. */
  lemma WideLowBit(b: bv8)
    ensures Odd(Wide(b)) <==> (b & 1 == 1)
  {
  }

  lemma WideHalf(b: bv8)
    ensures Wide(b >> 1) == Wide(b) >> 1
  {
  }

  lemma XorTwice(p: bv32, x: bv32)
    ensures Xor(p, Xor(p, x)) == x
  {
  }

  lemma FeedBitIsShift(c: bv32, bit: bool)
    ensures FeedBit(c, bit) == if bit then Xor(POLYNOMIAL, Shift(c)) else Shift(c)
  {
    hide Xor, Odd;
    XorTwice(POLYNOMIAL, c >> 1);
  }

  lemma XorCommutes(x: bv32, y: bv32)
    ensures Xor(x, y) == Xor(y, x)
  {
  }

  lemma XorAssociates(x: bv32, y: bv32, z: bv32)
    ensures Xor(Xor(x, y), z) == Xor(x, Xor(y, z))
  {
  }

  /** The polynomial may be taken on either side. */
  lemma EitherSide(p: bv32, s: bv32, h: bv32)
    ensures Xor(Xor(p, s), h) == Xor(s, Xor(p, h))
  {
    hide Xor;
    XorCommutes(p, s);
    XorAssociates(s, p, h);
  }

  lemma ShiftUnfolds(d: bv32, h: bv32)
    requires h == d >> 1
    ensures Shift(d) == if Odd(d) then Xor(POLYNOMIAL, h) else h
  {
    hide Xor, Odd;
  }

  lemma NextBitOf(c: bv32, d: bv32, h: bv32)
    requires h == d >> 1
    ensures Xor(FeedBit(c, Odd(d)), h) == Shift(Xor(c, d))
  {
    hide FeedBit, Shift, Xor, Odd;
    FeedBitIsShift(c, Odd(d));
    ShiftUnfolds(d, h);
    EitherSide(POLYNOMIAL, Shift(c), h);
    ShiftIsLinear();
    assert Shift(Xor(c, d)) == Xor(Shift(c), Shift(d));
  }

  lemma NextBit(c: bv32, b: bv8)
    ensures Xor(FeedBit(c, b & 1 == 1), Wide(b >> 1)) == Shift(Xor(c, Wide(b)))
  {
    hide FeedBit, Shift, Xor, Wide, Odd;
    WideLowBit(b);
    WideHalf(b);
    NextBitOf(c, Wide(b), Wide(b >> 1));
  }

  lemma SerialStepIsShift(s: Serial)
    ensures Merged(SerialStep(s)) == Shift(Merged(s))
  {
    NextBit(s.register, s.pending);
  }

  lemma NothingPendingAfterEight(s: Serial)
    ensures Iterate(SerialStep, s, 8).pending == 0
  {
  }

  lemma XorZero(c: bv32)
    ensures Xor(c, Wide(0)) == c
  {
  }

  /** Feeding a byte bit by bit is xoring it in and shifting eight times. */
  lemma FeedByteIsShifts(c: bv32, b: bv8)
    ensures FeedByte(c, b) == Shifts(Xor(c, Wide(b)), 8)
  {
    forall r ensures Merged(SerialStep(r)) == Shift(Merged(r)) { SerialStepIsShift(r); }
    IterateCommutes(SerialStep, Shift, Merged, Serial(c, b), 8);
    NothingPendingAfterEight(Serial(c, b));
    XorZero(FeedByte(c, b));
  }

  // ------------------------------------------------------------------ the table

  function Index(c: bv32, b: bv8): bv32 { (c ^ Wide(b)) & 0xff }

  lemma LowAndHigh(c: bv32, b: bv8)
    ensures Xor(c, Wide(b)) == Xor(Index(c, b), (c ^ Wide(b)) & 0xffffff00)
    ensures ((c ^ Wide(b)) & 0xffffff00) & 0xff == 0
    ensures ((c ^ Wide(b)) & 0xffffff00) >> 8 == c >> 8
  {
  }

  /** The table step: eight shifts of the low byte, xored onto the rest. */
  lemma TableStep(c: bv32, b: bv8)
    ensures FeedByte(c, b) == Xor(Shifts(Index(c, b), 8), c >> 8)
  {
    var high := (c ^ Wide(b)) & 0xffffff00;
    FeedByteIsShifts(c, b);
    LowAndHigh(c, b);
    ShiftsOfXor(Index(c, b), high, 8);
    ShiftsOfHighBytes(high);
  }

  /** A slot for every byte value, holding that value shifted out of the register. */
  ghost predicate IsTable(t: seq<bv32>) {
    |t| == 256 && forall n: bv8 {:trigger Wide(n)} :: t[n as int] == Shifts(Wide(n), 8)
  }

  method TableEntry(n: bv32) returns (c: bv32)
    ensures c == Shifts(n, 8)
  {
    c := n;
    for k := 0 to 8
      invariant Iterate(Shift, c, 8 - k) == Shifts(n, 8)
    {
      c := Shift(c);
    }
  }

  method MakeTable() returns (t: array<bv32>)
    ensures fresh(t) && IsTable(t[..])
  {
    t := new bv32[256];
    for n := 0 to 256
      invariant forall m: bv8 | m as int < n :: t[m as int] == Shifts(Wide(m), 8)
    {
      var slot := n as bv8;
      var entry := TableEntry(Wide(slot));
      t[n] := entry;
      forall m: bv8 | m as int < n + 1 ensures t[m as int] == Shifts(Wide(m), 8) {
        if m as int == n { assert m == slot; }
      }
    }
  }

  method TableLookup(t: array<bv32>, c: bv32, b: bv8) returns (next: bv32)
    requires IsTable(t[..])
    ensures next == FeedByte(c, b)
  {
    var slot := Index(c, b) as bv8;
    SlotIsIndex(c, b);
    TableStep(c, b);
    assert t[slot as int] == t[..][slot as int];
    next := Xor(t[slot as int], c >> 8);
  }

  lemma SlotIsIndex(c: bv32, b: bv8)
    ensures Wide(Index(c, b) as bv8) == Index(c, b)
  {
  }

  /** The source's loop over the table computes the bit-serial checksum of every byte string. */
  method ComputeCrc(t: array<bv32>, data: seq<bv8>) returns (crc: bv32)
    requires IsTable(t[..])
    ensures crc == Crc(data)
  {
    var c: bv32 := 0xffffffff;
    for i := 0 to |data|
      invariant Feed(c, data[i..]) == Feed(0xffffffff, data)
    {
      assert data[i..][0] == data[i] && data[i..][1..] == data[i + 1..];
      c := TableLookup(t, c, data[i]);
    }
    crc := c ^ 0xffffffff;
  }

  // ------------------------------------------------------------------ what the checksum detects

  lemma {:induction false} FeedConcat(c: bv32, a: seq<bv8>, b: seq<bv8>)
    ensures Feed(c, a + b) == Feed(Feed(c, a), b)
    decreases |a|
  {
    if a == [] {
      assert a + b == b;
    } else {
      assert (a + b)[0] == a[0] && (a + b)[1..] == a[1..] + b;
      FeedConcat(FeedByte(c, a[0]), a[1..], b);
    }
  }

  lemma XorIsInjective(x: bv32, y: bv32, z: bv32)
    requires Xor(x, z) == Xor(y, z)
    ensures x == y
  {
  }

  lemma FeedByteIsInjective(c: bv32, d: bv32, b: bv8)
    requires FeedByte(c, b) == FeedByte(d, b)
    ensures c == d
  {
    FeedByteIsShifts(c, b);
    FeedByteIsShifts(d, b);
    ShiftIsInjective();
    IterateIsInjective(Shift, Xor(c, Wide(b)), Xor(d, Wide(b)), 8);
    XorIsInjective(c, d, Wide(b));
  }

  /** Feeding the same bytes never merges two registers. */
  lemma {:induction false} FeedIsInjective(c: bv32, d: bv32, data: seq<bv8>)
    requires Feed(c, data) == Feed(d, data)
    ensures c == d
    decreases |data|
  {
    if data != [] {
      FeedIsInjective(FeedByte(c, data[0]), FeedByte(d, data[0]), data[1..]);
      FeedByteIsInjective(c, d, data[0]);
    }
  }

  /** The register and a little-endian word of message bytes still to come. */
  datatype Pending = Pending(register: bv32, word: bv32)

  function Low(w: bv32): bv8 { (w & 0xff) as bv8 }

  function WordStep(s: Pending): Pending { Pending(FeedByte(s.register, Low(s.word)), s.word >> 8) }

  function MergedWord(s: Pending): bv32 { Xor(s.register, s.word) }

  function ShiftByte(c: bv32): bv32 { Shifts(c, 8) }

  lemma WideOfLow(w: bv32)
    ensures Wide(Low(w)) == w & 0xff
  {
  }

  lemma SplitWord(c: bv32, w: bv32)
    ensures c ^ w == (c ^ (w & 0xff)) ^ (w & 0xffffff00)
  {
  }

  lemma RestOfWord(w: bv32)
    ensures (w & 0xffffff00) & 0xff == 0 && (w & 0xffffff00) >> 8 == w >> 8
  {
  }

  lemma LowAndRest(c: bv32, w: bv32)
    ensures Xor(c, w) == Xor(Xor(c, Wide(Low(w))), w & 0xffffff00)
    ensures (w & 0xffffff00) & 0xff == 0 && (w & 0xffffff00) >> 8 == w >> 8
  {
    hide Wide, Low;
    WideOfLow(w);
    SplitWord(c, w);
    RestOfWord(w);
  }

  /** Bytes waiting above the low one can be xored in now, eight places higher than their turn. */
  lemma WaitingBytes(c: bv32, b: bv8, rest: bv32, tail: bv32, merged: bv32)
    requires rest & 0xff == 0 && rest >> 8 == tail && merged == Xor(Xor(c, Wide(b)), rest)
    ensures Xor(FeedByte(c, b), tail) == ShiftByte(merged)
  {
    FeedByteIsShifts(c, b);
    ShiftsOfXor(Xor(c, Wide(b)), rest, 8);
    ShiftsOfHighBytes(rest);
  }

  lemma LowByteFirst(c: bv32, w: bv32, merged: bv32, tail: bv32)
    requires merged == Xor(c, w) && tail == w >> 8
    ensures Xor(FeedByte(c, Low(w)), tail) == ShiftByte(merged)
  {
    var rest := w & 0xffffff00;
    assert rest & 0xff == 0 && rest >> 8 == tail && merged == Xor(Xor(c, Wide(Low(w))), rest) by { LowAndRest(c, w); }
    WaitingBytes(c, Low(w), rest, tail, merged);
  }

  lemma NextByte(c: bv32, w: bv32)
    ensures Xor(FeedByte(c, Low(w)), w >> 8) == ShiftByte(Xor(c, w))
  {
    LowByteFirst(c, w, Xor(c, w), w >> 8);
  }

  lemma WordStepIsShiftByte(s: Pending)
    ensures MergedWord(WordStep(s)) == ShiftByte(MergedWord(s))
  {
    NextByte(s.register, s.word);
  }

  lemma ShiftByteIsInjective()
    ensures Injective(ShiftByte)
  {
    ShiftIsInjective();
    forall x, y | ShiftByte(x) == ShiftByte(y) ensures x == y { IterateIsInjective(Shift, x, y, 8); }
  }

  lemma FourStepsEmptyTheWord(s: Pending)
    ensures Iterate(WordStep, s, 4).word == 0
  {
    assert (((s.word >> 8) >> 8) >> 8) >> 8 == 0;
  }

  /** Two different words never take a register to the same place. */
  lemma WordIsDetermined(c: bv32, v: bv32, w: bv32)
    requires Iterate(WordStep, Pending(c, v), 4).register == Iterate(WordStep, Pending(c, w), 4).register
    ensures v == w
  {
    forall r ensures MergedWord(WordStep(r)) == ShiftByte(MergedWord(r)) { WordStepIsShiftByte(r); }
    IterateCommutes(WordStep, ShiftByte, MergedWord, Pending(c, v), 4);
    IterateCommutes(WordStep, ShiftByte, MergedWord, Pending(c, w), 4);
    FourStepsEmptyTheWord(Pending(c, v));
    FourStepsEmptyTheWord(Pending(c, w));
    ShiftByteIsInjective();
    IterateIsInjective(ShiftByte, Xor(c, v), Xor(c, w), 4);
    XorSides(c, v, w);
  }

  lemma XorSides(c: bv32, v: bv32, w: bv32)
    requires Xor(c, v) == Xor(c, w)
    ensures v == w
  {
  }

  /** The bytes of a little-endian word. */
  predicate Spells(w: bv32, b0: bv8, b1: bv8, b2: bv8, b3: bv8) {
    Low(w) == b0 && Low(w >> 8) == b1 && Low((w >> 8) >> 8) == b2 && Low(((w >> 8) >> 8) >> 8) == b3
  }

  function Word(b0: bv8, b1: bv8, b2: bv8, b3: bv8): bv32 {
    Wide(b0) ^ (Wide(b1) << 8) ^ (Wide(b2) << 16) ^ (Wide(b3) << 24)
  }

  lemma WordBytes(b0: bv8, b1: bv8, b2: bv8, b3: bv8)
    ensures Low(Word(b0, b1, b2, b3)) == b0
    ensures Low(Word(b0, b1, b2, b3) >> 8) == b1
    ensures Low((Word(b0, b1, b2, b3) >> 8) >> 8) == b2
    ensures Low(((Word(b0, b1, b2, b3) >> 8) >> 8) >> 8) == b3
  {
  }

  lemma Spelling(b0: bv8, b1: bv8, b2: bv8, b3: bv8) returns (w: bv32)
    ensures Spells(w, b0, b1, b2, b3)
  {
    w := Word(b0, b1, b2, b3);
    WordBytes(b0, b1, b2, b3);
  }

  lemma FeedCons(c: bv32, b: bv8, rest: seq<bv8>)
    ensures Feed(c, [b] + rest) == Feed(FeedByte(c, b), rest)
  {
    assert ([b] + rest)[1..] == rest;
  }

  lemma FeedFour(c: bv32, w: bv32, b0: bv8, b1: bv8, b2: bv8, b3: bv8)
    requires Spells(w, b0, b1, b2, b3)
    ensures Feed(c, [b0] + ([b1] + ([b2] + ([b3] + [])))) == Iterate(WordStep, Pending(c, w), 4).register
  {
    var s1 := WordStep(Pending(c, w));
    var s2 := WordStep(s1);
    var s3 := WordStep(s2);
    FeedCons(c, b0, [b1] + ([b2] + ([b3] + [])));
    FeedCons(s1.register, b1, [b2] + ([b3] + []));
    FeedCons(s2.register, b2, [b3] + []);
    FeedCons(s3.register, b3, []);
    assert Iterate(WordStep, s2, 2) == WordStep(s3);
  }

  function Four(b0: bv8, b1: bv8, b2: bv8, b3: bv8): seq<bv8> { [b0] + ([b1] + ([b2] + ([b3] + []))) }

  lemma FourBytesDetermined(c: bv32, a0: bv8, a1: bv8, a2: bv8, a3: bv8, b0: bv8, b1: bv8, b2: bv8, b3: bv8)
    requires Feed(c, Four(a0, a1, a2, a3)) == Feed(c, Four(b0, b1, b2, b3))
    ensures a0 == b0 && a1 == b1 && a2 == b2 && a3 == b3
  {
    var v := Spelling(a0, a1, a2, a3);
    var w := Spelling(b0, b1, b2, b3);
    FeedFour(c, v, a0, a1, a2, a3);
    FeedFour(c, w, b0, b1, b2, b3);
    WordIsDetermined(c, v, w);
  }

  lemma AsFour(a: seq<bv8>)
    requires |a| == 4
    ensures a == Four(a[0], a[1], a[2], a[3])
  {
  }

  lemma FullBurst(c: bv32, a: seq<bv8>, b: seq<bv8>)
    requires |a| == |b| == 4 && Feed(c, a) == Feed(c, b)
    ensures a == b
  {
    AsFour(a);
    AsFour(b);
    FourBytesDetermined(c, a[0], a[1], a[2], a[3], b[0], b[1], b[2], b[3]);
  }

  /** Up to four bytes from one register: different bytes, different registers. */
  lemma {:induction false} ShortBurst(c: bv32, a: seq<bv8>, b: seq<bv8>)
    requires |a| == |b| <= 4 && Feed(c, a) == Feed(c, b)
    ensures a == b
    decreases 4 - |a|
  {
    if |a| == 4 {
      FullBurst(c, a, b);
    } else {
      var pad: seq<bv8> := [0];
      FeedConcat(c, a, pad);
      FeedConcat(c, b, pad);
      ShortBurst(c, a + pad, b + pad);
      assert a == (a + pad)[..|a|] && b == (b + pad)[..|b|];
    }
  }

  /** Any damage confined to four consecutive bytes changes the checksum. */
  lemma BurstsAreDetected(before: seq<bv8>, good: seq<bv8>, bad: seq<bv8>, after: seq<bv8>)
    requires |good| == |bad| <= 4 && good != bad
    ensures Crc(before + good + after) != Crc(before + bad + after)
  {
    var start := Feed(0xffffffff, before);
    FeedConcat(0xffffffff, before + good, after);
    FeedConcat(0xffffffff, before, good);
    FeedConcat(0xffffffff, before + bad, after);
    FeedConcat(0xffffffff, before, bad);
    if Crc(before + good + after) == Crc(before + bad + after) {
      XorIsInjective(Feed(Feed(start, good), after), Feed(Feed(start, bad), after), 0xffffffff);
      FeedIsInjective(Feed(start, good), Feed(start, bad), after);
      ShortBurst(start, good, bad);
    }
  }

  lemma EightSteps(s: Serial)
    ensures Iterate(SerialStep, s, 8) ==
            SerialStep(SerialStep(SerialStep(SerialStep(SerialStep(SerialStep(SerialStep(SerialStep(s))))))))
  {
    var s2 := SerialStep(SerialStep(s));
    var s4 := SerialStep(SerialStep(s2));
    var s6 := SerialStep(SerialStep(s4));
    assert Iterate(SerialStep, s, 8) == Iterate(SerialStep, s2, 6);
    assert Iterate(SerialStep, s2, 6) == Iterate(SerialStep, s4, 4);
    assert Iterate(SerialStep, s4, 4) == Iterate(SerialStep, s6, 2);
    assert Iterate(SerialStep, s6, 2) == SerialStep(SerialStep(s6));
  }

  /** The published CRC-32 of the text "ab". */
  lemma CheckValue()
    ensures Crc([0x61, 0x62]) == 0x9e83486d
  {
    assert FeedByte(0xffffffff, 0x61) == 0x174841bc by {
      EightSteps(Serial(0xffffffff, 0x61));
      assert SerialStep(Serial(0xffffffff, 0x61)) == Serial(0x7fffffff, 0x30);
      assert SerialStep(Serial(0x7fffffff, 0x30)) == Serial(0xd2477cdf, 0x18);
      assert SerialStep(Serial(0xd2477cdf, 0x18)) == Serial(0x849b3d4f, 0xc);
      assert SerialStep(Serial(0x849b3d4f, 0xc)) == Serial(0xaff51d87, 0x6);
      assert SerialStep(Serial(0xaff51d87, 0x6)) == Serial(0xba420de3, 0x3);
      assert SerialStep(Serial(0xba420de3, 0x3)) == Serial(0x5d2106f1, 0x1);
      assert SerialStep(Serial(0x5d2106f1, 0x1)) == Serial(0x2e908378, 0x0);
      assert SerialStep(Serial(0x2e908378, 0x0)) == Serial(0x174841bc, 0x0);
    }
    assert FeedByte(0x174841bc, 0x62) == 0x617cb792 by {
      EightSteps(Serial(0x174841bc, 0x62));
      assert SerialStep(Serial(0x174841bc, 0x62)) == Serial(0xba420de, 0x31);
      assert SerialStep(Serial(0xba420de, 0x31)) == Serial(0xe86a934f, 0x18);
      assert SerialStep(Serial(0xe86a934f, 0x18)) == Serial(0x998dca87, 0xc);
      assert SerialStep(Serial(0x998dca87, 0xc)) == Serial(0xa17e6663, 0x6);
      assert SerialStep(Serial(0xa17e6663, 0x6)) == Serial(0xbd07b011, 0x3);
      assert SerialStep(Serial(0xbd07b011, 0x3)) == Serial(0x5e83d808, 0x1);
      assert SerialStep(Serial(0x5e83d808, 0x1)) == Serial(0xc2f96f24, 0x0);
      assert SerialStep(Serial(0xc2f96f24, 0x0)) == Serial(0x617cb792, 0x0);
    }
    assert [0x61, 0x62][1..] == [0x62];
    assert [0x62][1..] == [];
  }
}
