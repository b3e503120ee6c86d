/** JSON string literals by their grammar (section 7 of RFC 8259), and how `JSON.stringify` spells them. */
module JsonGrammar {
  import opened Wrappers
  import opened JsonString

  /** A piece of a literal: a unit as it is, a backslash and a letter, or an escape with four digits. */
  datatype Piece = Raw(unit: Unit) | Short(letter: Unit) | Hex(a: Unit, b: Unit, c: Unit, d: Unit)

  predicate IsHex(u: Unit) { 0x30 <= u <= 0x39 || 0x41 <= u <= 0x46 || 0x61 <= u <= 0x66 }

  function Digit(u: Unit): (v: int)
    requires IsHex(u)
    ensures 0 <= v < 16
  {
    if u <= 0x39 then u as int - 0x30 else if u <= 0x46 then u as int - 0x41 + 10 else u as int - 0x61 + 10
  }

  /** No quote, backslash or control character stands for itself. */
  predicate Legal(p: Piece) {
    match p
    case Raw(u) => u >= 0x20 && u != 0x22 && u != 0x5C
    case Short(u) => u in {0x22, 0x5C, 0x2F, 0x62, 0x66, 0x6E, 0x72, 0x74}
    case Hex(a, b, c, d) => IsHex(a) && IsHex(b) && IsHex(c) && IsHex(d)
  }

  function Spelt(p: Piece): JsString {
    match p
    case Raw(u) => [u]
    case Short(u) => [0x5C, u]
    case Hex(a, b, c, d) => [0x5C, 0x75, a, b, c, d]
  }

  function Means(p: Piece): Unit
    requires Legal(p)
  {
    match p
    case Raw(u) => u
    case Short(u) =>
      if u == 0x62 then 0x08 else if u == 0x66 then 0x0C else if u == 0x6E then 0x0A
      else if u == 0x72 then 0x0D else if u == 0x74 then 0x09 else u
    case Hex(a, b, c, d) => (0x1000 * Digit(a) + 0x100 * Digit(b) + 0x10 * Digit(c) + Digit(d)) as Unit
  }

  /** The pieces, and the quote that ends the literal. */
  function Literal(ps: seq<Piece>): JsString {
    if ps == [] then [0x22] else Spelt(ps[0]) + Literal(ps[1..])
  }

  predicate AllLegal(ps: seq<Piece>) { forall i | 0 <= i < |ps| :: Legal(ps[i]) }

  function Meaning(ps: seq<Piece>): JsString
    requires AllLegal(ps)
  {
    if ps == [] then [] else [Means(ps[0])] + Meaning(ps[1..])
  }

  lemma PieceIsRead(p: Piece, rest: JsString)
    requires Legal(p)
    ensures ParseBody(Spelt(p) + rest) == Cons(Some(Means(p)), ParseBody(rest))
  {
    var t := Spelt(p) + rest;
    assert t[|Spelt(p)|..] == rest;
    match p
    case Raw(_) =>
    case Short(u) => assert t[1] == u;
    case Hex(a, b, c, d) => assert t[2..6] == [a, b, c, d];
  }

  /** Every literal of the grammar is read as what it means. */
  lemma {:induction false} LiteralIsRead(ps: seq<Piece>)
    requires AllLegal(ps)
    ensures ParseBody(Literal(ps)) == Some(Meaning(ps))
  {
    hide ParseBody, Spelt, Means;
    if ps == [] {
      EmptyBody();
    } else {
      LiteralIsRead(ps[1..]);
      PieceIsRead(ps[0], Literal(ps[1..]));
    }
  }

  /** The first piece of what is read. */
  lemma FirstPiece(t: JsString) returns (p: Piece, rest: JsString)
    requires ParseBody(t).Some? && t != [0x22]
    ensures Legal(p) && t == Spelt(p) + rest && |rest| < |t|
    ensures ParseBody(t) == Cons(Some(Means(p)), ParseBody(rest))
  {
    if t[0] != 0x5C {
      p, rest := Raw(t[0]), t[1..];
    } else if |t| >= 6 && t[1] == 0x75 {
      p, rest := Hex(t[2], t[3], t[4], t[5]), t[6..];
    } else {
      p, rest := Short(t[1]), t[2..];
    }
    assert t == Spelt(p) + rest;
    PieceIsRead(p, rest);
  }

  /** And nothing else is read: what parses is a literal of the grammar. */
  lemma {:induction false} ReadIsALiteral(t: JsString) returns (ps: seq<Piece>)
    requires ParseBody(t).Some?
    ensures AllLegal(ps) && t == Literal(ps) && ParseBody(t) == Some(Meaning(ps))
    decreases |t|
  {
    hide ParseBody, Spelt, Means, Legal;
    if t == [0x22] {
      ps := [];
      EmptyBody();
    } else {
      var p, rest := FirstPiece(t);
      var more := ReadIsALiteral(rest);
      ps := [p] + more;
    }
  }

  /** A text parses to a string exactly when, spaces at its ends apart, it is a quote and a literal that means it. */
  lemma ParsesExactlyWhen(text: JsString, s: JsString)
    ensures ParseString(text) == Some(s) <==>
            exists ps | AllLegal(ps) :: TrimWhere(text, JsonSpace) == [0x22] + Literal(ps) && Meaning(ps) == s
  {
    hide ParseBody, TrimWhere;
    var t := TrimWhere(text, JsonSpace);
    if ParseString(text) == Some(s) {
      var ps := ReadIsALiteral(t[1..]);
      assert t == [0x22] + Literal(ps);
    }
    if ps :| AllLegal(ps) && t == [0x22] + Literal(ps) && Meaning(ps) == s {
      LiteralIsRead(ps);
      assert t[1..] == Literal(ps);
    }
  }

  // ------------------------------------------------------------------ how strings are spelt

  predicate LowerHex(u: Unit) { 0x30 <= u <= 0x39 || 0x61 <= u <= 0x66 }

  /** The letter of a short escape; the slash has none. */
  predicate HasLetter(u: Unit, letter: Unit) {
    || (u == letter && u in {0x22, 0x5C}) || (u == 0x08 && letter == 0x62) || (u == 0x0C && letter == 0x66)
    || (u == 0x0A && letter == 0x6E) || (u == 0x0D && letter == 0x72) || (u == 0x09 && letter == 0x74)
  }

  /** A unit with a letter is written with it. */
  lemma LettersAreUsed(u: Unit, letter: Unit, rest: JsString)
    requires HasLetter(u, letter)
    ensures Escape([u] + rest) == [0x5C, letter] + Escape(rest)
  {
    assert ([u] + rest)[1..] == rest;
  }

  /** Other control characters, and surrogates that are not half of a pair, are four small digits. */
  lemma DigitsAreUsed(u: Unit, rest: JsString) returns (a: Unit, b: Unit, c: Unit, d: Unit)
    requires (u < 0x20 && u !in {0x08, 0x09, 0x0A, 0x0C, 0x0D}) || 0xDC00 <= u < 0xE000
             || (0xD800 <= u < 0xDC00 && (rest == [] || !(0xDC00 <= rest[0] < 0xE000)))
    ensures Escape([u] + rest) == [0x5C, 0x75, a, b, c, d] + Escape(rest)
    ensures LowerHex(a) && LowerHex(b) && LowerHex(c) && LowerHex(d)
    ensures 0x1000 * Digit(a) + 0x100 * Digit(b) + 0x10 * Digit(c) + Digit(d) == u as int
  {
    assert ([u] + rest)[1..] == rest;
    a, b, c, d := HexDigit(u / 0x1000), HexDigit(u / 0x100 % 16), HexDigit(u / 0x10 % 16), HexDigit(u % 16);
    Nibbles(u as int);
  }

  /** Everything else stands for itself, and so do the two halves of a pair. */
  lemma OthersStandForThemselves(u: Unit, v: Unit, rest: JsString)
    ensures u >= 0x20 && u != 0x22 && u != 0x5C && !(0xD800 <= u < 0xE000) ==>
              Escape([u] + rest) == [u] + Escape(rest)
    ensures 0xD800 <= u < 0xDC00 <= v < 0xE000 ==> Escape([u, v] + rest) == [u, v] + Escape(rest)
    ensures Stringify(rest) == [0x22] + Escape(rest) + [0x22] && Escape([]) == []
  {
    assert ([u] + rest)[1..] == rest && ([u, v] + rest)[2..] == rest;
  }

  // ------------------------------------------------------------------ URL-like values

  /** A letter, then letters, digits, `+`, `-` and `.`, then `://` and anything. */
  predicate HasScheme(s: JsString, k: nat) {
    && 0 < k && k + 3 <= |s| && s[k..k + 3] == [0x3A, 0x2F, 0x2F]
    && (0x41 <= s[0] <= 0x5A || 0x61 <= s[0] <= 0x7A)
    && forall i | 0 < i < k ::
         || 0x41 <= s[i] <= 0x5A || 0x61 <= s[i] <= 0x7A || 0x30 <= s[i] <= 0x39 || s[i] in {0x2B, 0x2D, 0x2E}
  }

  lemma {:induction false} SchemeRuns(s: JsString, i: nat, k: nat)
    requires i <= k <= |s| && forall j | i <= j < k :: SchemeUnit(s[j])
    requires k < |s| ==> !SchemeUnit(s[k])
    ensures SchemeEnd(s, i) == k
    decreases k - i
  {
    if i < k { SchemeRuns(s, i + 1, k); }
  }

  lemma {:induction false} SchemeStops(s: JsString, i: nat)
    requires i <= |s|
    ensures forall j | i <= j < SchemeEnd(s, i) :: SchemeUnit(s[j])
    decreases |s| - i
  {
    if i < |s| && SchemeUnit(s[i]) { SchemeStops(s, i + 1); }
  }

  /** The text matches the regular expression exactly when it starts with such a scheme. */
  lemma UrlishExactlyWhen(s: JsString)
    ensures Urlish(s) <==> exists k: nat :: HasScheme(s, k)
  {
    if Urlish(s) {
      SchemeStops(s, 1);
      assert HasScheme(s, SchemeEnd(s, 1));
    }
    if k: nat :| HasScheme(s, k) {
      assert s[k] == s[k..k + 3][0] && s[k + 1] == s[k..k + 3][1] && s[k + 2] == s[k..k + 3][2];
      SchemeRuns(s, 1, k);
    }
  }

  /** A URL-like value is quoted, without the spaces around it; every other value is left as it is. */
  lemma QuotesExactlyUrls(raw: JsString)
    ensures QuoteIfLiteral(raw) ==
            if exists k: nat :: HasScheme(Trim(raw), k) then Stringify(Trim(raw)) else raw
    ensures forall u :: JsSpace(u) <==>
              || 0x09 <= u <= 0x0D || 0x2000 <= u <= 0x200A
              || u in {0x20, 0xA0, 0x1680, 0x2028, 0x2029, 0x202F, 0x205F, 0x3000, 0xFEFF}
    ensures forall u :: JsonSpace(u) <==> u in {0x20, 0x09, 0x0A, 0x0D}
  {
    hide Urlish, ParseString, Stringify, Trim, HasScheme;
    UrlishExactlyWhen(Trim(raw));
    if Urlish(Trim(raw)) { UrlIsNoJsonString(Trim(raw)); }
  }
}
