/**
 JavaScript strings as UTF-16 code units, JSON string literals (section 7 of RFC 8259) as
 `JSON.stringify` writes and `JSON.parse` reads them, and the quoting of URL-like parameter values.
*/
module JsonString {
  import opened Wrappers

  newtype Unit = u: int | 0 <= u < 0x1_0000
  type JsString = seq<Unit>

  const QUOTE: Unit := 0x22
  const BACKSLASH: Unit := 0x5C

  // ------------------------------------------------------------------ writing

  predicate IsLead(u: Unit) { 0xD800 <= u <= 0xDBFF }
  predicate IsTrail(u: Unit) { 0xDC00 <= u <= 0xDFFF }

  function HexDigit(d: Unit): Unit
    requires d < 16
  {
    if d < 10 then 0x30 + d else 0x57 + d
  }

  function UnicodeEscape(u: Unit): JsString {
    [BACKSLASH, 0x75, HexDigit(u / 0x1000), HexDigit(u / 0x100 % 16), HexDigit(u / 0x10 % 16), HexDigit(u % 16)]
  }

  function EscapeUnit(u: Unit): JsString {
    if u == QUOTE || u == BACKSLASH then [BACKSLASH, u]
    else if u == 0x08 then [BACKSLASH, 0x62]
    else if u == 0x0C then [BACKSLASH, 0x66]
    else if u == 0x0A then [BACKSLASH, 0x6E]
    else if u == 0x0D then [BACKSLASH, 0x72]
    else if u == 0x09 then [BACKSLASH, 0x74]
    else if u < 0x20 || IsLead(u) || IsTrail(u) then UnicodeEscape(u)
    else [u]
  }

  /** A surrogate pair is written as it is, a lone surrogate as an escape. */
  function Escape(s: JsString): JsString {
    if s == [] then []
    else if IsLead(s[0]) && |s| > 1 && IsTrail(s[1]) then [s[0], s[1]] + Escape(s[2..])
    else EscapeUnit(s[0]) + Escape(s[1..])
  }

  function Stringify(s: JsString): JsString { [QUOTE] + Escape(s) + [QUOTE] }

  // ------------------------------------------------------------------ reading

  predicate JsonSpace(u: Unit) { u == 0x20 || u == 0x09 || u == 0x0A || u == 0x0D }

  function TrimWhere(s: JsString, space: Unit -> bool): JsString {
    if s == [] then []
    else if space(s[0]) then TrimWhere(s[1..], space)
    else if space(s[|s| - 1]) then TrimWhere(s[..|s| - 1], space)
    else s
  }

  function HexValue(u: Unit): Option<Unit> {
    if 0x30 <= u <= 0x39 then Some(u - 0x30)
    else if 0x61 <= u <= 0x66 then Some(u - 0x57)
    else if 0x41 <= u <= 0x46 then Some(u - 0x37)
    else None
  }

  function ParseHex(t: JsString): Option<Unit>
    requires |t| == 4
  {
    var a, b, c, d := HexValue(t[0]), HexValue(t[1]), HexValue(t[2]), HexValue(t[3]);
    if a.None? || b.None? || c.None? || d.None? then None
    else
      var v := 0x1000 * a.value as int + 0x100 * b.value as int + 0x10 * c.value as int + d.value as int;
      if v < 0x1_0000 then Some(v as Unit) else None
  }

  function SimpleEscape(u: Unit): Option<Unit> {
    if u == QUOTE || u == BACKSLASH || u == 0x2F then Some(u)
    else if u == 0x62 then Some(0x08)
    else if u == 0x66 then Some(0x0C)
    else if u == 0x6E then Some(0x0A)
    else if u == 0x72 then Some(0x0D)
    else if u == 0x74 then Some(0x09)
    else None
  }

  /** What follows an opening quote, up to a closing quote at the very end. */
  function ParseBody(t: JsString): Option<JsString> {
    if t == [] then None
    else if t[0] == QUOTE then (if |t| == 1 then Some([]) else None)
    else if t[0] == BACKSLASH then
      if |t| >= 6 && t[1] == 0x75 then Cons(ParseHex(t[2..6]), ParseBody(t[6..]))
      else if |t| >= 2 then Cons(SimpleEscape(t[1]), ParseBody(t[2..]))
      else None
    else if t[0] < 0x20 then None
    else Cons(Some(t[0]), ParseBody(t[1..]))
  }

  function Cons(u: Option<Unit>, rest: Option<JsString>): Option<JsString> {
    if u.Some? && rest.Some? then Some([u.value] + rest.value) else None
  }

  /** The string that `JSON.parse` gives; None for an error or any other value. */
  function ParseString(text: JsString): Option<JsString> {
    var t := TrimWhere(text, JsonSpace);
    if t != [] && t[0] == QUOTE then ParseBody(t[1..]) else None
  }

  // ------------------------------------------------------------------ there and back

  lemma HexOfDigit(d: Unit)
    requires d < 16
    ensures HexValue(HexDigit(d)) == Some(d)
  {
  }

  lemma Nibbles(u: int)
    requires 0 <= u < 0x1_0000
    ensures 0x1000 * (u / 0x1000) + 0x100 * (u / 0x100 % 16) + 0x10 * (u / 0x10 % 16) + u % 16 == u
  {
    assert u / 0x100 == u / 0x10 / 16 && u / 0x1000 == u / 0x100 / 16;
  }

  lemma HexRoundTrip(u: Unit)
    ensures ParseHex(UnicodeEscape(u)[2..6]) == Some(u)
  {
    var t := UnicodeEscape(u)[2..6];
    HexOfDigit(u / 0x1000);
    HexOfDigit(u / 0x100 % 16);
    HexOfDigit(u / 0x10 % 16);
    HexOfDigit(u % 16);
    Nibbles(u as int);
    assert t == [HexDigit(u / 0x1000), HexDigit(u / 0x100 % 16), HexDigit(u / 0x10 % 16), HexDigit(u % 16)];
  }

  /** One unit's escape is read back as that unit, whatever follows. */
  lemma UnitRoundTrip(u: Unit, rest: JsString)
    ensures ParseBody(EscapeUnit(u) + rest) == Cons(Some(u), ParseBody(rest))
  {
    var e := EscapeUnit(u);
    var t := e + rest;
    assert t[|e|..] == rest;
    if |e| == 6 {
      HexRoundTrip(u);
      assert t[2..6] == e[2..6];
    } else if |e| == 2 {
      assert t[1] == e[1] && SimpleEscape(e[1]) == Some(u);
      assert t[1] != 0x75;
    }
  }

  /** A surrogate is read back as it is when it is not escaped. */
  lemma RawRoundTrip(u: Unit, rest: JsString)
    requires u >= 0x20 && u != QUOTE && u != BACKSLASH
    ensures ParseBody([u] + rest) == Cons(Some(u), ParseBody(rest))
  {
    assert ([u] + rest)[1..] == rest;
  }

  lemma {:induction false} BodyRoundTrip(s: JsString)
    ensures ParseBody(Escape(s) + [QUOTE]) == Some(s)
  {
    hide ParseBody, EscapeUnit;
    if s == [] {
      assert Escape(s) + [QUOTE] == [QUOTE];
      EmptyBody();
    } else if IsLead(s[0]) && |s| > 1 && IsTrail(s[1]) {
      BodyRoundTrip(s[2..]);
      var tail := Escape(s[2..]) + [QUOTE];
      RawRoundTrip(s[1], tail);
      RawRoundTrip(s[0], [s[1]] + tail);
      assert Escape(s) + [QUOTE] == [s[0]] + ([s[1]] + tail);
      assert s == [s[0]] + ([s[1]] + s[2..]);
    } else {
      BodyRoundTrip(s[1..]);
      UnitRoundTrip(s[0], Escape(s[1..]) + [QUOTE]);
      assert Escape(s) + [QUOTE] == EscapeUnit(s[0]) + (Escape(s[1..]) + [QUOTE]);
      assert s == [s[0]] + s[1..];
    }
  }

  lemma EmptyBody()
    ensures ParseBody([QUOTE]) == Some([])
  {
  }

  lemma QuotedIsTrimmed(s: JsString, space: Unit -> bool)
    requires !space(QUOTE)
    ensures TrimWhere(Stringify(s), space) == Stringify(s)
  {
  }

  /** Every JavaScript string, lone surrogates included, survives being written and read. */
  lemma ParseOfStringify(s: JsString)
    ensures ParseString(Stringify(s)) == Some(s)
  {
    QuotedIsTrimmed(s, JsonSpace);
    BodyRoundTrip(s);
    assert Stringify(s)[1..] == Escape(s) + [QUOTE];
  }

  // ------------------------------------------------------------------ URL-like values

  /** What `String.prototype.trim` removes. */
  predicate JsSpace(u: Unit) {
    0x09 <= u <= 0x0D || u == 0x20 || u == 0xA0 || u == 0x1680 || 0x2000 <= u <= 0x200A
    || u == 0x2028 || u == 0x2029 || u == 0x202F || u == 0x205F || u == 0x3000 || u == 0xFEFF
  }

  function Trim(s: JsString): JsString { TrimWhere(s, JsSpace) }

  /** Trimming leaves the middle of the text, between nothing but spaces, with no space at its ends. */
  lemma {:induction false} TrimIsTheMiddle(s: JsString, space: Unit -> bool) returns (i: nat, j: nat)
    ensures i <= j <= |s| && TrimWhere(s, space) == s[i..j]
    ensures forall k | 0 <= k < |s| && !(i <= k < j) :: space(s[k])
    ensures i < j ==> !space(s[i]) && !space(s[j - 1])
    decreases |s|
  {
    i, j := 0, |s|;
    if s != [] {
      if space(s[0]) {
        i, j := TrimIsTheMiddle(s[1..], space);
        assert s[1..][i..j] == s[i + 1..j + 1];
        assert forall k | 1 <= k < |s| :: s[k] == s[1..][k - 1];
        i, j := i + 1, j + 1;
      } else if space(s[|s| - 1]) {
        i, j := TrimIsTheMiddle(s[..|s| - 1], space);
        assert s[..|s| - 1][i..j] == s[i..j];
        assert forall k | 0 <= k < |s| - 1 :: s[k] == s[..|s| - 1][k];
      }
    }
  }

  predicate Letter(u: Unit) { 0x41 <= u <= 0x5A || 0x61 <= u <= 0x7A }

  predicate SchemeUnit(u: Unit) { Letter(u) || 0x30 <= u <= 0x39 || u == 0x2B || u == 0x2E || u == 0x2D }

  function SchemeEnd(s: JsString, i: nat): (k: nat)
    requires i <= |s|
    ensures i <= k <= |s|
    decreases |s| - i
  {
    if i < |s| && SchemeUnit(s[i]) then SchemeEnd(s, i + 1) else i
  }

  /** The regular expression URLISH: a scheme, then `://`. */
  predicate Urlish(s: JsString) {
    && s != [] && Letter(s[0])
    && var k := SchemeEnd(s, 1);
       k + 3 <= |s| && s[k] == 0x3A && s[k + 1] == 0x2F && s[k + 2] == 0x2F
  }

  function QuoteIfLiteral(raw: JsString): JsString {
    var trimmed := Trim(raw);
    if !Urlish(trimmed) then raw
    else if ParseString(trimmed).Some? then trimmed
    else Stringify(trimmed)
  }

  function Display(raw: JsString): JsString {
    var parsed := ParseString(raw);
    if parsed.Some? && Urlish(parsed.value) then parsed.value else raw
  }

  /** A URL-like text is never a JSON string, so that branch of the quoting is never taken. */
  lemma UrlIsNoJsonString(s: JsString)
    requires Urlish(s)
    ensures ParseString(s).None?
  {
    TrimKeepsTheFront(s);
  }

  lemma {:induction false} TrimKeepsTheFront(s: JsString)
    requires s != [] && !JsonSpace(s[0])
    ensures TrimWhere(s, JsonSpace) != [] && TrimWhere(s, JsonSpace)[0] == s[0]
    decreases |s|
  {
    if JsonSpace(s[|s| - 1]) { TrimKeepsTheFront(s[..|s| - 1]); }
  }

  /** Showing a quoted URL gives the trimmed text back, and for anything else quoting changes nothing. */
  lemma DisplayOfQuoted(raw: JsString)
    ensures Display(QuoteIfLiteral(raw)) == if Urlish(Trim(raw)) then Trim(raw) else Display(raw)
  {
    hide Stringify, Urlish;
    if Urlish(Trim(raw)) {
      UrlIsNoJsonString(Trim(raw));
      ParseOfStringify(Trim(raw));
    }
  }

  /** Quoting again changes nothing. */
  lemma QuotingIsStable(raw: JsString)
    ensures QuoteIfLiteral(QuoteIfLiteral(raw)) == QuoteIfLiteral(raw)
  {
    hide Escape;
    if Urlish(Trim(raw)) {
      UrlIsNoJsonString(Trim(raw));
      QuotedIsTrimmed(Trim(raw), JsSpace);
    }
  }
}
