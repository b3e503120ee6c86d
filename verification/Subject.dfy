/** How the consumer reads the tenant slug out of a message subject. */
module Subject {
  import opened Wrappers

  /** Every maximal piece of `s` between separators; never empty, like the source's `split`. */
  function Split(s: string, sep: char): (parts: seq<string>)
    ensures |parts| >= 1
  {
    if s == "" then [""]
    else
      var rest := Split(s[1..], sep);
      if s[0] == sep then [""] + rest
      else [[s[0]] + rest[0]] + rest[1..]
  }

  function Join(parts: seq<string>, sep: char): string
    requires |parts| >= 1
  {
    if |parts| == 1 then parts[0] else parts[0] + [sep] + Join(parts[1..], sep)
  }

  lemma {:induction false} JoinOfSplit(s: string, sep: char)
    ensures Join(Split(s, sep), sep) == s
  {
    if s != "" {
      var rest := Split(s[1..], sep);
      JoinOfSplit(s[1..], sep);
      if s[0] == sep {
        assert Split(s, sep)[1..] == rest;
      } else {
        assert Split(s, sep)[1..] == rest[1..];
      }
    }
  }

  lemma {:induction false} SplitHasNoSeparator(s: string, sep: char)
    ensures forall p | p in Split(s, sep) :: sep !in p
  {
    if s != "" {
      SplitHasNoSeparator(s[1..], sep);
    }
  }

  lemma {:induction false} SplitOfPiece(p: string, rest: string, sep: char)
    requires sep !in p
    ensures Split(p, sep) == [p]
    ensures Split(p + [sep] + rest, sep) == [p] + Split(rest, sep)
  {
    if p == "" {
      assert (p + [sep] + rest)[1..] == rest;
    } else {
      SplitOfPiece(p[1..], rest, sep);
      assert [p[0]] + p[1..] == p;
      assert (p + [sep] + rest)[1..] == p[1..] + [sep] + rest;
    }
  }

  function Dotted(a: string, b: string, c: string, d: string): string {
    a + "." + (b + "." + (c + "." + d))
  }

  /** Splitting at dots gives four pieces exactly when the text is those pieces joined by dots. */
  lemma SplitIntoFour(s: string, a: string, b: string, c: string, d: string)
    ensures Split(s, '.') == [a, b, c, d] <==>
            s == Dotted(a, b, c, d) && '.' !in a && '.' !in b && '.' !in c && '.' !in d
  {
    if Split(s, '.') == [a, b, c, d] {
      JoinOfSplit(s, '.');
      SplitHasNoSeparator(s, '.');
      var parts := [a, b, c, d];
      assert a in parts && b in parts && c in parts && d in parts;
      assert parts[1..] == [b, c, d] && [b, c, d][1..] == [c, d] && [c, d][1..] == [d];
      assert Join([c, d], '.') == c + "." + Join([d], '.');
      assert Join([b, c, d], '.') == b + "." + Join([c, d], '.');
    }
    if s == Dotted(a, b, c, d) && '.' !in a && '.' !in b && '.' !in c && '.' !in d {
      SplitOfPiece(a, b + "." + (c + "." + d), '.');
      SplitOfPiece(b, c + "." + d, '.');
      SplitOfPiece(c, d, '.');
      SplitOfPiece(d, "", '.');
    }
  }

  /** The slug of `m8flow.events.<slug>.trigger`, or None. */
  function ExtractTenant(subject: string): Option<string> {
    var parts := Split(subject, '.');
    if |parts| == 4 && parts[0] == "m8flow" && parts[1] == "events" && parts[3] == "trigger" && parts[2] != ""
    then Some(parts[2]) else None
  }

  /** Exactly the subjects of the expected shape yield a tenant, and they yield its slug. */
  lemma ExtractTenantExactly(subject: string, slug: string)
    ensures ExtractTenant(subject) == Some(slug) <==>
            slug != "" && '.' !in slug && subject == Dotted("m8flow", "events", slug, "trigger")
  {
    SplitIntoFour(subject, "m8flow", "events", slug, "trigger");
    var parts := Split(subject, '.');
    if ExtractTenant(subject) == Some(slug) {
      assert parts == ["m8flow", "events", slug, "trigger"];
    }
  }
}
