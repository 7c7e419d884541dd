/** Splitting, joining and printing strings, as the Go packages strings and strconv do for single-byte text. */
module Text {

  predicate Free(s: string, sep: char) {
    sep !in s
  }

  /** strings.Split for a one-character separator. */
  function Split(s: string, sep: char): (parts: seq<string>)
    ensures |parts| >= 1
  {
    if s == "" then [""]
    else if s[0] == sep then [""] + Split(s[1..], sep)
    else var rest := Split(s[1..], sep); [[s[0]] + rest[0]] + rest[1..]
  }

  /** strings.Join for a one-character separator. */
  function Join(parts: seq<string>, sep: char): string {
    if parts == [] then ""
    else if |parts| == 1 then parts[0]
    else parts[0] + [sep] + Join(parts[1..], sep)
  }

  lemma {:induction false} SplitIsFree(s: string, sep: char)
    ensures forall p | p in Split(s, sep) :: Free(p, sep)
  {
    if s != "" {
      SplitIsFree(s[1..], sep);
      var rest := Split(s[1..], sep);
      assert Free(rest[0], sep) by { assert rest[0] in rest; }
      forall p | p in Split(s, sep) ensures Free(p, sep) {
        assert p == "" || p == [s[0]] + rest[0] || p in rest;
      }
    }
  }

  lemma {:induction false} JoinSplit(s: string, sep: char)
    ensures Join(Split(s, sep), sep) == s
  {
    if s != "" {
      JoinSplit(s[1..], sep);
      var rest := Split(s[1..], sep);
      if s[0] == sep {
        assert Split(s, sep)[1..] == rest;
      } else {
        assert Split(s, sep)[1..] == rest[1..];
      }
    }
  }

  /** Splitting never looks past the first separator to find the first part. */
  lemma {:induction false} SplitAtSeparator(a: string, b: string, sep: char)
    requires Free(a, sep)
    ensures Split(a + [sep] + b, sep) == [a] + Split(b, sep)
  {
    var s := a + [sep] + b;
    if a == "" {
      assert s[1..] == b;
    } else {
      SplitAtSeparator(a[1..], b, sep);
      assert s[1..] == a[1..] + [sep] + b;
      assert s[0] == a[0] && s[0] in a;
      assert [a[0]] + a[1..] == a;
      assert Split(s[1..], sep) == [a[1..]] + Split(b, sep);
    }
  }

  lemma {:induction false} SplitFreeText(a: string, sep: char)
    requires Free(a, sep)
    ensures Split(a, sep) == [a]
  {
    if a != "" {
      SplitFreeText(a[1..], sep);
      assert a[0] in a && [a[0]] + a[1..] == a;
    }
  }

  /** Split is a left inverse of Join on separator-free parts. */
  lemma {:induction false} SplitJoin(parts: seq<string>, sep: char)
    requires parts != [] && forall p | p in parts :: Free(p, sep)
    ensures Split(Join(parts, sep), sep) == parts
  {
    if |parts| == 1 {
      SplitFreeText(parts[0], sep);
    } else {
      SplitJoin(parts[1..], sep);
      SplitAtSeparator(parts[0], Join(parts[1..], sep), sep);
    }
  }

  /** A separator-free text appended after a separator becomes the last part. */
  lemma {:induction false} SplitAppend(s: string, t: string, sep: char)
    requires Free(t, sep)
    ensures Split(s + [sep] + t, sep) == Split(s, sep) + [t]
  {
    var u := s + [sep] + t;
    if s == "" {
      SplitAtSeparator("", t, sep);
      SplitFreeText(t, sep);
    } else {
      SplitAppend(s[1..], t, sep);
      assert u[1..] == s[1..] + [sep] + t;
    }
  }

  /** One more part is joined behind a separator. */
  lemma {:induction false} JoinAppend(parts: seq<string>, t: string, sep: char)
    requires parts != []
    ensures Join(parts + [t], sep) == Join(parts, sep) + [sep] + t
  {
    var all := parts + [t];
    assert all[1..] == parts[1..] + [t];
    if |parts| == 1 {
      assert all[1..] == [t];
    } else {
      JoinAppend(parts[1..], t, sep);
    }
  }

  // ---------------------------------------------------------------- decimal numbers

  function Digit(d: nat): char
    requires d < 10
  {
    '0' + d as char
  }

  function DecimalNat(n: nat): string {
    if n < 10 then [Digit(n)] else DecimalNat(n / 10) + [Digit(n % 10)]
  }

  /** The %d of Go's fmt. */
  function Decimal(n: int): string {
    if n < 0 then "-" + DecimalNat(-n) else DecimalNat(n)
  }

  function ParseNat(s: string): int {
    if s == "" then 0 else 10 * ParseNat(s[..|s| - 1]) + (s[|s| - 1] as int - '0' as int)
  }

  lemma {:induction false} ParseDecimal(n: nat)
    ensures ParseNat(DecimalNat(n)) == n
  {
    var s := DecimalNat(n);
    if n < 10 {
      assert s[..|s| - 1] == "";
      assert ParseNat("") == 0;
    } else {
      ParseDecimal(n / 10);
      assert s[..|s| - 1] == DecimalNat(n / 10);
    }
  }

  lemma {:induction false} DecimalStartsWithDigit(n: nat)
    ensures DecimalNat(n) != "" && DecimalNat(n)[0] != '-'
  {
    if n >= 10 {
      DecimalStartsWithDigit(n / 10);
    }
  }

  lemma DecimalSign(n: int)
    ensures Decimal(n) != "" && (Decimal(n)[0] == '-' <==> n < 0)
  {
    if n >= 0 {
      DecimalStartsWithDigit(n);
    }
  }

  lemma DecimalNatInjective(m: nat, n: nat)
    requires DecimalNat(m) == DecimalNat(n)
    ensures m == n
  {
    ParseDecimal(m);
    ParseDecimal(n);
  }

  lemma SameTail(head: string, a: string, b: string)
    requires head + a == head + b
    ensures a == b
  {
    assert a == (head + a)[|head|..] && b == (head + b)[|head|..];
  }

  lemma DecimalInjective(m: int, n: int)
    requires Decimal(m) == Decimal(n)
    ensures m == n
  {
    DecimalSign(m);
    DecimalSign(n);
    if m < 0 {
      SameTail("-", DecimalNat(-m), DecimalNat(-n));
      DecimalNatInjective(-m, -n);
    } else {
      DecimalNatInjective(m, n);
    }
  }

  // ---------------------------------------------------------------- suffixes

  predicate EndsWith(s: string, suffix: string) {
    |suffix| <= |s| && s[|s| - |suffix|..] == suffix
  }

  lemma AppendInjective(a: string, b: string, suffix: string)
    requires a + suffix == b + suffix
    ensures a == b
  {
    assert |a| == |b|;
    assert a == (a + suffix)[..|a|] && b == (b + suffix)[..|b|];
  }

  // ---------------------------------------------------------------- prefixes and order

  predicate HasPrefix(s: string, prefix: string) {
    |prefix| <= |s| && s[..|prefix|] == prefix
  }

  /** Go's byte order on strings. */
  predicate Less(a: string, b: string) {
    b != "" && (a == "" || a[0] < b[0] || (a[0] == b[0] && Less(a[1..], b[1..])))
  }

  /** The first difference decides, and a text comes before every longer one that it begins. */
  lemma {:induction false} LessAtFirstDifference(p: string, c: char, s: string, d: char, t: string)
    ensures Less(p, p + [c] + s) && !Less(p + [c] + s, p)
    ensures c != d ==> (Less(p + [c] + s, p + [d] + t) <==> c < d)
  {
    var a, b := p + [c] + s, p + [d] + t;
    if p != "" {
      LessAtFirstDifference(p[1..], c, s, d, t);
      assert a[1..] == p[1..] + [c] + s && b[1..] == p[1..] + [d] + t;
    }
  }

  lemma {:induction false} LessTransitive(a: string, b: string, c: string)
    requires !Less(b, a) && !Less(c, b)
    ensures !Less(c, a)
  {
    if a != "" && b != "" && c != "" && a[0] == b[0] == c[0] {
      LessTransitive(a[1..], b[1..], c[1..]);
    }
  }

  lemma {:induction false} LessTotal(a: string, b: string)
    ensures Less(a, b) || Less(b, a) || a == b
    ensures !(Less(a, b) && Less(b, a))
  {
    if a != "" && b != "" && a[0] == b[0] {
      LessTotal(a[1..], b[1..]);
    }
  }

  /** No text with a prefix is less than the prefix. */
  lemma {:induction false} PrefixIsLeast(s: string, prefix: string)
    requires HasPrefix(s, prefix)
    ensures !Less(s, prefix)
  {
    if prefix != "" {
      assert s[0] == s[..|prefix|][0] == prefix[0];
      assert s[1..][..|prefix| - 1] == s[..|prefix|][1..] == prefix[1..];
      PrefixIsLeast(s[1..], prefix[1..]);
    }
  }
}
