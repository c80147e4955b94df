/** String order and the decimal text of a counter, as the program's template
    strings and `<` on strings use them. */
module Strings {

  /** `a < b` on strings: lexicographic. */
  predicate Less(a: string, b: string) {
    b != [] && (a == [] || a[0] < b[0] || (a[0] == b[0] && Less(a[1..], b[1..])))
  }

  predicate AtMost(a: string, b: string) {
    !Less(b, a)
  }

  lemma {:induction false} LessTotal(a: string, b: string)
    ensures a == b || Less(a, b) || Less(b, a)
    ensures !(Less(a, b) && Less(b, a))
    ensures Less(a, b) ==> a != b
  {
    if a != [] && b != [] && a[0] == b[0] {
      LessTotal(a[1..], b[1..]);
      assert a == [a[0]] + a[1..] && b == [b[0]] + b[1..];
    }
  }

  lemma {:induction false} LessTransitive(a: string, b: string, c: string)
    requires Less(a, b) && Less(b, c)
    ensures Less(a, c)
  {
    if a != [] && a[0] == b[0] && b[0] == c[0] {
      LessTransitive(a[1..], b[1..], c[1..]);
    }
  }

  lemma AtMostTransitive(a: string, b: string, c: string)
    requires AtMost(a, b) && AtMost(b, c)
    ensures AtMost(a, c)
  {
    LessTotal(a, b);
    LessTotal(b, c);
    LessTotal(a, c);
    if Less(c, a) {
      if a == b {
      } else if b == c {
      } else {
        LessTransitive(a, b, c);
      }
    }
  }

  function Digit(d: nat): (c: char)
    requires d < 10
    ensures '0' <= c <= '9' && c as int - '0' as int == d
  {
    ('0' as int + d) as char
  }

  /** The decimal text of a counter. */
  function Decimal(n: nat): (s: string)
    ensures s != [] && ':' !in s
    decreases n
  {
    if n < 10 then [Digit(n)] else Decimal(n / 10) + [Digit(n % 10)]
  }

  function Value(s: string): int
  {
    if s == [] then 0 else 10 * Value(s[..|s| - 1]) + (s[|s| - 1] as int - '0' as int)
  }

  lemma {:induction false} DecimalValue(n: nat)
    ensures Value(Decimal(n)) == n
    decreases n
  {
    if n < 10 {
      assert Decimal(n)[..0] == [];
    } else {
      DecimalValue(n / 10);
      assert Decimal(n)[..|Decimal(n)| - 1] == Decimal(n / 10);
    }
  }

  /** The colon before a colon-free last field is the last colon of the text. */
  lemma LastColon(p: string, d: string, k: nat)
    requires ':' !in d && |p| < k < |p + ":" + d|
    ensures (p + ":" + d)[k] != ':'
  {
    assert (p + ":" + d)[k] == d[k - |p| - 1];
  }

  /** Two texts that end in a colon-free field after their last colon end in the same field. */
  lemma LastField(p: string, d: string, q: string, e: string)
    requires p + ":" + d == q + ":" + e
    requires ':' !in d && ':' !in e
    ensures p == q && d == e
  {
    assert (p + ":" + d)[|p|] == ':' && (q + ":" + e)[|q|] == ':';
    forall k: nat | |p| < k < |p + ":" + d| ensures (p + ":" + d)[k] != ':' {
      LastColon(p, d, k);
    }
    forall k: nat | |q| < k < |q + ":" + e| ensures (q + ":" + e)[k] != ':' {
      LastColon(q, e, k);
    }
    assert |p| == |q|;
    assert (p + ":" + d)[..|p|] == p && (q + ":" + e)[..|q|] == q;
    assert (p + ":" + d)[|p| + 1..] == d && (q + ":" + e)[|q| + 1..] == e;
  }
}
