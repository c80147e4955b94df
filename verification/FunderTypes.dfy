/** Which funder types are shared infrastructure, told from the text of the type. */
module FunderTypes {
  import opened Coordination
  import opened Results

  /** Tab, line feed, vertical tab, form feed, carriage return, the space separators of
      Unicode, the line and paragraph separators and the byte order mark. */
  predicate White(c: char) {
    c in {'\U{0009}', '\U{000A}', '\U{000B}', '\U{000C}', '\U{000D}', '\U{0020}', '\U{00A0}', '\U{1680}', '\U{2000}',
          '\U{2001}', '\U{2002}', '\U{2003}', '\U{2004}', '\U{2005}', '\U{2006}', '\U{2007}', '\U{2008}', '\U{2009}',
          '\U{200A}', '\U{2028}', '\U{2029}', '\U{202F}', '\U{205F}', '\U{3000}', '\U{FEFF}'}
  }

  predicate AllWhite(s: string) { forall i :: 0 <= i < |s| ==> White(s[i]) }

  /** One letter, in either case. */
  predicate SameLetter(c: char, d: char) {
    || c == d
    || ('A' <= c <= 'Z' && d as int == c as int + 32)
    || ('A' <= d <= 'Z' && c as int == d as int + 32)
    || (c in {'k', 'K', '\U{212A}'} && d in {'k', 'K', '\U{212A}'})
  }

  predicate SameLetters(s: string, t: string) {
    |s| == |t| && forall i :: 0 <= i < |s| ==> SameLetter(s[i], t[i])
  }

  /** Nothing but white space stands before `core` in `s`, nor after it. */
  ghost predicate Holds(s: string, core: string) {
    exists a, b :: 0 <= a <= b <= |s| && s[a..b] == core && AllWhite(s[..a]) && AllWhite(s[b..])
  }

  /** The same text but for the case of its letters and the white space around it. */
  ghost predicate SameText(s: string, t: string) {
    exists core, other :: Holds(s, core) && Holds(t, other) && SameLetters(core, other)
  }

  function Trim(s: string): string { TrimEnd(TrimStart(s)) }

  lemma WhiteIsSpace(c: char)
    ensures White(c) <==> IsSpace(c)
  {
    if '\U{2000}' <= c <= '\U{200A}' {
      assert c as int - 0x2000 in {0, 1, 2, 3, 4, 5, 6, 7, 8, 9, 10};
    }
  }

  lemma LowerIff(c: char, d: char)
    ensures SameLetter(c, d) <==> LowerOf(c) == LowerOf(d)
    ensures IsSpace(LowerOf(c)) <==> IsSpace(c)
    ensures LowerOf(LowerOf(c)) == LowerOf(c)
  {
  }

  lemma LowerSame(s: string, t: string)
    ensures SameLetters(s, t) <==> Lower(s) == Lower(t)
  {
    forall i | 0 <= i < |s| && i < |t| ensures SameLetter(s[i], t[i]) <==> Lower(s)[i] == Lower(t)[i] {
      LowerIff(s[i], t[i]);
    }
  }

  // ------------------------------------------------------------------
  // Trimming
  // ------------------------------------------------------------------

  lemma {:induction false} FrontGoes(a: string, s: string)
    requires AllWhite(a)
    ensures TrimStart(a + s) == TrimStart(s)
  {
    if a == [] {
      assert a + s == s;
    } else {
      WhiteIsSpace(a[0]);
      assert (a + s)[1..] == a[1..] + s;
      FrontGoes(a[1..], s);
    }
  }

  lemma {:induction false} BackGoes(s: string, b: string)
    requires AllWhite(b)
    ensures TrimEnd(s + b) == TrimEnd(s)
    decreases |b|
  {
    if b == [] {
      assert s + b == s;
    } else {
      var n := |b| - 1;
      WhiteIsSpace(b[n]);
      assert (s + b)[..|s + b| - 1] == s + b[..n];
      BackGoes(s, b[..n]);
    }
  }

  lemma {:induction false} TrimGoes(s: string, b: string)
    requires AllWhite(b)
    ensures Trim(s + b) == Trim(s)
  {
    if s == [] {
      assert s + b == b && b + [] == b;
      FrontGoes(b, []);
    } else if IsSpace(s[0]) {
      assert (s + b)[1..] == s[1..] + b;
      TrimGoes(s[1..], b);
    } else {
      BackGoes(s, b);
    }
  }

  lemma {:induction false} LowerTrimStart(s: string)
    ensures Lower(TrimStart(s)) == TrimStart(Lower(s))
  {
    if s != [] {
      LowerIff(s[0], s[0]);
      assert Lower(s)[1..] == Lower(s[1..]);
      LowerTrimStart(s[1..]);
    }
  }

  lemma {:induction false} LowerTrimEnd(s: string)
    ensures Lower(TrimEnd(s)) == TrimEnd(Lower(s))
    decreases |s|
  {
    if s != [] {
      var n := |s| - 1;
      LowerIff(s[n], s[n]);
      assert Lower(s)[..n] == Lower(s[..n]);
      LowerTrimEnd(s[..n]);
    }
  }

  /** Between all white text a text trims as it does alone. */
  lemma TrimMiddle(s: string, a: nat, b: nat)
    requires a <= b <= |s| && AllWhite(s[..a]) && AllWhite(s[b..])
    ensures Trim(s) == Trim(s[a..b])
  {
    assert s == s[..a] + (s[a..b] + s[b..]);
    FrontGoes(s[..a], s[a..b] + s[b..]);
    TrimGoes(s[a..b], s[b..]);
  }

  lemma LowerTrim(s: string)
    ensures Lower(Trim(s)) == Trim(Lower(s))
  {
    LowerTrimStart(s);
    LowerTrimEnd(TrimStart(s));
  }

  lemma {:induction false} TrimStartIs(s: string) returns (a: nat)
    ensures a <= |s| && AllWhite(s[..a]) && TrimStart(s) == s[a..]
  {
    a := 0;
    if s != [] && IsSpace(s[0]) {
      WhiteIsSpace(s[0]);
      var k := TrimStartIs(s[1..]);
      a := k + 1;
      assert s[..a] == [s[0]] + s[1..][..k];
    }
  }

  lemma {:induction false} TrimEndIs(s: string) returns (b: nat)
    ensures b <= |s| && AllWhite(s[b..]) && TrimEnd(s) == s[..b]
    decreases |s|
  {
    b := |s|;
    if s != [] && IsSpace(s[|s| - 1]) {
      var n := |s| - 1;
      WhiteIsSpace(s[n]);
      b := TrimEndIs(s[..n]);
      assert s[b..] == s[..n][b..] + [s[n]];
    }
  }

  lemma HoldsTrims(s: string, core: string)
    requires Holds(s, core)
    ensures Trim(s) == Trim(core)
  {
    var a, b :| 0 <= a <= b <= |s| && s[a..b] == core && AllWhite(s[..a]) && AllWhite(s[b..]);
    TrimMiddle(s, a, b);
  }

  lemma HoldsTrimmed(s: string)
    ensures Holds(s, Trim(s))
  {
    var a := TrimStartIs(s);
    var k := TrimEndIs(s[a..]);
    assert s[a..][..k] == s[a..a + k] && s[a..][k..] == s[a + k..];
  }

  /** A text trimmed and in lower case is that of another exactly when the two are the same
      but for the case of their letters and the white space around them. */
  lemma SameTextIff(s: string, t: string)
    ensures SameText(s, t) <==> Lower(TrimEnd(TrimStart(s))) == Lower(TrimEnd(TrimStart(t)))
  {
    if SameText(s, t) {
      var core, other :| Holds(s, core) && Holds(t, other) && SameLetters(core, other);
      HoldsTrims(s, core);
      HoldsTrims(t, other);
      LowerSame(core, other);
      LowerTrim(core);
      LowerTrim(other);
    }
    if Lower(Trim(s)) == Lower(Trim(t)) {
      HoldsTrimmed(s);
      HoldsTrimmed(t);
      LowerSame(Trim(s), Trim(t));
    }
  }

  // ------------------------------------------------------------------
  // The eleven names
  // ------------------------------------------------------------------

  predicate SharedName(name: string) {
    || name == "exchange" || name == "centralized exchange" || name == "cross-chain bridge" || name == "bridge"
    || name == "defi" || name == "market maker" || name == "validator" || name == "stake pool"
    || name == "system" || name == "fees" || name == "oracle"
  }

  /** The type reads, whatever its case and the white space around it, as one of the eleven
      kinds of shared infrastructure. */
  ghost predicate SharedType(funderType: Option<string>) {
    funderType.Some? && exists name :: SharedName(name) && SameText(funderType.value, name)
  }

  /** A name in lower case with a letter at either end. */
  predicate Plain(name: string) {
    && name != [] && 'a' <= name[0] <= 'z' && 'a' <= name[|name| - 1] <= 'z'
    && forall i :: 0 <= i < |name| ==> 'a' <= name[i] <= 'z' || name[i] in {' ', '-'}
  }

  lemma ReadsAs(s: string, name: string)
    requires Plain(name)
    ensures SameText(s, name) <==> Lower(TrimEnd(TrimStart(s))) == name
  {
    SameTextIff(s, name);
    assert TrimEnd(TrimStart(name)) == name;
    assert Lower(name) == name;
  }

  lemma SharedNamePlain(name: string)
    requires SharedName(name)
    ensures Plain(name)
  {
  }

  lemma InfraIff(funderType: Option<string>)
    ensures IsInfra(funderType) <==> SharedType(funderType)
  {
    if funderType.Some? {
      var text := Lower(TrimEnd(TrimStart(funderType.value)));
      forall name | SharedName(name) ensures SameText(funderType.value, name) <==> text == name {
        SharedNamePlain(name);
        ReadsAs(funderType.value, name);
      }
      assert text in INFRA_FUNDER_TYPES <==> SharedName(text);
    }
  }
}
