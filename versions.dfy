/** PHP versions as (major, minor) pairs, their order, their decimal rendering
    ("5.0", "7.4") and the tested range a sniff run is configured with. */
module Versions {

  datatype Version = Version(major: nat, minor: nat)

  /** Lexicographic order on (major, minor). */
  predicate Le(a: Version, b: Version) {
    a.major < b.major || (a.major == b.major && a.minor <= b.minor)
  }

  predicate Lt(a: Version, b: Version) {
    Le(a, b) && a != b
  }

  lemma LeIsTotalOrder(a: Version, b: Version, c: Version)
    ensures Le(a, a)
    ensures Le(a, b) || Le(b, a)
    ensures Le(a, b) && Le(b, a) ==> a == b
    ensures Le(a, b) && Le(b, c) ==> Le(a, c)
    ensures Lt(a, b) <==> !Le(b, a)
  {
  }

  // ---------------------------------------------------------------------
  // Decimal rendering of versions, as they appear inside messages.

  predicate IsDigits(s: string) {
    forall i :: 0 <= i < |s| ==> '0' <= s[i] <= '9'
  }

  function DigitChar(d: nat): (c: char)
    requires d < 10
    ensures '0' <= c <= '9' && c as int - '0' as int == d
  {
    ('0' as int + d) as char
  }

  /** The decimal digits of n, most significant first, without leading zeros. */
  function NatText(n: nat): (s: string)
    ensures |s| > 0 && IsDigits(s)
    ensures |s| > 1 ==> s[0] != '0'
    decreases n
  {
    if n < 10 then [DigitChar(n)] else NatText(n / 10) + [DigitChar(n % 10)]
  }

  /** The number a string of decimal digits denotes. */
  function DigitsValue(s: string): nat
    requires IsDigits(s)
  {
    if s == [] then 0 else DigitsValue(s[..|s| - 1]) * 10 + (s[|s| - 1] as int - '0' as int)
  }

  lemma {:induction false} NatTextRoundTrip(n: nat)
    ensures DigitsValue(NatText(n)) == n
    decreases n
  {
    if n >= 10 {
      NatTextRoundTrip(n / 10);
      var s := NatText(n);
      assert s[..|s| - 1] == NatText(n / 10);
    }
  }

  lemma NatTextInjective(m: nat, n: nat)
    requires NatText(m) == NatText(n)
    ensures m == n
  {
    NatTextRoundTrip(m);
    NatTextRoundTrip(n);
  }

  /** "major.minor", the form the test files write versions in. */
  function VersionText(v: Version): string {
    NatText(v.major) + "." + NatText(v.minor)
  }

  /** The first '.' of a rendered version ends its major part. */
  lemma DotEndsMajor(v: Version)
    ensures |NatText(v.major)| < |VersionText(v)|
    ensures VersionText(v)[|NatText(v.major)|] == '.'
    ensures forall i :: 0 <= i < |NatText(v.major)| ==> VersionText(v)[i] != '.'
  {
    var a := NatText(v.major);
    forall i | 0 <= i < |a| ensures VersionText(v)[i] != '.' {
      assert VersionText(v)[i] == a[i];
    }
  }

  /** Distinct versions are rendered as distinct texts, so a message names
      exactly one version. */
  lemma VersionTextInjective(v: Version, w: Version)
    requires VersionText(v) == VersionText(w)
    ensures v == w
  {
    var a, b := NatText(v.major), NatText(w.major);
    var s := VersionText(v);
    DotEndsMajor(v);
    DotEndsMajor(w);
    assert a == s[..|a|] == b;
    NatTextInjective(v.major, w.major);
    assert NatText(v.minor) == s[|a| + 1..] == NatText(w.minor);
    NatTextInjective(v.minor, w.minor);
  }

  // ---------------------------------------------------------------------
  // PHP releases up to 7.4, the newest version the tests name as a real
  // release (99.0 is a deliberately out-of-range test version).

  /** The releases 4.0-4.4, 5.0-5.6 and 7.0-7.4. */
  predicate IsRelease(v: Version) {
    (v.major == 4 && v.minor <= 4) ||
    (v.major == 5 && v.minor <= 6) ||
    (v.major == 7 && v.minor <= 4)
  }

  /** b is the release that directly follows release a: no release lies strictly between them. */
  ghost predicate IsNextRelease(a: Version, b: Version) {
    IsRelease(a) && IsRelease(b) && Lt(a, b) &&
    forall r :: IsRelease(r) ==> !(Lt(a, r) && Lt(r, b))
  }

  // ---------------------------------------------------------------------
  // Tested range

  /** The tested PHP versions of one sniff run, from lo to hi inclusive.
      The test files always test one version: Single(v). */
  datatype TestRange = TestRange(lo: Version, hi: Version)

  function Single(v: Version): TestRange {
    TestRange(v, v)
  }

  /** Some tested version is at or below v: the lowest one is. */
  predicate SupportsBelow(r: TestRange, v: Version) {
    Le(r.lo, v)
  }
}
