/**
  The few Python string built-ins the bot relies on, written out over
  `seq<char>`: `str.lower()`, the substring test `pat in s`, `str.rstrip(c)`,
  the cut position of `split(c)`, `str(n)` for integers and `int(digits)`.
  Lower-casing covers the ASCII letters only.
 */
module PyText {

  predicate IsDigit(c: char) {
    '0' <= c <= '9'
  }

  predicate AllDigits(s: string) {
    forall i :: 0 <= i < |s| ==> IsDigit(s[i])
  }

  function LowerChar(c: char): char {
    if 'A' <= c <= 'Z' then (c as int - 'A' as int + 'a' as int) as char else c
  }

  /** `s.lower()` on ASCII letters; every other character is kept. */
  function Lower(s: string): (r: string)
    ensures |r| == |s|
    ensures forall i :: 0 <= i < |s| ==> r[i] == LowerChar(s[i])
  {
    seq(|s|, i requires 0 <= i < |s| => LowerChar(s[i]))
  }

  /** A text with no upper-case ASCII letter is its own lower-case form. */
  lemma {:induction false} LowerOfLowercase(s: string)
    requires forall i :: 0 <= i < |s| ==> !('A' <= s[i] <= 'Z')
    ensures Lower(s) == s
  {
    assert forall i :: 0 <= i < |s| ==> Lower(s)[i] == s[i];
  }

  /** Lower-casing twice is lower-casing once. */
  lemma {:induction false} LowerIdempotent(s: string)
    ensures Lower(Lower(s)) == Lower(s)
  {
    LowerOfLowercase(Lower(s));
  }

  /** `pat` occurs in `s` starting at index `i`. */
  ghost predicate OccursAt(pat: string, s: string, i: int) {
    0 <= i && i + |pat| <= |s| && s[i..i + |pat|] == pat
  }

  ghost predicate IsSubstring(pat: string, s: string) {
    exists i :: OccursAt(pat, s, i)
  }

  /** A character of `pat` that `s` lacks rules out every occurrence. */
  lemma AbsentCharNotSubstring(pat: string, s: string, c: char)
    requires c in pat && c !in s
    ensures !IsSubstring(pat, s)
  {
    var k :| 0 <= k < |pat| && pat[k] == c;
    forall i | 0 <= i
      ensures !OccursAt(pat, s, i)
    {
      if i + |pat| <= |s| {
        assert s[i..i + |pat|][k] == s[i + k] != c;
      }
    }
  }

  lemma OccursAtEnd(a: string, b: string)
    ensures OccursAt(b, a + b, |a|)
  {
    assert (a + b)[|a|..|a| + |b|] == b;
  }

  /** An occurrence survives appending more text. */
  lemma OccursExtended(pat: string, x: string, y: string, i: int)
    requires OccursAt(pat, x, i)
    ensures OccursAt(pat, x + y, i)
  {
    assert (x + y)[i..i + |pat|] == x[i..i + |pat|];
  }

  /** A substring of a substring is a substring. */
  lemma SubstringTransitive(a: string, b: string, c: string)
    requires IsSubstring(a, b) && IsSubstring(b, c)
    ensures IsSubstring(a, c)
  {
    var i :| OccursAt(a, b, i);
    var j :| OccursAt(b, c, j);
    forall k | 0 <= k < |a|
      ensures c[j + i + k] == a[k]
    {
      assert b[i..i + |a|][k] == b[i + k];
      assert c[j..j + |b|][i + k] == c[j + i + k];
    }
    assert c[j + i..j + i + |a|] == a;
    assert OccursAt(a, c, j + i);
  }

  /** Python's `pat in s` for strings, as a scan from the left. */
  function Contains(s: string, pat: string): bool
    decreases |s|
  {
    if |s| < |pat| then false
    else if s[..|pat|] == pat then true
    else Contains(s[1..], pat)
  }

  /** Dropping the first character shifts every occurrence by one. */
  lemma OccursShift(pat: string, s: string, i: int)
    requires s != [] && 0 <= i
    ensures OccursAt(pat, s[1..], i) <==> OccursAt(pat, s, i + 1)
  {
    if i + |pat| <= |s| - 1 {
      var t := s[1..];
      assert t[i..i + |pat|] == s[1..][i..i + |pat|];
      assert t[i..i + |pat|] == s[i + 1..i + 1 + |pat|];
    }
  }

  lemma {:induction false} ContainsIff(s: string, pat: string)
    ensures Contains(s, pat) <==> IsSubstring(pat, s)
    decreases |s|
  {
    if |s| < |pat| {
    } else if s[..|pat|] == pat {
      assert OccursAt(pat, s, 0);
    } else {
      ContainsIff(s[1..], pat);
      if IsSubstring(pat, s[1..]) {
        var i :| OccursAt(pat, s[1..], i);
        OccursShift(pat, s, i);
      }
      if IsSubstring(pat, s) {
        var i :| OccursAt(pat, s, i);
        assert i != 0;
        OccursShift(pat, s, i - 1);
      }
    }
  }

  /** The longest run of digits at the front of `t` (a greedy `\d+`). */
  function LeadingDigits(t: string): (r: string)
    ensures |r| <= |t| && r == t[..|r|] && AllDigits(r)
    ensures |r| == |t| || !IsDigit(t[|r|])
    decreases |t|
  {
    if t != [] && IsDigit(t[0]) then [t[0]] + LeadingDigits(t[1..]) else []
  }

  /** A run of digits followed by a non-digit is exactly the leading run. */
  lemma {:induction false} LeadingDigitsOf(d: string, t: string)
    requires AllDigits(d) && (t == [] || !IsDigit(t[0]))
    ensures LeadingDigits(d + t) == d
    decreases |d|
  {
    if d == [] {
      assert d + t == t;
    } else {
      assert (d + t)[1..] == d[1..] + t;
      LeadingDigitsOf(d[1..], t);
    }
  }

  /** The first position of `c`: where `s.split(c)` cuts a text holding one `c`. */
  function IndexOf(s: string, c: char): (r: nat)
    requires c in s
    ensures r < |s| && s[r] == c
    ensures forall j :: 0 <= j < r ==> s[j] != c
  {
    if s[0] == c then 0 else 1 + IndexOf(s[1..], c)
  }

  /** `s.rstrip(c)` for a single character `c`. */
  function RStrip(s: string, c: char): (r: string)
    ensures |r| <= |s| && r == s[..|r|]
    ensures r == [] || r[|r| - 1] != c
    ensures forall i :: |r| <= i < |s| ==> s[i] == c
    decreases |s|
  {
    if s != [] && s[|s| - 1] == c then RStrip(s[..|s| - 1], c) else s
  }

  function DigitChar(d: nat): (c: char)
    requires d < 10
    ensures IsDigit(c) && c as int - '0' as int == d
  {
    ('0' as int + d) as char
  }

  /** A decimal numeral as `str` prints it: digits, and no leading zero unless it is "0". */
  predicate Canonical(s: string) {
    s != [] && AllDigits(s) && (|s| > 1 ==> s[0] != '0')
  }

  /** `str(n)` for a natural number: its decimal digits, without leading zeros. */
  function NatToString(n: nat): (r: string)
    ensures Canonical(r)
    ensures n == 0 ==> r == "0"
    ensures n > 0 ==> r[0] != '0'
    decreases n
  {
    if n < 10 then [DigitChar(n)]
    else
      var r := NatToString(n / 10) + [DigitChar(n % 10)];
      assert r[0] == NatToString(n / 10)[0];
      r
  }

  /** `int(s)` for a string of decimal digits (leading zeros allowed). */
  function DigitsValue(s: string): nat
    requires AllDigits(s)
    decreases |s|
  {
    if s == [] then 0 else DigitsValue(s[..|s| - 1]) * 10 + (s[|s| - 1] as int - '0' as int)
  }

  /** A canonical numeral is what `str` prints for its value: each number has one canonical spelling. */
  lemma {:induction false} CanonicalIsPrinted(s: string)
    requires Canonical(s)
    ensures NatToString(DigitsValue(s)) == s
    decreases |s|
  {
    var d := s[|s| - 1] as int - '0' as int;
    if |s| == 1 {
      assert DigitsValue(s) == d;
      assert [DigitChar(d)] == s;
    } else {
      var p := s[..|s| - 1];
      assert p[0] == s[0];
      CanonicalIsPrinted(p);
      var v := DigitsValue(p);
      assert v != 0;
      var n := DigitsValue(s);
      assert n == v * 10 + d;
      assert n / 10 == v && n % 10 == d;
      assert NatToString(n) == NatToString(v) + [DigitChar(d)];
      assert s == p + [s[|s| - 1]];
    }
  }

  /** Reading back what `str(n)` prints gives `n`. */
  lemma {:induction false} NatToStringRoundTrip(n: nat)
    ensures DigitsValue(NatToString(n)) == n
    decreases n
  {
    if n >= 10 {
      NatToStringRoundTrip(n / 10);
      var s := NatToString(n);
      assert s[..|s| - 1] == NatToString(n / 10);
    }
  }

  /** `str(i)` for any integer: a minus sign for negative values. */
  function IntToString(i: int): string {
    if i < 0 then "-" + NatToString(-i) else NatToString(i)
  }

  lemma IntToStringRoundTrip(i: int)
    ensures var s := IntToString(i);
      |s| > 0 && (s[0] == '-' <==> i < 0) &&
      (i < 0 ==> Canonical(s[1..]) && s[1] != '0' && DigitsValue(s[1..]) == -i) &&
      (i >= 0 ==> Canonical(s) && DigitsValue(s) == i)
  {
    if i < 0 {
      NatToStringRoundTrip(-i);
      assert IntToString(i)[1..] == NatToString(-i);
    } else {
      NatToStringRoundTrip(i);
    }
  }
}
