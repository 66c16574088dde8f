/**
 * The string operations the clients rely on: decimal rendering (`str(int)`,
 * `%02d`), ASCII `str.upper`, `str.replace`, and Python's ordering of `str`.
 */
module Text {

  predicate IsDigit(c: char) {
    '0' <= c <= '9'
  }

  predicate AllDigits(s: string) {
    forall i :: 0 <= i < |s| ==> IsDigit(s[i])
  }

  function DigitChar(d: nat): (c: char)
    requires d < 10
    ensures IsDigit(c)
  {
    ['0', '1', '2', '3', '4', '5', '6', '7', '8', '9'][d]
  }

  function DigitValue(c: char): (d: nat)
    requires IsDigit(c)
    ensures d < 10
  {
    (c as int - '0' as int) as nat
  }

  function Pow10(w: nat): (p: nat)
    ensures p >= 1
  {
    if w == 0 then 1 else 10 * Pow10(w - 1)
  }

  /** The value of a string of decimal digits (leading zeros allowed). */
  function DigitsValue(s: string): nat
    requires AllDigits(s)
  {
    if s == [] then 0 else 10 * DigitsValue(s[..|s| - 1]) + DigitValue(s[|s| - 1])
  }

  /** `"%0*d" % (w, n)`: `n` in exactly `w` digits, zero padded on the left. */
  function Pad(n: nat, w: nat): (r: string)
    requires n < Pow10(w)
    ensures |r| == w && AllDigits(r)
  {
    if w == 0 then "" else Pad(n / 10, w - 1) + [DigitChar(n % 10)]
  }

  /** `str(n)` for a non-negative int. */
  function Show(n: nat): (r: string)
    ensures r != [] && AllDigits(r)
    ensures |r| > 1 ==> r[0] != '0'
  {
    if n < 10 then [DigitChar(n)] else Show(n / 10) + [DigitChar(n % 10)]
  }

  lemma DigitRoundTrip(d: nat)
    requires d < 10
    ensures DigitValue(DigitChar(d)) == d
  {
  }

  /** Padding is undone by reading the digits back. */
  lemma {:induction false} PadRoundTrip(n: nat, w: nat)
    requires n < Pow10(w)
    ensures DigitsValue(Pad(n, w)) == n
  {
    if w > 0 {
      var q, d := n / 10, n % 10;
      assert n == 10 * q + d;
      assert q < Pow10(w - 1);
      PadRoundTrip(q, w - 1);
      var r := Pad(n, w);
      assert r == Pad(q, w - 1) + [DigitChar(d)];
      assert r[..|r| - 1] == Pad(q, w - 1);
      DigitRoundTrip(d);
      assert DigitsValue(r) == 10 * q + d;
    }
  }

  /** `int(str(n)) == n`: the decimal rendering loses nothing. */
  lemma {:induction false} ShowRoundTrip(n: nat)
    ensures DigitsValue(Show(n)) == n
  {
    DigitRoundTrip(n % 10);
    if n >= 10 {
      ShowRoundTrip(n / 10);
      var r := Show(n);
      assert r[..|r| - 1] == Show(n / 10);
    }
  }

  // ---------------------------------------------------------------------
  // str.upper, for ASCII text

  function UpperChar(c: char): char {
    if 'a' <= c <= 'z' then (c as int - 32) as char else c
  }

  /** `s.upper()`: lower-case ASCII letters become upper case, nothing else changes. */
  function Upper(s: string): (r: string)
    ensures |r| == |s|
    ensures forall i :: 0 <= i < |s| ==> r[i] == UpperChar(s[i])
  {
    if s == [] then [] else [UpperChar(s[0])] + Upper(s[1..])
  }

  lemma UpperIdempotent(s: string)
    ensures Upper(Upper(s)) == Upper(s)
  {
    assert forall i :: 0 <= i < |s| ==> UpperChar(UpperChar(s[i])) == UpperChar(s[i]);
  }

  /** Exactly the two spellings `lo`, `up` of an ASCII letter upper-case to `up`. */
  lemma UpperCharIs(c: char, lo: char, up: char)
    requires 'A' <= up <= 'Z' && lo as int == up as int + 32
    ensures UpperChar(c) == up <==> c == lo || c == up
  {
  }

  /** Exactly the three-letter spellings of "get" in any mix of cases upper-case to "GET". */
  lemma UpperIsGet(m: string)
    ensures Upper(m) == "GET" <==>
      |m| == 3 && (m[0] == 'g' || m[0] == 'G') && (m[1] == 'e' || m[1] == 'E') && (m[2] == 't' || m[2] == 'T')
  {
    if |m| == 3 {
      var u := Upper(m);
      assert u == "GET" <==> u[0] == 'G' && u[1] == 'E' && u[2] == 'T';
      UpperCharIs(m[0], 'g', 'G');
      UpperCharIs(m[1], 'e', 'E');
      UpperCharIs(m[2], 't', 'T');
    }
  }

  // ---------------------------------------------------------------------
  // str.replace

  /** `s.replace(pat, rep)`: every non-overlapping occurrence of `pat`, scanning left to right. */
  function Replace(s: string, pat: string, rep: string): string
    requires pat != []
    decreases |s|
  {
    if |s| < |pat| then s
    else if s[..|pat|] == pat then rep + Replace(s[|pat|..], pat, rep)
    else [s[0]] + Replace(s[1..], pat, rep)
  }

  /** Replacing a suffix whose first character occurs nowhere before it touches only that suffix. */
  lemma {:induction false} ReplaceSuffix(s: string, pat: string, rep: string)
    requires pat != [] && pat[0] !in s
    ensures Replace(s + pat, pat, rep) == s + rep
    decreases |s|
  {
    var t := s + pat;
    if s == [] {
      assert t == pat && t[..|pat|] == pat && t[|pat|..] == [];
      assert Replace(t, pat, rep) == rep + Replace([], pat, rep);
    } else {
      assert t[0] == s[0] && s[0] != pat[0];
      assert t[..|pat|] != pat by { assert t[..|pat|][0] == s[0]; }
      var tail := s[1..];
      assert t[1..] == tail + pat;
      assert Replace(t, pat, rep) == [s[0]] + Replace(tail + pat, pat, rep);
      assert pat[0] !in tail by { assert forall c :: c in tail ==> c in s; }
      ReplaceSuffix(tail, pat, rep);
      assert [s[0]] + (tail + rep) == s + rep;
    }
  }

  // ---------------------------------------------------------------------
  // Python's `<` on str: lexicographic by code point

  predicate Less(a: string, b: string) {
    if a == [] then b != []
    else if b == [] then false
    else if a[0] != b[0] then a[0] < b[0]
    else Less(a[1..], b[1..])
  }

  lemma {:induction false} LessIrreflexive(a: string)
    ensures !Less(a, a)
  {
    if a != [] {
      LessIrreflexive(a[1..]);
    }
  }

  lemma {:induction false} LessTransitive(a: string, b: string, c: string)
    requires Less(a, b) && Less(b, c)
    ensures Less(a, c)
  {
    if a != [] && b != [] && c != [] && a[0] == b[0] && b[0] == c[0] {
      LessTransitive(a[1..], b[1..], c[1..]);
    }
  }

  lemma {:induction false} LessTotal(a: string, b: string)
    requires a != b
    ensures Less(a, b) || Less(b, a)
  {
    if a != [] && b != [] && a[0] == b[0] {
      assert a == [a[0]] + a[1..] && b == [b[0]] + b[1..];
      LessTotal(a[1..], b[1..]);
    }
  }

  lemma LessAsymmetric(a: string, b: string)
    requires Less(a, b)
    ensures !Less(b, a)
  {
    if Less(b, a) {
      LessTransitive(a, b, a);
      LessIrreflexive(a);
    }
  }
}
