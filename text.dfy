/**
  Text helpers shared by the point-of-sale model: decimal numerals as Python's
  str() and JavaScript's String() write integers, zero padding as printf's
  %0Nd writes it, Python's "{:.2f}" applied to an amount held in cents, ASCII
  lower-casing, and the byte-wise string order SQLite's BINARY collation uses
  for ORDER BY on ASCII text.
*/
module Text {

  /** True when every character of s is a decimal digit. */
  predicate IsDigits(s: string) {
    forall i :: 0 <= i < |s| ==> '0' <= s[i] <= '9'
  }

  /** The digit character for 0 <= d < 10. */
  function DigitChar(d: int): (c: char)
    requires 0 <= d < 10
    ensures '0' <= c <= '9'
    ensures c as int - '0' as int == d
  {
    (d + '0' as int) as char
  }

  /** The value of one digit character. */
  function DigitValue(c: char): (d: int)
    requires '0' <= c <= '9'
    ensures 0 <= d < 10
  {
    c as int - '0' as int
  }

  /** The shortest decimal numeral of n (no leading zero except for 0 itself). */
  function Numeral(n: nat): (s: string)
    ensures |s| >= 1 && IsDigits(s)
    ensures |s| > 1 ==> s[0] != '0'
    decreases n
  {
    if n < 10 then [DigitChar(n)] else Numeral(n / 10) + [DigitChar(n % 10)]
  }

  /** The number a string of digits denotes, read most significant digit first. */
  function ValueOf(s: string): nat
    requires IsDigits(s)
  {
    if s == [] then 0 else 10 * ValueOf(s[..|s| - 1]) + DigitValue(s[|s| - 1])
  }

  /** Reading a numeral back gives the number it was written from. */
  lemma {:induction false} NumeralRoundTrip(n: nat)
    ensures ValueOf(Numeral(n)) == n
    decreases n
  {
    if n >= 10 {
      NumeralRoundTrip(n / 10);
      var s := Numeral(n);
      assert s[..|s| - 1] == Numeral(n / 10);
      assert DigitValue(s[|s| - 1]) == n % 10;
    }
  }

  /** Distinct numbers have distinct numerals. */
  lemma NumeralInjective(a: nat, b: nat)
    requires Numeral(a) == Numeral(b)
    ensures a == b
  {
    NumeralRoundTrip(a);
    NumeralRoundTrip(b);
  }

  /** str(n) in Python and String(n) in JavaScript, for an integer n. */
  function IntText(n: int): (s: string)
    ensures |s| >= 1
    ensures s[0] == '-' <==> n < 0
    ensures n >= 0 ==> IsDigits(s)
  {
    if n < 0 then "-" + Numeral(-n) else Numeral(n)
  }

  /** Distinct integers are written differently. */
  lemma IntTextInjective(a: int, b: int)
    requires IntText(a) == IntText(b)
    ensures a == b
  {
    if a < 0 && b < 0 {
      var na, nb := Numeral(-a), Numeral(-b);
      assert na == ("-" + na)[1..];
      assert nb == ("-" + nb)[1..];
      NumeralInjective(-a, -b);
    } else if a >= 0 && b >= 0 {
      NumeralInjective(a, b);
    }
  }

  /** k zero characters. */
  function Zeros(k: nat): (s: string)
    ensures |s| == k && IsDigits(s)
    ensures forall i :: 0 <= i < k ==> s[i] == '0'
  {
    if k == 0 then [] else Zeros(k - 1) + "0"
  }

  /** n written with at least width digits, padded with zeros on the left (printf's %0Nd). */
  function Padded(n: nat, width: nat): (s: string)
    ensures IsDigits(s) && |s| >= width
  {
    var d := Numeral(n);
    if |d| >= width then d else Zeros(width - |d|) + d
  }

  /** Leading zeros do not change the number a digit string denotes. */
  lemma {:induction false} LeadingZerosValue(k: nat, s: string)
    requires IsDigits(s)
    ensures IsDigits(Zeros(k) + s) && ValueOf(Zeros(k) + s) == ValueOf(s)
    decreases |s|
  {
    var z := Zeros(k) + s;
    if s == [] {
      assert z == Zeros(k);
      ZerosValue(k);
    } else {
      assert z[..|z| - 1] == Zeros(k) + s[..|s| - 1];
      LeadingZerosValue(k, s[..|s| - 1]);
    }
  }

  /** A run of zeros denotes 0. */
  lemma {:induction false} ZerosValue(k: nat)
    ensures ValueOf(Zeros(k)) == 0
  {
    if k > 0 {
      var z := Zeros(k);
      assert z[..k - 1] == Zeros(k - 1);
      ZerosValue(k - 1);
    }
  }

  /** Reading a padded numeral back gives the number it was written from. */
  lemma PaddedRoundTrip(n: nat, width: nat)
    ensures ValueOf(Padded(n, width)) == n
  {
    NumeralRoundTrip(n);
    var d := Numeral(n);
    if |d| < width {
      LeadingZerosValue(width - |d|, d);
      assert Padded(n, width) == Zeros(width - |d|) + d;
    } else {
      assert Padded(n, width) == d;
    }
  }

  function Pow10(k: nat): (p: nat)
    ensures p >= 1
  {
    if k == 0 then 1 else 10 * Pow10(k - 1)
  }

  /** A number below 10^k has a numeral of at most k digits (k >= 1). */
  lemma {:induction false} NumeralLength(n: nat, k: nat)
    requires k >= 1 && n < Pow10(k)
    ensures |Numeral(n)| <= k
    decreases k
  {
    if n >= 10 {
      assert k >= 2;
      NumeralLength(n / 10, k - 1);
    }
  }

  /** Below 10^width, the padded numeral has exactly width digits. */
  lemma PaddedLength(n: nat, width: nat)
    requires width >= 1 && n < Pow10(width)
    ensures |Padded(n, width)| == width
  {
    NumeralLength(n, width);
  }

  /** Two padded numerals of the same number below 10^width are the same exactly when the numbers are. */
  lemma PaddedInjective(a: nat, b: nat, width: nat)
    requires Padded(a, width) == Padded(b, width)
    ensures a == b
  {
    PaddedRoundTrip(a, width);
    PaddedRoundTrip(b, width);
  }

  /** Python's "{:.2f}".format(c / 100) for an amount held as an integer number of cents. */
  function CentsText(c: int): (s: string)
    ensures |s| >= 4
  {
    var a := if c < 0 then -c else c;
    (if c < 0 then "-" else "") + (Numeral(a / 100) + ("." + Padded(a % 100, 2)))
  }

  /** Different amounts of cents are written differently. */
  lemma CentsTextInjective(c1: int, c2: int)
    requires CentsText(c1) == CentsText(c2)
    ensures c1 == c2
  {
    var a1 := if c1 < 0 then -c1 else c1;
    var a2 := if c2 < 0 then -c2 else c2;
    var t1 := Numeral(a1 / 100) + ("." + Padded(a1 % 100, 2));
    var t2 := Numeral(a2 / 100) + ("." + Padded(a2 % 100, 2));
    assert t1[0] != '-' && t2[0] != '-';
    if c1 < 0 {
      assert CentsText(c1)[0] == '-';
    } else {
      assert CentsText(c1) == t1;
    }
    assert (c1 < 0) == (c2 < 0);
    if c1 < 0 {
      assert t1 == CentsText(c1)[1..] && t2 == CentsText(c2)[1..];
    }
    assert t1 == t2;
    assert '.' !in Numeral(a1 / 100) && '.' !in Numeral(a2 / 100);
    SplitAtSeparator(Numeral(a1 / 100), Padded(a1 % 100, 2), Numeral(a2 / 100), Padded(a2 % 100, 2), '.');
    NumeralInjective(a1 / 100, a2 / 100);
    PaddedInjective(a1 % 100, a2 % 100, 2);
  }

  /** ASCII lower-casing of one character; other characters are left alone. */
  function LowerChar(c: char): (l: char)
    ensures !('A' <= l <= 'Z')
    ensures !('A' <= c <= 'Z') ==> l == c
  {
    if 'A' <= c <= 'Z' then (c as int + 32) as char else c
  }

  /** ASCII lower-casing of a string, character by character. */
  function Lower(s: string): (l: string)
    ensures |l| == |s|
    ensures forall i :: 0 <= i < |s| ==> l[i] == LowerChar(s[i])
  {
    seq(|s|, i requires 0 <= i < |s| => LowerChar(s[i]))
  }

  /** Lower-casing twice is lower-casing once. */
  lemma LowerIdempotent(s: string)
    ensures Lower(Lower(s)) == Lower(s)
  {
  }

  /** Strict lexicographic order by character code; on ASCII text it is SQLite's BINARY collation. */
  predicate Less(a: string, b: string)
    decreases |a|
  {
    if a == [] then b != []
    else if b == [] then false
    else if a[0] != b[0] then a[0] < b[0]
    else Less(a[1..], b[1..])
  }

  lemma {:induction false} LessIrreflexive(a: string)
    ensures !Less(a, a)
    decreases |a|
  {
    if a != [] {
      LessIrreflexive(a[1..]);
    }
  }

  lemma {:induction false} LessTransitive(a: string, b: string, c: string)
    requires Less(a, b) && Less(b, c)
    ensures Less(a, c)
    decreases |a|
  {
    if a != [] && b != [] && c != [] && a[0] == b[0] && b[0] == c[0] {
      LessTransitive(a[1..], b[1..], c[1..]);
    }
  }

  /** Two different strings are ordered one way or the other. */
  lemma {:induction false} LessTotal(a: string, b: string)
    requires a != b
    ensures Less(a, b) || Less(b, a)
    decreases |a|
  {
    if a != [] && b != [] && a[0] == b[0] {
      assert a == [a[0]] + a[1..] && b == [b[0]] + b[1..];
      LessTotal(a[1..], b[1..]);
    }
  }

  lemma LessAsymmetric(a: string, b: string)
    requires Less(a, b)
    ensures !Less(b, a)
  {
    if Less(b, a) {
      LessTransitive(a, b, a);
      LessIrreflexive(a);
    }
  }

  /** A digit string of length k denotes a number below 10^k. */
  lemma {:induction false} ValueOfBound(s: string)
    requires IsDigits(s)
    ensures ValueOf(s) < Pow10(|s|)
  {
    if s != [] {
      ValueOfBound(s[..|s| - 1]);
    }
  }

  /** Reading a digit string from its first digit: the first digit weighs 10^(k-1). */
  lemma {:induction false} ValueOfHead(s: string)
    requires IsDigits(s) && s != []
    ensures ValueOf(s) == DigitValue(s[0]) * Pow10(|s| - 1) + ValueOf(s[1..])
  {
    if |s| > 1 {
      var init := s[..|s| - 1];
      ValueOfHead(init);
      assert init[1..] == s[1..][..|s| - 2];
      assert s[1..][|s| - 2] == s[|s| - 1];
      var tail := s[1..];
      assert ValueOf(tail) == 10 * ValueOf(init[1..]) + DigitValue(s[|s| - 1]);
      assert ValueOf(s) == 10 * ValueOf(init) + DigitValue(s[|s| - 1]);
      HeadStep(DigitValue(s[0]), Pow10(|s| - 2), ValueOf(init[1..]), DigitValue(s[|s| - 1]));
    } else {
      assert s[1..] == [];
    }
  }

  lemma HeadStep(d: int, p: int, a: int, last: int)
    ensures 10 * (d * p + a) + last == d * (10 * p) + (10 * a + last)
  {
    assert d * (10 * p) == 10 * (d * p);
  }

  lemma LeadingDigitDecides(d1: int, x: int, d2: int, y: int, p: int)
    requires 0 <= d1 < d2 && 0 <= x < p && 0 <= y
    ensures d1 * p + x < d2 * p + y
  {
    assert (d1 + 1) * p <= d2 * p;
  }

  /** Between digit strings of the same length, the character order is the numeric order. */
  lemma {:induction false} DigitsOrder(s: string, t: string)
    requires IsDigits(s) && IsDigits(t) && |s| == |t|
    ensures Less(s, t) <==> ValueOf(s) < ValueOf(t)
    decreases |s|
  {
    if s != [] {
      ValueOfHead(s);
      ValueOfHead(t);
      ValueOfBound(s[1..]);
      ValueOfBound(t[1..]);
      var p := Pow10(|s| - 1);
      if s[0] == t[0] {
        DigitsOrder(s[1..], t[1..]);
      } else if s[0] < t[0] {
        LeadingDigitDecides(DigitValue(s[0]), ValueOf(s[1..]), DigitValue(t[0]), ValueOf(t[1..]), p);
      } else {
        LeadingDigitDecides(DigitValue(t[0]), ValueOf(t[1..]), DigitValue(s[0]), ValueOf(s[1..]), p);
      }
    }
  }

  /** Comparing two texts that open with parts of the same length: the first parts decide unless they are equal. */
  lemma {:induction false} LessOfConcat(p: string, r1: string, q: string, r2: string)
    requires |p| == |q|
    ensures Less(p + r1, q + r2) == if p == q then Less(r1, r2) else Less(p, q)
    decreases |p|
  {
    if p != [] {
      assert (p + r1)[1..] == p[1..] + r1;
      assert (q + r2)[1..] == q[1..] + r2;
      LessOfConcat(p[1..], r1, q[1..], r2);
      if p[0] == q[0] && p[1..] == q[1..] {
        assert p == [p[0]] + p[1..] && q == [q[0]] + q[1..];
      }
    } else {
      assert p + r1 == r1 && q + r2 == r2;
    }
  }

  /** Zero-padded numerals of the same width below 10^width sort as the numbers do. */
  lemma PaddedOrder(a: nat, b: nat, width: nat)
    requires width >= 1 && a < Pow10(width) && b < Pow10(width)
    ensures Less(Padded(a, width), Padded(b, width)) <==> a < b
  {
    PaddedLength(a, width);
    PaddedLength(b, width);
    DigitsOrder(Padded(a, width), Padded(b, width));
    PaddedRoundTrip(a, width);
    PaddedRoundTrip(b, width);
  }

  /** If x + [sep] + y == u + [sep] + v and neither x nor u holds sep, the parts agree. */
  lemma SplitAtSeparator(x: string, y: string, u: string, v: string, sep: char)
    requires sep !in x && sep !in u
    requires x + ([sep] + y) == u + ([sep] + v)
    ensures x == u && y == v
  {
    var s := x + ([sep] + y);
    assert forall i :: 0 <= i < |x| ==> s[i] == x[i];
    assert forall i :: 0 <= i < |u| ==> s[i] == u[i];
    assert s[|x|] == sep && s[|u|] == sep;
    assert |x| == |u|;
    assert x == s[..|x|] && u == s[..|u|];
    assert y == s[|x| + 1..] && v == s[|u| + 1..];
  }
}
