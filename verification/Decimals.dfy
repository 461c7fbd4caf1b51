/** Decimal digits, zero padding, and the order that comparing strings character by character gives. */
module Decimals {

  const DIGITS: string := "0123456789"

  predicate IsDigit(c: char) { '0' <= c <= '9' }

  predicate AllDigits(s: string) { forall i :: 0 <= i < |s| ==> IsDigit(s[i]) }

  function DigitChar(d: nat): (c: char)
    requires d < 10
    ensures IsDigit(c) && DigitValue(c) == d
  {
    DIGITS[d]
  }

  function DigitValue(c: char): nat
    requires IsDigit(c)
  {
    c as int - '0' as int
  }

  function Pow10(e: nat): (p: nat)
    ensures p >= 1
  {
    if e == 0 then 1 else 10 * Pow10(e - 1)
  }

  /** The decimal numeral of `n`, without leading zeros. */
  function Numeral(n: nat): (s: string)
    ensures s != [] && AllDigits(s)
  {
    if n < 10 then [DigitChar(n)] else Numeral(n / 10) + [DigitChar(n % 10)]
  }

  /** The number a string of digits stands for; leading zeros do not matter. */
  function ValueOf(s: string): nat
    requires AllDigits(s)
  {
    if s == [] then 0 else 10 * ValueOf(s[..|s| - 1]) + DigitValue(s[|s| - 1])
  }

  /** Each digit stands for its number, and counts by its place. */
  lemma {:induction false} ValueByPlace(c: char, s: string)
    requires IsDigit(c) && AllDigits(s)
    ensures ValueOf([c] + s) == ValueOf([c]) * Pow10(|s|) + ValueOf(s)
    ensures 0 <= ValueOf([c]) < 10 && "0123456789"[ValueOf([c])] == c
  {
    assert ValueOf([c]) == 10 * ValueOf([c][..0]) + DigitValue(c) && [c][..0] == [];
    if s != [] {
      var init := s[..|s| - 1];
      ValueByPlace(c, init);
      assert ([c] + s)[..|s|] == [c] + init;
      Shift(ValueOf([c]), Pow10(|s| - 1));
    }
  }

  lemma Shift(x: int, p: int)
    ensures 10 * (x * p) == x * (10 * p)
  {
  }

  lemma {:induction false} NumeralRoundTrip(n: nat)
    ensures ValueOf(Numeral(n)) == n
  {
    if n >= 10 {
      NumeralRoundTrip(n / 10);
      assert Numeral(n)[..|Numeral(n)| - 1] == Numeral(n / 10);
    }
  }

  lemma {:induction false} NumeralLength(n: nat, k: nat)
    requires k >= 1
    ensures |Numeral(n)| <= k <==> n < Pow10(k)
    decreases k
  {
    assert Pow10(1) == 10 * Pow10(0);
    if k > 1 && n >= 10 {
      NumeralLength(n / 10, k - 1);
    }
    if k > 1 && n < 10 {
      assert Pow10(k - 1) >= 1;
    }
    if k == 1 && n >= 10 {
      assert |Numeral(n)| == |Numeral(n / 10)| + 1;
    }
  }

  /** A numeral has a leading zero only when it is "0". */
  lemma {:induction false} NumeralLeads(n: nat)
    ensures Numeral(n)[0] == '0' <==> n == 0
  {
    if n >= 10 {
      NumeralLeads(n / 10);
    }
  }

  // ---- Zero padding ----

  function Zeros(k: nat): string { if k == 0 then [] else Zeros(k - 1) + ['0'] }

  /** Pads to at least `width` characters; a longer numeral is left as it is. */
  function Padded(n: nat, width: nat): string {
    var s := Numeral(n);
    if |s| >= width then s else Zeros(width - |s|) + s
  }

  /** Exactly `width` digits, the last ones of `n`. */
  function LastDigits(n: nat, width: nat): (s: string)
    ensures |s| == width
  {
    if width == 0 then [] else LastDigits(n / 10, width - 1) + [DigitChar(n % 10)]
  }

  lemma {:induction false} LastDigitsOfZero(width: nat)
    ensures LastDigits(0, width) == Zeros(width)
  {
    if width > 0 { LastDigitsOfZero(width - 1); }
  }

  lemma {:induction false} NumeralIsLastDigits(n: nat, width: nat)
    requires width >= 1 && n < Pow10(width)
    ensures |Numeral(n)| <= width && LastDigits(n, width) == Zeros(width - |Numeral(n)|) + Numeral(n)
  {
    if n < 10 {
      LastDigitsOfZero(width - 1);
    } else {
      assert width > 1 by { assert Pow10(1) == 10 * Pow10(0); }
      NumeralIsLastDigits(n / 10, width - 1);
      var s := Numeral(n / 10);
      assert Zeros(width - 1 - |s|) + (s + [DigitChar(n % 10)]) == (Zeros(width - 1 - |s|) + s) + [DigitChar(n % 10)];
    }
  }

  lemma {:induction false} LastDigitsValue(n: nat, width: nat)
    requires n < Pow10(width)
    ensures AllDigits(LastDigits(n, width)) && ValueOf(LastDigits(n, width)) == n
  {
    if width > 0 {
      LastDigitsValue(n / 10, width - 1);
      assert LastDigits(n, width)[..width - 1] == LastDigits(n / 10, width - 1);
    }
  }

  /** Padding keeps the value, gives at least `width` digits, and adds no zero to a longer numeral. */
  lemma PaddedValue(n: nat, width: nat)
    requires width >= 1
    ensures var s := Padded(n, width);
            && AllDigits(s) && ValueOf(s) == n && |s| >= width
            && (|s| == width <==> n < Pow10(width)) && (|s| > width ==> s[0] != '0')
  {
    NumeralLength(n, width);
    if n < Pow10(width) {
      PaddedIsFixedWidth(n, width);
      LastDigitsValue(n, width);
    } else {
      NumeralRoundTrip(n);
      NumeralLeads(n);
    }
  }

  lemma PaddedIsFixedWidth(n: nat, width: nat)
    requires width >= 1 && n < Pow10(width)
    ensures Padded(n, width) == LastDigits(n, width)
  {
    NumeralIsLastDigits(n, width);
  }

  // ---- Comparing strings ----

  predicate LexLess(a: string, b: string) {
    b != [] && (a == [] || a[0] < b[0] || (a[0] == b[0] && LexLess(a[1..], b[1..])))
  }

  lemma {:induction false} LexLessByPrefix(a: string, b: string, s: string, t: string)
    requires |a| == |b| && LexLess(a, b)
    ensures LexLess(a + s, b + t)
  {
    if a[0] == b[0] {
      LexLessByPrefix(a[1..], b[1..], s, t);
      assert (a + s)[1..] == a[1..] + s && (b + t)[1..] == b[1..] + t;
    }
  }

  lemma {:induction false} LexLessBySuffix(p: string, s: string, t: string)
    requires LexLess(s, t)
    ensures LexLess(p + s, p + t)
  {
    if p == [] {
      assert p + s == s && p + t == t;
    } else {
      LexLessBySuffix(p[1..], s, t);
      assert (p + s)[1..] == p[1..] + s && (p + t)[1..] == p[1..] + t;
    }
  }

  lemma {:induction false} LexLessAsymmetric(a: string, b: string)
    requires LexLess(a, b)
    ensures !LexLess(b, a) && a != b
  {
    if a != [] && a[0] == b[0] { LexLessAsymmetric(a[1..], b[1..]); }
  }

  /** Numbers of one width compare as their digits do. */
  lemma {:induction false} FixedWidthSorts(m: nat, n: nat, width: nat)
    requires m < n < Pow10(width)
    ensures LexLess(LastDigits(m, width), LastDigits(n, width))
  {
    var u, v := LastDigits(m / 10, width - 1), LastDigits(n / 10, width - 1);
    var c, d := DigitChar(m % 10), DigitChar(n % 10);
    if m / 10 < n / 10 {
      FixedWidthSorts(m / 10, n / 10, width - 1);
      LexLessByPrefix(u, v, [c], [d]);
    } else {
      assert u == v && c < d;
      LexLessBySuffix(u, [c], [d]);
    }
  }
}
