/**
 * Swift `Int` arithmetic and decimal text as the app uses them: truncating
 * division and remainder, `"\(n)"`, `String(format: "%02d")` and `Int(String)`.
 */
module Numbers {
  import opened Wrappers

  /** Swift's `a / d` on `Int`: the quotient is truncated toward zero. */
  function Quot(a: int, d: nat): int
    requires d > 0
  {
    if a >= 0 then a / d else -((-a) / d)
  }

  /** Swift's `a % d` on `Int`: the remainder takes the sign of the dividend. */
  function Rem(a: int, d: nat): int
    requires d > 0
  {
    if a >= 0 then a % d else -((-a) % d)
  }

  /** Quotient and remainder rebuild the dividend, and the remainder keeps its sign. */
  lemma QuotRem(a: int, d: nat)
    requires d > 0
    ensures a == d * Quot(a, d) + Rem(a, d)
    ensures a >= 0 ==> Quot(a, d) >= 0 && 0 <= Rem(a, d) < d
    ensures a < 0 ==> Quot(a, d) <= 0 && -(d as int) < Rem(a, d) <= 0
  {
    if a >= 0 {
      assert a == d * (a / d) + a % d;
    } else {
      var q, r := (-a) / d, (-a) % d;
      assert -a == d * q + r;
      assert d * (-q) == -(d * q);
    }
  }

  function Max(a: int, b: int): int {
    if a >= b then a else b
  }

  function Min(a: int, b: int): int {
    if a <= b then a else b
  }

  predicate IsDigit(c: char) {
    '0' <= c <= '9'
  }

  predicate AllDigits(s: string) {
    forall i :: 0 <= i < |s| ==> IsDigit(s[i])
  }

  function DigitChar(d: nat): (c: char)
    requires d < 10
    ensures IsDigit(c)
  {
    ('0' as int + d) as char
  }

  function DigitValue(c: char): (d: nat)
    requires IsDigit(c)
    ensures d < 10
  {
    c as int - '0' as int
  }

  /** The value of a string of decimal digits (leading zeros allowed). */
  function DigitsValue(s: string): nat
    requires AllDigits(s)
  {
    if s == [] then 0 else DigitsValue(s[..|s| - 1]) * 10 + DigitValue(s[|s| - 1])
  }

  /** Decimal text of a non-negative number, without leading zeros. */
  function NatText(n: nat): string
    decreases n
  {
    if n < 10 then [DigitChar(n)] else NatText(n / 10) + [DigitChar(n % 10)]
  }

  /** Swift's `"\(n)"` and `String(format: "%d", n)`. */
  function IntText(n: int): string {
    if n < 0 then "-" + NatText(-n) else NatText(n)
  }

  /** `n` written with at least `width` digits, padded on the left with zeros. */
  function ZeroPad(n: nat, width: nat): string {
    var digits := NatText(n);
    if |digits| < width then Zeros(width - |digits|) + digits else digits
  }

  function Zeros(k: nat): string {
    seq(k, _ => '0')
  }

  /** `String(format: "%02d", n)`: two-digit zero padding; a negative value keeps its sign and is not padded. */
  function Padded2(n: int): string {
    if n >= 0 then ZeroPad(n, 2) else IntText(n)
  }

  /** NatText gives the shortest digit string that denotes `n`. */
  lemma {:induction false} NatTextValue(n: nat)
    ensures AllDigits(NatText(n)) && |NatText(n)| >= 1
    ensures DigitsValue(NatText(n)) == n
    ensures n < 10 ==> |NatText(n)| == 1
    ensures n < 100 ==> |NatText(n)| <= 2
    ensures |NatText(n)| > 1 ==> NatText(n)[0] != '0'
    decreases n
  {
    if n >= 10 {
      NatTextValue(n / 10);
      var s := NatText(n);
      assert s[..|s| - 1] == NatText(n / 10);
    }
  }

  /** Leading zeros do not change the value of a digit string. */
  lemma {:induction false} LeadingZerosValue(k: nat, s: string)
    requires AllDigits(s)
    ensures AllDigits(Zeros(k) + s)
    ensures DigitsValue(Zeros(k) + s) == DigitsValue(s)
    decreases k, |s|
  {
    if k > 0 {
      if s == [] {
        var t := Zeros(k) + s;
        assert t == Zeros(k - 1) + "0";
        assert t[..|t| - 1] == Zeros(k - 1) + s;
        LeadingZerosValue(k - 1, s);
        assert DigitsValue(t) == DigitsValue(t[..|t| - 1]) * 10 + DigitValue(t[|t| - 1]);
      } else {
        var t := Zeros(k) + s;
        assert t[..|t| - 1] == Zeros(k) + s[..|s| - 1];
        assert t[|t| - 1] == s[|s| - 1];
        LeadingZerosValue(k, s[..|s| - 1]);
        assert DigitsValue(t) == DigitsValue(t[..|t| - 1]) * 10 + DigitValue(t[|t| - 1]);
      }
    } else {
      assert Zeros(k) + s == s;
    }
  }

  /** ZeroPad keeps the value, writes only digits and reaches the requested width. */
  lemma ZeroPadValue(n: nat, width: nat)
    ensures AllDigits(ZeroPad(n, width))
    ensures DigitsValue(ZeroPad(n, width)) == n
    ensures |ZeroPad(n, width)| == if |NatText(n)| < width then width else |NatText(n)|
  {
    NatTextValue(n);
    var digits := NatText(n);
    if |digits| < width {
      LeadingZerosValue(width - |digits|, digits);
    }
  }

  function Pow10(k: nat): nat {
    if k == 0 then 1 else 10 * Pow10(k - 1)
  }

  /** A number below 10^k has at most k digits. */
  lemma {:induction false} NatTextLength(n: nat, k: nat)
    requires 1 <= k && n < Pow10(k)
    ensures |NatText(n)| <= k
    decreases k
  {
    if n >= 10 {
      assert k >= 2;
      assert n / 10 < Pow10(k - 1);
      NatTextLength(n / 10, k - 1);
    }
  }

  /** Below 10^width, zero padding writes exactly `width` digits denoting `n`. */
  lemma ZeroPadExact(n: nat, width: nat)
    requires 1 <= width && n < Pow10(width)
    ensures |ZeroPad(n, width)| == width && AllDigits(ZeroPad(n, width))
    ensures DigitsValue(ZeroPad(n, width)) == n
  {
    NatTextLength(n, width);
    ZeroPadValue(n, width);
  }

  /** For 0 <= n < 100, `%02d` writes exactly two digits denoting `n`. */
  lemma Padded2TwoDigits(n: int)
    requires 0 <= n < 100
    ensures |Padded2(n)| == 2 && AllDigits(Padded2(n)) && DigitsValue(Padded2(n)) == n
  {
    NatTextValue(n);
    ZeroPadValue(n, 2);
  }

  /** For n >= 0, `%02d` writes at least two digits denoting `n`. */
  lemma Padded2Value(n: int)
    requires n >= 0
    ensures |Padded2(n)| >= 2 && AllDigits(Padded2(n)) && DigitsValue(Padded2(n)) == n
  {
    ZeroPadValue(n, 2);
  }

  // ---------------------------------------------------------------------------
  // Parsing: Swift's `Int(String)`

  const IntMin: int := -0x8000_0000_0000_0000
  const IntMax: int := 0x7FFF_FFFF_FFFF_FFFF

  /** An optional sign followed by at least one decimal digit. */
  predicate IsSignedDigits(s: string) {
    if |s| > 0 && (s[0] == '-' || s[0] == '+') then |s| > 1 && AllDigits(s[1..])
    else |s| > 0 && AllDigits(s)
  }

  function SignedValue(s: string): int
    requires IsSignedDigits(s)
  {
    if s[0] == '-' then -(DigitsValue(s[1..]) as int)
    else if s[0] == '+' then DigitsValue(s[1..])
    else DigitsValue(s)
  }

  /**
   * Swift's `Int(_: String)`: an optional `+` or `-` and one or more ASCII
   * digits, nothing else, and a value that fits a 64-bit `Int`.
   */
  function ParseInt(s: string): Option<int> {
    if IsSignedDigits(s) && IntMin <= SignedValue(s) <= IntMax then Some(SignedValue(s)) else None
  }

  /** The text of a number denotes that number. */
  lemma IntTextValue(n: int)
    ensures IsSignedDigits(IntText(n)) && SignedValue(IntText(n)) == n
    ensures '/' !in IntText(n) && ':' !in IntText(n)
  {
    NatTextValue(if n < 0 then -n else n);
    if n < 0 {
      assert IntText(n)[1..] == NatText(-n);
    }
  }

  /** A number's text is made of digits and, for a negative number, one leading minus sign. */
  lemma IntTextChars(n: int)
    ensures forall i :: 0 <= i < |IntText(n)| ==> IsDigit(IntText(n)[i]) || (i == 0 && IntText(n)[i] == '-')
    ensures forall i :: 0 <= i < |Padded2(n)| ==> IsDigit(Padded2(n)[i]) || (i == 0 && Padded2(n)[i] == '-')
  {
    NatTextValue(if n < 0 then -n else n);
    if n >= 0 {
      ZeroPadValue(n, 2);
    } else {
      assert IntText(n)[1..] == NatText(-n);
    }
  }

  /** Parsing inverts printing for every 64-bit value. */
  lemma ParseIntText(n: int)
    requires IntMin <= n <= IntMax
    ensures ParseInt(IntText(n)) == Some(n)
  {
    IntTextValue(n);
  }

  /** Printing is injective: distinct numbers have distinct texts. */
  lemma IntTextInjective(m: int, n: int)
    ensures IntText(m) == IntText(n) <==> m == n
  {
    IntTextValue(m);
    IntTextValue(n);
  }

  /** A non-negative number is printed with digits only. */
  lemma NonNegativeTextDigits(n: int)
    requires n >= 0
    ensures AllDigits(IntText(n)) && DigitsValue(IntText(n)) == n
  {
    NatTextValue(n);
  }

  // ---------------------------------------------------------------------------
  // Ratios

  /** A quotient is 1 exactly when numerator and denominator agree. */
  lemma RatioIsOne(c: real, n: real)
    requires n != 0.0
    ensures c / n == 1.0 <==> c == n
  {
    var r := c / n;
    assert r * n == c;
    if r == 1.0 {
      assert c == n;
    }
  }

  /** A share of a positive whole lies in [0, 1]. */
  lemma RatioBounds(c: real, n: real)
    requires 0.0 <= c <= n && n > 0.0
    ensures 0.0 <= c / n <= 1.0
  {
    var r := c / n;
    assert r * n == c;
    assert (r - 1.0) * n == c - n;
  }

  /** A quotient of at least the positive denominator is at least 1. */
  lemma RatioAtLeastOne(c: real, n: real)
    requires 0.0 < n <= c
    ensures c / n >= 1.0
  {
    var r := c / n;
    assert r * n == c;
    assert (r - 1.0) * n == c - n;
  }
}
