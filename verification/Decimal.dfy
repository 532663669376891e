/**
 Decimal numerals over the ASCII digits: reading (int(), strconv), writing (%d), and
 zero padding (%0*d).
 */
module Decimal {

  predicate IsDigit(c: char) {
    '0' <= c <= '9'
  }

  /** str.isdigit on ASCII text: non-empty and digits only. */
  predicate IsNumeral(s: string) {
    s != "" && forall c :: c in s ==> IsDigit(c)
  }

  function DigitValue(c: char): (d: nat)
    requires IsDigit(c)
    ensures d < 10
  {
    c as int - '0' as int
  }

  function DigitChar(d: nat): (c: char)
    requires d < 10
    ensures IsDigit(c) && DigitValue(c) == d
  {
    ('0' as int + d) as char
  }

  /** The number a digit string stands for. */
  function Value(s: string): nat
    requires forall c :: c in s ==> IsDigit(c)
  {
    if s == "" then 0 else Value(s[..|s| - 1]) * 10 + DigitValue(s[|s| - 1])
  }

  /** The shortest numeral of n. */
  function Numeral(n: nat): (s: string)
    ensures IsNumeral(s)
  {
    if n < 10 then [DigitChar(n)] else Numeral(n / 10) + [DigitChar(n % 10)]
  }

  function Zeros(k: nat): (s: string)
    ensures |s| == k && forall c :: c in s ==> c == '0'
  {
    if k == 0 then "" else "0" + Zeros(k - 1)
  }

  /** The numeral of n, zero-padded on the left to at least width characters. */
  function Padded(n: nat, width: nat): (s: string)
    ensures IsNumeral(s)
  {
    var s := Numeral(n);
    if |s| >= width then s else Zeros(width - |s|) + s
  }

  function Pow10(k: nat): (p: nat)
    ensures p >= 1
  {
    if k == 0 then 1 else 10 * Pow10(k - 1)
  }

  /** More than one digit and a leading zero: explicit padding. */
  predicate LeadingZero(s: string) {
    |s| > 1 && s[0] == '0'
  }

  lemma {:induction false} ValueOfNumeral(n: nat)
    ensures Value(Numeral(n)) == n
  {
    if n >= 10 {
      ValueOfNumeral(n / 10);
      assert Numeral(n)[..|Numeral(n)| - 1] == Numeral(n / 10);
    }
  }

  lemma {:induction false} NumeralHasNoLeadingZero(n: nat)
    ensures !LeadingZero(Numeral(n))
    ensures n > 0 ==> Numeral(n)[0] != '0'
  {
    if n >= 10 {
      NumeralHasNoLeadingZero(n / 10);
    }
  }

  lemma {:induction false} ValueIgnoresZeros(k: nat, s: string)
    requires forall c :: c in s ==> IsDigit(c)
    ensures Value(Zeros(k) + s) == Value(s)
  {
    var t := Zeros(k) + s;
    if s != "" {
      assert t[..|t| - 1] == Zeros(k) + s[..|s| - 1];
      ValueIgnoresZeros(k, s[..|s| - 1]);
    } else {
      assert t == Zeros(k);
      ZerosValue(k);
    }
  }

  lemma {:induction false} ZerosValue(k: nat)
    ensures Value(Zeros(k)) == 0
  {
    if k > 0 {
      assert Zeros(k)[..k - 1] == Zeros(k - 1) by { ZerosInit(k); }
      ZerosValue(k - 1);
    }
  }

  lemma {:induction false} ZerosInit(k: nat)
    requires k > 0
    ensures Zeros(k) == Zeros(k - 1) + "0"
  {
    if k > 1 {
      ZerosInit(k - 1);
    }
  }

  lemma {:induction false} ValueBound(s: string)
    requires forall c :: c in s ==> IsDigit(c)
    ensures Value(s) < Pow10(|s|)
  {
    if s != "" {
      ValueBound(s[..|s| - 1]);
      assert Value(s) <= Value(s[..|s| - 1]) * 10 + 9;
      assert Pow10(|s|) == 10 * Pow10(|s| - 1);
    }
  }

  lemma {:induction false} PowMonotone(a: nat, b: nat)
    requires a <= b
    ensures Pow10(a) <= Pow10(b)
  {
    if a < b {
      PowMonotone(a, b - 1);
    }
  }

  /** A digit string without padding is the numeral of its value. */
  lemma {:induction false} NumeralOfValue(s: string)
    requires IsNumeral(s) && !LeadingZero(s)
    ensures Numeral(Value(s)) == s
  {
    var init, c := s[..|s| - 1], s[|s| - 1];
    assert s == init + [c];
    assert DigitChar(DigitValue(c)) == c;
    if init != "" {
      NumeralOfValue(init);
      ValuePositive(init);
      assert Value(s) / 10 == Value(init) && Value(s) % 10 == DigitValue(c);
    }
  }

  lemma {:induction false} ValuePositive(s: string)
    requires IsNumeral(s) && s[0] != '0'
    ensures Value(s) > 0
  {
    if |s| > 1 {
      ValuePositive(s[..|s| - 1]);
    }
  }

  /** Reading a digit string and writing the number back at the same width is the identity. */
  lemma {:induction false} PaddedOfValue(s: string)
    requires IsNumeral(s)
    ensures Padded(Value(s), |s|) == s
    ensures |Numeral(Value(s))| <= |s|
  {
    if LeadingZero(s) {
      var t := s[1..];
      assert s == Zeros(1) + t;
      ValueIgnoresZeros(1, t);
      PaddedOfValue(t);
    } else {
      NumeralOfValue(s);
    }
  }

  /** Writing at width w and reading back is the identity, and small numbers fill exactly w places. */
  lemma {:induction false} ValueOfPadded(n: nat, w: nat)
    ensures Value(Padded(n, w)) == n
    ensures w >= 1 && n < Pow10(w) ==> |Padded(n, w)| == w
  {
    ValueOfNumeral(n);
    var s := Numeral(n);
    if |s| < w {
      ValueIgnoresZeros(w - |s|, s);
    }
    if w >= 1 && n < Pow10(w) {
      NumeralLength(n, w);
    }
  }

  lemma {:induction false} NumeralLength(n: nat, w: nat)
    requires w >= 1 && n < Pow10(w)
    ensures |Numeral(n)| <= w
  {
    if n >= 10 {
      NumeralLength(n / 10, w - 1);
    }
  }

  lemma {:induction false} NumeralLengthMonotone(m: nat, n: nat)
    requires m <= n
    ensures |Numeral(m)| <= |Numeral(n)|
  {
    if m >= 10 {
      NumeralLengthMonotone(m / 10, n / 10);
    }
  }
}
