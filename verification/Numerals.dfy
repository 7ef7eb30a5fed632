/** Decimal numerals: the digits of a number and the value of a string of digits. */
module Numerals {
  predicate IsDigit(c: char) {
    '0' <= c <= '9'
  }

  predicate AllDigits(s: string) {
    forall i :: 0 <= i < |s| ==> IsDigit(s[i])
  }

  function Pow10(n: nat): (p: nat)
    ensures p > 0
  {
    if n == 0 then 1 else 10 * Pow10(n - 1)
  }

  function DigitValue(c: char): nat {
    if IsDigit(c) then c as nat - '0' as nat else 0
  }

  function Value(s: string): nat {
    if s == "" then 0 else 10 * Value(s[..|s| - 1]) + DigitValue(s[|s| - 1])
  }

  function DigitOf(n: nat): char
    requires n < 10
  {
    ('0' as int + n) as char
  }

  function Digits(n: nat): string {
    if n < 10 then [DigitOf(n)] else Digits(n / 10) + [DigitOf(n % 10)]
  }

  function Padded(n: nat, width: nat): (s: string)
    ensures |s| == width && AllDigits(s)
  {
    if width == 0 then "" else Padded(n / 10, width - 1) + [DigitOf(n % 10)]
  }

  lemma Pow10Adds(m: nat, n: nat)
    ensures Pow10(m + n) == Pow10(m) * Pow10(n)
    decreases m
  {
    if m > 0 {
      Pow10Adds(m - 1, n);
      assert Pow10(m + n) == 10 * Pow10(m - 1 + n);
    }
  }

  lemma {:induction false} DigitsAreDigits(n: nat)
    ensures |Digits(n)| > 0 && AllDigits(Digits(n))
  {
    if n >= 10 {
      DigitsAreDigits(n / 10);
    }
  }

  lemma {:induction false} ValueOfDigits(n: nat)
    ensures Value(Digits(n)) == n
  {
    if n >= 10 {
      ValueOfDigits(n / 10);
      var s := Digits(n);
      assert s[..|s| - 1] == Digits(n / 10);
    } else {
      var s := Digits(n);
      assert s[..|s| - 1] == "";
    }
  }

  lemma ValueOfLastPadded(a: string, n: nat, width: nat)
    requires width > 0
    ensures Value(a + Padded(n, width)) == 10 * Value(a + Padded(n / 10, width - 1)) + n % 10
  {
    var s := a + Padded(n, width);
    assert s[..|s| - 1] == a + Padded(n / 10, width - 1);
    assert s[|s| - 1] == DigitOf(n % 10);
  }

  lemma TimesTen(v: nat, p: nat)
    ensures v * (10 * p) == 10 * (v * p)
  {
  }

  /** Appending `width` padded digits shifts the value and adds them. */
  lemma {:induction false} ValueWithPadding(a: string, n: nat, width: nat)
    requires n < Pow10(width)
    ensures Value(a + Padded(n, width)) == Value(a) * Pow10(width) + n
    decreases width
  {
    if width == 0 {
      assert a + Padded(n, width) == a;
    } else {
      ValueOfLastPadded(a, n, width);
      ValueWithPadding(a, n / 10, width - 1);
      TimesTen(Value(a), Pow10(width - 1));
    }
  }

  lemma DecimalPlaces(n: nat)
    ensures n / 10 / 10 == n / 100 && n / 100 / 10 == n / 1000
    ensures n % 1000 % 10 == n % 10
    ensures n % 1000 / 10 % 10 == n / 10 % 10
    ensures n % 1000 / 10 / 10 % 10 == n / 100 % 10
  {
  }

  lemma PaddedThree(m: nat)
    ensures Padded(m, 3) == [DigitOf(m / 10 / 10 % 10), DigitOf(m / 10 % 10), DigitOf(m % 10)]
  {
    assert Padded(m / 10 / 10 / 10, 0) == "";
    assert Padded(m / 10 / 10, 1) == [DigitOf(m / 10 / 10 % 10)];
    assert Padded(m / 10, 2) == Padded(m / 10 / 10, 1) + [DigitOf(m / 10 % 10)];
  }

  /** From a thousand on, the digits are those of the thousands followed by three more. */
  lemma DigitsByThousands(n: nat)
    requires n >= 1000
    ensures Digits(n) == Digits(n / 1000) + Padded(n % 1000, 3)
  {
    PaddedThree(n % 1000);
    DecimalPlaces(n);
    var a, b, c := DigitOf(n / 100 % 10), DigitOf(n / 10 % 10), DigitOf(n % 10);
    assert Digits(n) == Digits(n / 10) + [c];
    assert Digits(n / 10) == Digits(n / 100) + [b];
    assert Digits(n / 100) == Digits(n / 1000) + [a];
    assert Digits(n / 1000) + [a] + [b] + [c] == Digits(n / 1000) + [a, b, c];
  }
}
