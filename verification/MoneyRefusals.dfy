/** What the amount parser refuses, read off the text, and how it rounds what it accepts. */
module MoneyRefusals {
  import opened Wrappers
  import opened Text
  import opened Numerals
  import opened Money

  // ---------------------------------------------------------------- the stripped text

  /** Stripping leaves the middle of the text: only white space goes. */
  lemma {:induction false} StripIsASlice(s: string) returns (from: nat, end: nat)
    ensures from <= end <= |s| && Strip(s) == s[from..end]
    ensures forall i :: 0 <= i < |s| && !IsSpace(s[i]) ==> from <= i < end
    decreases |s|
  {
    from, end := 0, |s|;
    if s == "" {
    } else if IsSpace(s[0]) {
      var f, e := StripIsASlice(s[1..]);
      from, end := f + 1, e + 1;
      forall i | 0 <= i < |s| && !IsSpace(s[i]) ensures from <= i < end { assert s[1..][i - 1] == s[i]; }
    } else if IsSpace(s[|s| - 1]) {
      from, end := StripIsASlice(s[..|s| - 1]);
      forall i | 0 <= i < |s| && !IsSpace(s[i]) ensures from <= i < end { assert s[..|s| - 1][i] == s[i]; }
    }
  }

  // ---------------------------------------------------------------- how many numbers

  lemma {:induction false} DigitsEndHoldsDigits(s: string, i: nat)
    requires i <= |s|
    ensures forall k :: i <= k < DigitsEnd(s, i) ==> IsDigit(s[k])
    decreases |s| - i
  {
    if i < |s| && IsDigit(s[i]) { DigitsEndHoldsDigits(s, i + 1); }
  }

  lemma {:induction false} NumberHoldsNoOther(s: string, i: nat)
    requires i < |s| && IsDigit(s[i])
    ensures forall k :: i <= k < NumberEnd(s, i) ==> IsDigit(s[k]) || IsSeparator(s[k])
    decreases |s| - i
  {
    DigitsEndHoldsDigits(s, i);
    var end := DigitsEnd(s, i);
    if end + 1 < |s| && IsSeparator(s[end]) && IsDigit(s[end + 1]) { NumberHoldsNoOther(s, end + 1); }
  }

  lemma {:induction false} DigitIsFound(s: string, from: nat, j: nat)
    requires from <= j < |s| && IsDigit(s[j])
    ensures NumbersFrom(s, from) != []
    decreases |s| - from
  {
    if !IsDigit(s[from]) { DigitIsFound(s, from + 1, j); }
  }

  lemma {:induction false} TwoAreFound(s: string, from: nat, i: nat, k: nat, j: nat)
    requires from <= i < k < j < |s| && IsDigit(s[i]) && IsDigit(s[j]) && !IsDigit(s[k]) && !IsSeparator(s[k])
    ensures |NumbersFrom(s, from)| >= 2
    decreases |s| - from
  {
    if !IsDigit(s[from]) {
      TwoAreFound(s, from + 1, i, k, j);
    } else {
      NumberHoldsNoOther(s, from);
      var end := NumberEnd(s, from);
      if end <= i {
        TwoAreFound(s, end, i, k, j);
      } else {
        DigitIsFound(s, end, j);
      }
    }
  }

  /** Two digits with anything between them that is neither a digit nor a separator: more than one number, refused. */
  lemma SeveralNumbersAreRefused(raw: string, i: nat, k: nat, j: nat)
    requires i < k < j < |raw| && IsDigit(raw[i]) && IsDigit(raw[j]) && !IsDigit(raw[k]) && !IsSeparator(raw[k])
    ensures ParseAmount(Some(raw)) == None
  {
    var from, end := StripIsASlice(raw);
    TwoAreFound(Strip(raw), 0, i - from, k - from, j - from);
  }

  lemma {:induction false} NoneIsFound(s: string, from: nat)
    requires from <= |s| && DigitFree(s)
    ensures NumbersFrom(s, from) == []
    decreases |s| - from
  {
    if from < |s| { NoneIsFound(s, from + 1); }
  }

  /** A text without digits is refused. */
  lemma NoNumberIsRefused(raw: string)
    requires DigitFree(raw)
    ensures ParseAmount(Some(raw)) == None
  {
    var from, end := StripIsASlice(raw);
    NoneIsFound(Strip(raw), 0);
  }

  // ---------------------------------------------------------------- ranges

  const RANGE_WORDS: seq<string> := ["desde", "hasta", "aprox", "entre", "/", "-", "+", "a partir"]

  /** The letter, small or capital. */
  predicate IsLetter(c: char, letter: char) {
    c == letter || ('a' <= letter <= 'z' && c as int == letter as int - 32)
  }

  /** The word stands at position `i` of the text, whatever the case of its letters. */
  predicate Says(s: string, i: nat, word: string) {
    i + |word| <= |s| && forall k :: 0 <= k < |word| ==> IsLetter(s[i + k], word[k])
  }

  lemma SaidIsWritten(s: string, i: nat, word: string)
    requires Says(s, i, word) && forall k :: 0 <= k < |word| ==> !('A' <= word[k] <= 'Z')
    ensures WordAt(s, i, word)
  {
    forall k | 0 <= k < |word| ensures Lower(s[i + k]) == word[k] {
      assert IsLetter(s[i + k], word[k]);
    }
  }

  lemma SaidIsARange(s: string, i: nat, n: nat)
    requires n < |RANGE_WORDS| && Says(s, i, RANGE_WORDS[n])
    ensures i < |s| && RangeAt(s, i)
  {
    SaidIsWritten(s, i, RANGE_WORDS[n]);
    if n == 7 {
      var word := "a partir";
      assert Lower(s[i]) == word[0] && Lower(s[i + 1]) == word[1];
      assert s[i + 1..i + 2][0] == ' ';
      assert IsBlank(s[i + 1..i + 2]);
      var rest := "partir";
      forall k | 0 <= k < |rest| ensures Lower(s[i + 2 + k]) == rest[k] { assert word[k + 2] == rest[k]; assert Lower(s[i + (k + 2)]) == word[k + 2]; }
      assert WordAt(s, i + 2, rest);
    }
  }

  /** A text that names a range, in any case and anywhere, is refused. */
  lemma RangesAreRefused(raw: string, i: nat, n: nat)
    requires n < |RANGE_WORDS| && Says(raw, i, RANGE_WORDS[n])
    ensures ParseAmount(Some(raw)) == None
  {
    var word := RANGE_WORDS[n];
    var from, end := StripIsASlice(raw);
    assert !IsSpace(raw[i]) by { assert IsLetter(raw[i + 0], word[0]); }
    assert !IsSpace(raw[i + |word| - 1]) by { assert IsLetter(raw[i + (|word| - 1)], word[|word| - 1]); }
    assert from <= i && i + |word| <= end;
    var text := Strip(raw);
    forall k | 0 <= k < |word| ensures IsLetter(text[i - from + k], word[k]) {
      assert text[i - from + k] == raw[i + k];
    }
    SaidIsARange(text, i - from, n);
  }

  // ---------------------------------------------------------------- rounding

  lemma HalfEvenIsNearest(m: nat, unit: nat)
    requires unit > 0
    ensures var q := HalfEven(m, unit);
            && 2 * (q * unit - m) <= unit && 2 * (m - q * unit) <= unit
            && (2 * (q * unit - m) == unit || 2 * (m - q * unit) == unit ==> q % 2 == 0)
  {
    var quotient, rest := m / unit, m % unit;
    assert m == quotient * unit + rest;
    assert (quotient + 1) * unit == quotient * unit + unit;
  }

  /** The cents nearest to the exact value, the even ones between two. */
  ghost predicate NearestCents(cents: nat, exact: Decimal) {
    var one: int := Pow10(exact.scale);
    var over: int := 2 * (cents * one - 100 * exact.mantissa);
    -one <= over <= one && (over == one || over == -one ==> cents % 2 == 0)
  }

  /** Few decimals are kept as they are. */
  lemma FewDecimalsAreExact(d: Decimal)
    requires d.scale <= 2
    ensures Quantize(d) * Pow10(d.scale) == 100 * d.mantissa
  {
    var up, one := Pow10(2 - d.scale), Pow10(d.scale);
    assert Pow10(1) == 10 && Pow10(2) == 100;
    Pow10Adds(d.scale, 2 - d.scale);
    assert (d.mantissa * up) * one == d.mantissa * (one * up);
  }

  lemma ScaledBy100(q: int, m: int, unit: int)
    ensures 2 * (q * (100 * unit) - 100 * m) == 100 * (2 * (q * unit - m))
  {
    assert q * (100 * unit) == 100 * (q * unit);
  }

  lemma ManyDecimalsAreRounded(d: Decimal)
    requires d.scale > 2
    ensures NearestCents(Quantize(d), d)
  {
    var unit, q := Pow10(d.scale - 2), Quantize(d);
    assert Pow10(1) == 10 && Pow10(2) == 100;
    Pow10Adds(2, d.scale - 2);
    HalfEvenIsNearest(d.mantissa, unit);
    ScaledBy100(q, d.mantissa, unit);
  }

  lemma QuantizedIsNearest(d: Decimal)
    ensures NearestCents(Quantize(d), d)
  {
    if d.scale <= 2 {
      FewDecimalsAreExact(d);
    } else {
      ManyDecimalsAreRounded(d);
    }
  }

  /** What is accepted is positive, within the maximum and read to its nearest cents. */
  lemma AcceptedIsNearest(raw: string)
    ensures ParseAmount(Some(raw)).Some? ==>
              && ExactAmount(raw).Some?
              && 0 < ExactAmount(raw).value.mantissa <= 100_000 * Pow10(ExactAmount(raw).value.scale)
              && NearestCents(ParseAmount(Some(raw)).value, ExactAmount(raw).value)
  {
    if ParseAmount(Some(raw)).Some? { QuantizedIsNearest(ExactAmount(raw).value); }
  }
}
