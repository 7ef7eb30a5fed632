/**
 * Printing an amount in any of the conventions seen on receipts and parsing it back gives
 * the same amount, whatever digit-free text surrounds it.
 */
module MoneyRoundTrip {
  import opened Wrappers
  import opened Text
  import opened Numerals
  import opened Money

  // ---------------------------------------------------------------- separators

  lemma {:induction false} WithoutAbsent(s: string, sep: char)
    requires sep !in s
    ensures Without(s, sep) == s
    decreases |s|
  {
    if s != "" {
      var last := |s| - 1;
      WithoutAbsent(s[..last], sep);
      assert s == s[..last] + [s[last]];
    }
  }

  lemma {:induction false} WithoutConcat(a: string, b: string, sep: char)
    ensures Without(a + b, sep) == Without(a, sep) + Without(b, sep)
    decreases |b|
  {
    if b == "" {
      assert a + b == a;
    } else {
      var last := |b| - 1;
      WithoutConcat(a, b[..last], sep);
      var s := a + b;
      assert s[..|s| - 1] == a + b[..last];
    }
  }

  lemma {:induction false} SplitAtLast(a: string, sep: char, b: string)
    requires sep !in b
    ensures Split(a + [sep] + b, sep) == Split(a, sep) + [b]
    decreases |b|
  {
    var s := a + [sep] + b;
    if b == "" {
      assert s[..|s| - 1] == a;
    } else {
      var last := |b| - 1;
      SplitAtLast(a, sep, b[..last]);
      assert s[..|s| - 1] == a + [sep] + b[..last];
      assert b == b[..last] + [b[last]];
      assert s[|s| - 1] == b[last] && b[last] in b;
    }
  }

  lemma {:induction false} SplitAbsent(s: string, sep: char)
    requires sep !in s
    ensures Split(s, sep) == [s]
    decreases |s|
  {
    if s != "" {
      var last := |s| - 1;
      SplitAbsent(s[..last], sep);
      assert s == s[..last] + [s[last]];
    }
  }

  lemma {:induction false} JoinOfSplit(s: string, sep: char)
    ensures Join(Split(s, sep)) == Without(s, sep)
    decreases |s|
  {
    if s != "" {
      var last := |s| - 1;
      var before := Split(s[..last], sep);
      JoinOfSplit(s[..last], sep);
      var groups := Split(s, sep);
      if s[last] == sep {
        assert groups[..|groups| - 1] == before;
      } else {
        assert groups[..|groups| - 1] == before[..|before| - 1];
      }
    }
  }

  lemma {:induction false} LastSeparatorIs(a: string, sep: char, b: string)
    requires IsSeparator(sep) && AllDigits(b)
    ensures LastSeparator(a + [sep] + b) == sep
    decreases |b|
  {
    var s := a + [sep] + b;
    if b != "" {
      var last := |b| - 1;
      LastSeparatorIs(a, sep, b[..last]);
      assert s[..|s| - 1] == a + [sep] + b[..last];
      assert s[|s| - 1] == b[last];
    }
  }

  // ---------------------------------------------------------------- grouped thousands

  /** Grouping only inserts separators, and every group after the first has three digits. */
  lemma {:induction false} GroupedShape(n: nat, sep: char)
    requires IsSeparator(sep)
    ensures Without(Grouped(n, sep), sep) == Digits(n)
    ensures sep in Grouped(n, sep) <==> n >= 1000
    ensures forall k :: 0 < k < |Split(Grouped(n, sep), sep)| ==> |Split(Grouped(n, sep), sep)[k]| == 3
    ensures |Split(Grouped(n, sep), sep)| > 1 <==> n >= 1000
  {
    var s := Grouped(n, sep);
    if n < 1000 {
      DigitsAreDigits(n);
      WithoutAbsent(s, sep);
      SplitAbsent(s, sep);
    } else {
      var head, tail := Grouped(n / 1000, sep), Padded(n % 1000, 3);
      GroupedShape(n / 1000, sep);
      DigitsByThousands(n);
      WithoutAbsent(tail, sep);
      WithoutConcat(head + [sep], tail, sep);
      assert (head + [sep])[..|head|] == head;
      assert Without(head + [sep], sep) == Without(head, sep);
      SplitAtLast(head, sep, tail);
      assert s[|head|] == sep;
    }
  }

  /** Only digits and the thousands separator, starting and ending with a digit, separators apart. */
  predicate NumberShaped(s: string) {
    && s != "" && IsDigit(s[0]) && IsDigit(s[|s| - 1])
    && forall i :: 0 <= i < |s| && !IsDigit(s[i]) ==> IsSeparator(s[i]) && i + 1 < |s| && IsDigit(s[i + 1])
  }

  lemma DigitsAreNumberShaped(s: string)
    requires s != "" && AllDigits(s)
    ensures NumberShaped(s)
  {
    assert IsDigit(s[0]);
  }

  lemma NumberShapedJoin(a: string, sep: char, b: string)
    requires NumberShaped(a) && IsSeparator(sep) && b != "" && AllDigits(b)
    ensures NumberShaped(a + [sep] + b)
  {
    var s := a + [sep] + b;
    assert s[0] == a[0];
    assert s[|s| - 1] == b[|b| - 1];
    assert forall i :: |a| < i < |s| ==> s[i] == b[i - |a| - 1];
    forall i | 0 <= i < |s| && !IsDigit(s[i])
      ensures IsSeparator(s[i]) && i + 1 < |s| && IsDigit(s[i + 1])
    {
      if i < |a| {
        assert s[i] == a[i] && s[i + 1] == a[i + 1];
      } else {
        assert i == |a| && s[i] == sep;
      }
    }
  }

  lemma {:induction false} GroupedIsNumberShaped(n: nat, sep: char)
    requires IsSeparator(sep)
    ensures NumberShaped(Grouped(n, sep))
    ensures Other(sep) !in Grouped(n, sep)
  {
    if n < 1000 {
      DigitsAreDigits(n);
      DigitsAreNumberShaped(Digits(n));
    } else {
      GroupedIsNumberShaped(n / 1000, sep);
      NumberShapedJoin(Grouped(n / 1000, sep), sep, Padded(n % 1000, 3));
    }
  }

  lemma PrintedIsNumberShaped(style: Style, cents: nat)
    requires CanPrint(style, cents)
    ensures NumberShaped(Print(style, cents))
  {
    var whole := WholePart(style, cents);
    assert NumberShaped(whole) by {
      DigitsAreDigits(cents / 100);
      DigitsAreNumberShaped(Digits(cents / 100));
      GroupedIsNumberShaped(cents / 100, Other(style.decimalSep));
    }
    if style.places > 0 {
      NumberShapedJoin(whole, style.decimalSep, Padded(Fraction(style, cents), style.places));
    }
  }

  // ---------------------------------------------------------------- finding the printed number

  /** The run of digits stays inside the number and stops at a separator or at its end. */
  lemma {:induction false} DigitsEndInside(p: string, number: string, q: string, k: nat)
    requires NumberShaped(number) && DigitFree(q)
    requires k <= |number|
    ensures var s, end := p + number + q, DigitsEnd(p + number + q, |p| + k);
            |p| + k <= end <= |p| + |number| && (end < |p| + |number| ==> !IsDigit(s[end]))
    ensures k < |number| && IsDigit(number[k]) ==> DigitsEnd(p + number + q, |p| + k) > |p| + k
    decreases |number| - k
  {
    var s := p + number + q;
    if k < |number| {
      assert s[|p| + k] == number[k];
      if IsDigit(number[k]) {
        DigitsEndInside(p, number, q, k + 1);
      }
    } else {
      assert q != "" ==> s[|p| + k] == q[0];
    }
  }

  lemma {:induction false} NumberEndIsWhole(p: string, number: string, q: string, k: nat)
    requires NumberShaped(number) && DigitFree(q)
    requires k < |number| && IsDigit(number[k])
    ensures (p + number + q)[|p| + k] == number[k]
    ensures NumberEnd(p + number + q, |p| + k) == |p| + |number|
    decreases |number| - k
  {
    var s := p + number + q;
    assert s[|p| + k] == number[k];
    DigitsEndInside(p, number, q, k);
    var end := DigitsEnd(s, |p| + k);
    if end == |p| + |number| {
      if end + 1 < |s| {
        assert s[end + 1] == q[1];
      }
    } else {
      var j := end - |p|;
      assert s[end] == number[j] && s[end + 1] == number[j + 1];
      NumberEndIsWhole(p, number, q, j + 1);
    }
  }

  lemma {:induction false} NoNumbersIn(s: string, i: nat)
    requires i <= |s|
    requires forall k :: i <= k < |s| ==> !IsDigit(s[k])
    ensures NumbersFrom(s, i) == []
    decreases |s| - i
  {
    if i < |s| {
      NoNumbersIn(s, i + 1);
    }
  }

  /** The only number found in digit-free text around a number is that number. */
  lemma {:induction false} FindsTheNumber(p: string, number: string, q: string, i: nat)
    requires DigitFree(p) && NumberShaped(number) && DigitFree(q)
    requires i <= |p|
    ensures NumbersFrom(p + number + q, i) == [number]
    decreases |p| - i
  {
    var s := p + number + q;
    if i < |p| {
      assert s[i] == p[i];
      FindsTheNumber(p, number, q, i + 1);
    } else {
      NumberEndIsWhole(p, number, q, 0);
      var end := |p| + |number|;
      assert s[i..end] == number;
      assert forall k :: end <= k < |s| ==> s[k] == q[k - end];
      NoNumbersIn(s, end);
    }
  }

  /** Stripping white space never reaches the number. */
  lemma {:induction false} StripKeepsNumber(p: string, number: string, q: string) returns (before: string, after: string)
    requires DigitFree(p) && NumberShaped(number) && DigitFree(q)
    ensures DigitFree(before) && DigitFree(after)
    ensures Strip(p + number + q) == before + number + after
    decreases |p| + |q|
  {
    var s := p + number + q;
    before, after := p, q;
    if p != "" && IsSpace(p[0]) {
      assert s[0] == p[0] && s[1..] == p[1..] + number + q;
      before, after := StripKeepsNumber(p[1..], number, q);
    } else {
      assert s[0] == if p == "" then number[0] else p[0];
      assert !IsSpace(s[0]);
      if q != "" && IsSpace(q[|q| - 1]) {
        assert s[|s| - 1] == q[|q| - 1];
        assert s[..|s| - 1] == p + number + q[..|q| - 1];
        before, after := StripKeepsNumber(p, number, q[..|q| - 1]);
      } else {
        assert s[|s| - 1] == if q == "" then number[|number| - 1] else q[|q| - 1];
      }
    }
  }

  // ---------------------------------------------------------------- reading the printed number

  lemma WholeOnly(style: Style, cents: nat)
    requires CanPrint(style, cents) && style.places == 0
    ensures ToDecimal(Print(style, cents)) == Some(Decimal(cents / 100, 0))
  {
    var n, sep := cents / 100, Other(style.decimalSep);
    var number := Print(style, cents);
    ValueOfDigits(n);
    DigitsAreDigits(n);
    if style.grouped && n >= 1000 {
      GroupedShape(n, sep);
      GroupedIsNumberShaped(n, sep);
      JoinOfSplit(number, sep);
      assert Other(sep) == style.decimalSep;
    } else {
      assert number == Digits(n);
    }
  }

  lemma SeparatorsPresent(whole: string, d: char, decimals: string)
    requires AllDigits(whole) && IsSeparator(d) && AllDigits(decimals)
    ensures var number := whole + [d] + decimals;
            ('.' in number <==> d == '.') && (',' in number <==> d == ',')
  {
    var number := whole + [d] + decimals;
    assert number[|whole|] == d;
    assert forall i :: 0 <= i < |number| && i != |whole| ==> IsDigit(number[i]);
  }

  lemma SplitsOnce(whole: string, d: char, decimals: string)
    requires AllDigits(whole) && IsSeparator(d) && AllDigits(decimals)
    ensures Split(whole + [d] + decimals, d) == [whole, decimals]
  {
    SplitAtLast(whole, d, decimals);
    SplitAbsent(whole, d);
  }

  /** One separator followed by one or two digits is the decimal one. */
  lemma ReadsOneSeparator(whole: string, d: char, decimals: string)
    requires AllDigits(whole) && IsSeparator(d) && AllDigits(decimals) && 1 <= |decimals| <= 2
    ensures ToDecimal(whole + [d] + decimals) == Some(Decimal(Value(whole + decimals), |decimals|))
  {
    SeparatorsPresent(whole, d, decimals);
    SplitsOnce(whole, d, decimals);
  }

  lemma DropsThousands(whole: string, d: char, decimals: string)
    requires IsSeparator(d) && AllDigits(decimals)
    ensures Without(whole + [d] + decimals, Other(d)) == Without(whole, Other(d)) + [d] + decimals
  {
    WithoutConcat(whole, [d] + decimals, Other(d));
    WithoutAbsent([d] + decimals, Other(d));
    assert whole + ([d] + decimals) == whole + [d] + decimals;
  }

  /** With both separators, the last is the decimal one and the other is dropped. */
  lemma ReadsBothSeparators(whole: string, d: char, decimals: string)
    requires IsSeparator(d) && AllDigits(decimals)
    requires Other(d) in whole && AllDigits(Without(whole, Other(d)))
    ensures ToDecimal(whole + [d] + decimals)
            == Some(Decimal(Value(Without(whole, Other(d)) + decimals), |decimals|))
  {
    var number, bare := whole + [d] + decimals, Without(whole, Other(d));
    assert '.' in number && ',' in number by {
      assert number[|whole|] == d;
      assert Other(d) in number;
    }
    LastSeparatorIs(whole, d, decimals);
    DropsThousands(whole, d, decimals);
    assert Split(bare + [d] + decimals, d) == [bare, decimals] by {
      SplitAtLast(bare, d, decimals);
      SplitAbsent(bare, d);
    }
  }

  lemma ReadsPrinted(style: Style, cents: nat)
    requires CanPrint(style, cents) && style.places > 0
    ensures ToDecimal(Print(style, cents))
            == Some(Decimal(Value(Digits(cents / 100) + Padded(Fraction(style, cents), style.places)), style.places))
  {
    var n, d := cents / 100, style.decimalSep;
    var whole, decimals := WholePart(style, cents), Padded(Fraction(style, cents), style.places);
    DigitsAreDigits(n);
    if style.grouped && n >= 1000 {
      GroupedShape(n, Other(d));
      ReadsBothSeparators(whole, d, decimals);
    } else {
      assert whole == Digits(n);
      ReadsOneSeparator(whole, d, decimals);
    }
  }

  lemma ValueOfPrinted(n: nat, f: nat, width: nat)
    requires f < Pow10(width)
    ensures Value(Digits(n) + Padded(f, width)) == n * Pow10(width) + f
  {
    ValueOfDigits(n);
    ValueWithPadding(Digits(n), f, width);
  }

  lemma WholeAndDecimals(style: Style, cents: nat)
    requires CanPrint(style, cents) && style.places > 0
    ensures ToDecimal(Print(style, cents))
            == Some(Decimal(cents / 100 * Pow10(style.places) + Fraction(style, cents), style.places))
  {
    ReadsPrinted(style, cents);
    FractionBelow(style, cents);
    ValueOfPrinted(cents / 100, Fraction(style, cents), style.places);
  }

  lemma FractionBelow(style: Style, cents: nat)
    requires CanPrint(style, cents) && style.places > 0
    ensures Fraction(style, cents) < Pow10(style.places)
  {
    assert Pow10(1) == 10 && Pow10(2) == 100;
  }

  lemma FractionFits(style: Style, cents: nat)
    requires CanPrint(style, cents)
    ensures style.places == 1 ==> cents == 10 * (cents / 100 * Pow10(1) + Fraction(style, cents))
    ensures style.places == 2 ==> cents == cents / 100 * Pow10(2) + Fraction(style, cents)
    ensures Pow10(0) == 1 && Pow10(1) == 10 && Pow10(2) == 100
  {
    assert Pow10(1) == 10 && Pow10(2) == 100;
  }

  /** The separators of a printed amount are resolved to exactly that amount. */
  lemma PrintedIsExact(style: Style, cents: nat)
    requires CanPrint(style, cents) && 0 < cents <= 100 * MAX_AMOUNT
    ensures ToDecimal(Print(style, cents)).Some?
    ensures WithinLimits(ToDecimal(Print(style, cents)).value)
    ensures Quantize(ToDecimal(Print(style, cents)).value) == cents
  {
    FractionFits(style, cents);
    if style.places == 0 {
      WholeOnly(style, cents);
    } else {
      WholeAndDecimals(style, cents);
    }
  }

  /**
   * Round trip. Any amount up to the maximum, printed in any style, with any digit-free text
   * (a symbol, white space, words) before and after, parses back to itself, except that a
   * range word in that text makes the parser refuse it.
   */
  lemma PrintThenParse(style: Style, cents: nat, before: string, after: string)
    requires CanPrint(style, cents) && 0 < cents <= 100 * MAX_AMOUNT
    requires DigitFree(before) && DigitFree(after)
    ensures var raw := before + Print(style, cents) + after;
            ParseAmount(Some(raw)) == if HasRangeWord(Strip(raw)) then None else Some(cents)
  {
    var number := Print(style, cents);
    PrintedIsNumberShaped(style, cents);
    var b, a := StripKeepsNumber(before, number, after);
    FindsTheNumber(b, number, a, 0);
    PrintedIsExact(style, cents);
  }

  /** A number printed alone is never mistaken for a range. */
  lemma PrintAloneThenParse(style: Style, cents: nat)
    requires CanPrint(style, cents) && 0 < cents <= 100 * MAX_AMOUNT
    ensures ParseAmount(Some(Print(style, cents))) == Some(cents)
  {
    var number := Print(style, cents);
    PrintedIsNumberShaped(style, cents);
    LoneNumber(number);
    PrintedIsExact(style, cents);
  }

  lemma NumberHasNoRangeWord(number: string)
    requires NumberShaped(number)
    ensures !HasRangeWord(number)
  {
    forall i | 0 <= i < |number|
      ensures !RangeAt(number, i)
    {
      assert IsDigit(number[i]) || IsSeparator(number[i]);
      NotARangeWord(number, i, "desde");
      NotARangeWord(number, i, "hasta");
      NotARangeWord(number, i, "aprox");
      NotARangeWord(number, i, "entre");
      NotARangeWord(number, i, "/");
      NotARangeWord(number, i, "-");
      NotARangeWord(number, i, "+");
    }
  }

  lemma NotARangeWord(s: string, i: nat, word: string)
    requires i < |s| && (IsDigit(s[i]) || IsSeparator(s[i]))
    requires word != "" && !IsDigit(word[0]) && !IsSeparator(word[0])
    ensures !WordAt(s, i, word)
  {
    assert Lower(s[i]) != word[0];
  }

  /** A positive text that the parser accepts as nothing at all. */
  lemma ThousandthParsesToZero()
    ensures ParseAmount(Some("0,0.001")) == Some(0)
  {
    ThousandthIsExact();
    assert Pow10(1) == 10 && Pow10(2) == 100 && Pow10(3) == 1000;
    ZeroExactlyBelowHalfCent("0,0.001");
  }

  /** A number alone is read as it stands. */
  lemma LoneNumber(number: string)
    requires NumberShaped(number)
    ensures ExactAmount(number) == ToDecimal(number)
  {
    assert "" + number + "" == number;
    FindsTheNumber("", number, "", 0);
    NumberHasNoRangeWord(number);
    assert Strip(number) == number;
  }

  lemma ThousandthIsExact()
    ensures ExactAmount("0,0.001") == Some(Decimal(1, 3))
  {
    assert NumberShaped("0,0.001");
    LoneNumber("0,0.001");
    ThousandthReads();
  }

  lemma ThousandthReads()
    ensures ToDecimal("0,0.001") == Some(Decimal(1, 3))
  {
    assert "0,0" + ['.'] + "001" == "0,0.001";
    DropsExample();
    assert "0,0"[1] == ',';
    ReadsBothSeparators("0,0", '.', "001");
  }

  lemma DropsExample()
    ensures Without("0,0", ',') == "00" && Value("00" + "001") == 1
  {
    assert "0,0"[..2] == "0,";
    assert "0,"[..1] == "0";
    assert "0"[..0] == "";
    assert Without("0", ',') == "0";
    assert Without("0,", ',') == "0";
    assert "00" + "001" == "00001";
    assert "00001"[..4] == "0000" && "0000"[..3] == "000" && "000"[..2] == "00" && "00"[..1] == "0";
    assert Value("0") == 0 && Value("00") == 0 && Value("000") == 0 && Value("0000") == 0;
  }
}
