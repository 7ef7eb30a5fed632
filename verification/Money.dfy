/**
 * Amounts written by people or read from a receipt, and the parser that accepts them only
 * when they are unambiguous. Amounts are in cents; a `Decimal` is `mantissa / 10^scale`.
 */
module Money {
  import opened Wrappers
  import opened Text
  import opened Numerals

  const MAX_AMOUNT: nat := 100_000

  predicate IsSeparator(c: char) {
    c == '.' || c == ','
  }

  predicate DigitFree(s: string) {
    forall i :: 0 <= i < |s| ==> !IsDigit(s[i])
  }

  // ---------------------------------------------------------------- finding the number

  /** Where the run of digits starting at `i` ends. */
  function DigitsEnd(s: string, i: nat): (end: nat)
    requires i <= |s|
    ensures i <= end <= |s|
    decreases |s| - i
  {
    if i < |s| && IsDigit(s[i]) then DigitsEnd(s, i + 1) else i
  }

  /** Where the number starting at `i` ends: runs of digits joined by single separators. */
  function NumberEnd(s: string, i: nat): (end: nat)
    requires i < |s| && IsDigit(s[i])
    ensures i < end <= |s|
    decreases |s| - i
  {
    var end := DigitsEnd(s, i);
    if end + 1 < |s| && IsSeparator(s[end]) && IsDigit(s[end + 1]) then NumberEnd(s, end + 1) else end
  }

  /** The numbers of the text from `i` on, left to right, each as long as possible. */
  function NumbersFrom(s: string, i: nat): seq<string>
    requires i <= |s|
    decreases |s| - i
  {
    if i == |s| then []
    else if IsDigit(s[i]) then [s[i..NumberEnd(s, i)]] + NumbersFrom(s, NumberEnd(s, i))
    else NumbersFrom(s, i + 1)
  }

  // ---------------------------------------------------------------- ranges

  function Lower(c: char): char {
    if 'A' <= c <= 'Z' then (c as int - 'A' as int + 'a' as int) as char else c
  }

  /** The lower-case word occurs at position `i`, in any case. */
  predicate WordAt(s: string, i: nat, word: string) {
    i + |word| <= |s| && forall k :: 0 <= k < |word| ==> Lower(s[i + k]) == word[k]
  }

  predicate IsWordChar(c: char) {
    IsDigit(c) || 'a' <= Lower(c) <= 'z' || c == '_'
  }

  /** A lone "o" between non-word characters. */
  predicate LoneOAt(s: string, i: nat) {
    && i < |s| && Lower(s[i]) == 'o'
    && (i == 0 || !IsWordChar(s[i - 1]))
    && (i + 1 == |s| || !IsWordChar(s[i + 1]))
  }

  /** "a" and "partir" with any white space between them. */
  predicate APartirAt(s: string, i: nat) {
    && i < |s| && Lower(s[i]) == 'a'
    && exists j :: i < j <= |s| && IsBlank(s[i + 1..j]) && WordAt(s, j, "partir")
  }

  predicate RangeAt(s: string, i: nat) {
    || WordAt(s, i, "desde") || WordAt(s, i, "hasta") || APartirAt(s, i) || WordAt(s, i, "aprox")
    || WordAt(s, i, "entre") || WordAt(s, i, "/") || WordAt(s, i, "-") || LoneOAt(s, i) || WordAt(s, i, "+")
  }

  /** The text says the price is not a single point. */
  predicate HasRangeWord(s: string) {
    exists i :: 0 <= i < |s| && RangeAt(s, i)
  }

  // ---------------------------------------------------------------- separators

  datatype Decimal = Decimal(mantissa: nat, scale: nat)

  function Split(s: string, sep: char): (groups: seq<string>)
    ensures |groups| > 0
  {
    if s == "" then [""]
    else
      var last := |s| - 1;
      var groups := Split(s[..last], sep);
      if s[last] == sep then groups + [""]
      else groups[..|groups| - 1] + [groups[|groups| - 1] + [s[last]]]
  }

  function Join(groups: seq<string>): string {
    if groups == [] then "" else Join(groups[..|groups| - 1]) + groups[|groups| - 1]
  }

  function Without(s: string, sep: char): string {
    if s == "" then ""
    else
      var last := |s| - 1;
      if s[last] == sep then Without(s[..last], sep) else Without(s[..last], sep) + [s[last]]
  }

  /** The last of the two separators; the text holds at least one. */
  function LastSeparator(s: string): char {
    if s == "" then '.' else if IsSeparator(s[|s| - 1]) then s[|s| - 1] else LastSeparator(s[..|s| - 1])
  }

  function Other(sep: char): char {
    if sep == '.' then ',' else '.'
  }

  /** Resolve the separators of a number; `None` where they make no number at all. */
  function ToDecimal(number: string): Option<Decimal> {
    if '.' in number && ',' in number then
      var decimalSep := LastSeparator(number);
      var groups := Split(Without(number, Other(decimalSep)), decimalSep);
      if |groups| == 2 then Some(Decimal(Value(groups[0] + groups[1]), |groups[1]|)) else None
    else if '.' !in number && ',' !in number then Some(Decimal(Value(number), 0))
    else
      var groups := Split(number, if '.' in number then '.' else ',');
      var tail := groups[|groups| - 1];
      if |groups| > 2 || |tail| == 3 then
        if exists k :: 0 < k < |groups| && |groups[k]| != 3 then None
        else Some(Decimal(Value(Join(groups)), 0))
      else if |tail| == 1 || |tail| == 2 then Some(Decimal(Value(groups[0] + tail), |tail|))
      else None
  }

  /** Two decimals, ties to the even cent. */
  function Quantize(d: Decimal): nat {
    if d.scale <= 2 then d.mantissa * Pow10(2 - d.scale) else HalfEven(d.mantissa, Pow10(d.scale - 2))
  }

  /** The quotient rounded to the nearest, ties to even. */
  function HalfEven(m: nat, unit: nat): nat
    requires unit > 0
  {
    var quotient := m / unit;
    var rest := m % unit;
    if 2 * rest > unit || (2 * rest == unit && quotient % 2 == 1) then quotient + 1 else quotient
  }

  /** The one number the text is unambiguously about, with its exact value. */
  function ExactAmount(raw: string): Option<Decimal> {
    var text := Strip(raw);
    var numbers := NumbersFrom(text, 0);
    if |numbers| != 1 || HasRangeWord(text) then None else ToDecimal(numbers[0])
  }

  predicate WithinLimits(d: Decimal) {
    0 < d.mantissa <= MAX_AMOUNT * Pow10(d.scale)
  }

  /** The amount in cents, `None` when the text does not determine one. */
  function ParseAmount(raw: Option<string>): Option<nat> {
    if raw.None? then None
    else
      var exact := ExactAmount(raw.value);
      if exact.None? || !WithinLimits(exact.value) then None else Some(Quantize(exact.value))
  }

  // ---------------------------------------------------------------- printers

  /** Groups of three digits joined by `sep`. */
  function Grouped(n: nat, sep: char): string {
    if n < 1000 then Digits(n) else Grouped(n / 1000, sep) + [sep] + Padded(n % 1000, 3)
  }

  /** How a person or a bank may write an amount: thousands separator or none, and 0 to 2 decimals. */
  datatype Style = Style(grouped: bool, places: nat, decimalSep: char)

  /** The style can write the amount without losing cents. */
  predicate CanPrint(style: Style, cents: nat) {
    && IsSeparator(style.decimalSep)
    && style.places <= 2
    && (style.places == 0 ==> cents % 100 == 0)
    && (style.places == 1 ==> cents % 10 == 0)
  }

  function WholePart(style: Style, cents: nat): string {
    if style.grouped then Grouped(cents / 100, Other(style.decimalSep)) else Digits(cents / 100)
  }

  /** The decimals kept by the style, as a number. */
  function Fraction(style: Style, cents: nat): nat {
    if style.places == 1 then cents % 100 / 10 else cents % 100
  }

  function Print(style: Style, cents: nat): string {
    if style.places == 0 then WholePart(style, cents)
    else WholePart(style, cents) + [style.decimalSep] + Padded(Fraction(style, cents), style.places)
  }

  // ---------------------------------------------------------------- limits

  /** A successful parse never exceeds the maximum. */
  lemma ParsedIsWithinLimits(raw: Option<string>)
    ensures ParseAmount(raw).Some? ==> ParseAmount(raw).value <= 100 * MAX_AMOUNT
  {
    if ParseAmount(raw).Some? {
      QuantizeBounded(ExactAmount(raw.value).value);
    }
  }

  lemma QuantizeBounded(d: Decimal)
    requires d.mantissa <= MAX_AMOUNT * Pow10(d.scale)
    ensures Quantize(d) <= 100 * MAX_AMOUNT
  {
    if d.scale <= 2 {
      Pow10Adds(d.scale, 2 - d.scale);
      var up := Pow10(2 - d.scale);
      assert Pow10(2) == 100 by { assert Pow10(1) == 10; }
      assert d.mantissa * up <= MAX_AMOUNT * Pow10(d.scale) * up;
      assert MAX_AMOUNT * Pow10(d.scale) * up == MAX_AMOUNT * (Pow10(d.scale) * up);
    } else {
      var unit := Pow10(d.scale - 2);
      Pow10Adds(2, d.scale - 2);
      assert Pow10(2) == 100 by { assert Pow10(1) == 10; }
      assert d.mantissa <= 100 * MAX_AMOUNT * unit;
      DivisionBounded(d.mantissa, unit, 100 * MAX_AMOUNT);
    }
  }

  lemma DivisionBounded(m: nat, unit: nat, bound: nat)
    requires unit > 0 && m <= bound * unit
    ensures m / unit <= bound
    ensures m / unit == bound ==> m % unit == 0
  {
    var q, r := m / unit, m % unit;
    assert m == q * unit + r;
    assert q > bound ==> (q - bound - 1) * unit >= 0;
    assert q > bound ==> q * unit == (q - bound - 1) * unit + bound * unit + unit;
  }

  /**
   * The positivity test runs on the exact value, before rounding: the parse yields zero
   * exactly when the text's exact value is positive and at most half a cent.
   */
  lemma ZeroExactlyBelowHalfCent(raw: string)
    ensures ParseAmount(Some(raw)) == Some(0)
            <==> ExactAmount(raw).Some? && 0 < 200 * ExactAmount(raw).value.mantissa <= Pow10(ExactAmount(raw).value.scale)
  {
    var exact := ExactAmount(raw);
    if exact.Some? {
      var d := exact.value;
      if d.scale <= 2 {
        assert Pow10(1) == 10 && Pow10(2) == 100;
        assert d.mantissa > 0 ==> d.mantissa * Pow10(2 - d.scale) > 0;
      } else {
        var unit := Pow10(d.scale - 2);
        Pow10Adds(2, d.scale - 2);
        assert Pow10(1) == 10 && Pow10(2) == 100;
        HalfUnit(d.mantissa, unit);
        assert Pow10(d.scale) == 100 * unit;
        if 0 < 200 * d.mantissa <= Pow10(d.scale) {
          assert d.mantissa <= MAX_AMOUNT * Pow10(d.scale);
        }
      }
    }
  }

  lemma HalfUnit(m: nat, unit: nat)
    requires unit > 0
    ensures HalfEven(m, unit) == 0 <==> 2 * m <= unit
  {
    var q, r := m / unit, m % unit;
    assert m == q * unit + r;
    if q > 0 {
      assert q * unit >= unit;
    } else {
      assert q * unit == 0;
    }
  }
}
