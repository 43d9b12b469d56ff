/** Converting between whole numbers and decimal strings with a given number of places. */
module DecimalStrings {
  import opened Numbers
  import opened FixedPoint

  datatype ReadError = MultiplePoints | NoRoundDigit | ParseFailed

  datatype Reading = Read(value: Balance) | Unreadable(error: ReadError)

  // ---- Digits ----

  predicate IsDigit(c: char) { '0' <= c <= '9' }

  function DigitOf(c: char): nat
    requires IsDigit(c)
  {
    c as int - '0' as int
  }

  function DigitChar(d: nat): char
    requires d < 10
  {
    '0' + d as char
  }

  predicate AllDigits(s: string) { forall i :: 0 <= i < |s| ==> IsDigit(s[i]) }

  /** The number that digits stand for. */
  function Value(s: string): nat
    requires AllDigits(s)
  {
    if s == "" then 0 else 10 * Value(s[..|s| - 1]) + DigitOf(s[|s| - 1])
  }

  function Pow10(n: nat): nat { if n == 0 then 1 else 10 * Pow10(n - 1) }

  function Zeros(n: nat): (s: string)
    ensures |s| == n && forall i :: 0 <= i < n ==> s[i] == '0'
  {
    seq(n, i => '0')
  }

  lemma {:induction false} ValueConcat(a: string, b: string)
    requires AllDigits(a) && AllDigits(b)
    ensures Value(a + b) == Value(a) * Pow10(|b|) + Value(b)
  {
    if b == "" {
      assert a + b == a;
    } else {
      var front, d := b[..|b| - 1], DigitOf(b[|b| - 1]);
      ValueConcat(a, front);
      assert (a + b)[..|a + b| - 1] == a + front;
      LastDigit(a + b);
      LastDigit(b);
      hide Value;
      ConcatStep(Value(a + b), Value(a), Pow10(|front|), Value(front), d);
    }
  }

  lemma {:induction false} ConcatStep(x: nat, a: nat, p: nat, front: nat, d: nat)
    requires x == 10 * (a * p + front) + d
    ensures x == a * (10 * p) + (10 * front + d)
  {
  }

  lemma {:induction false} LastDigit(s: string)
    requires s != "" && AllDigits(s)
    ensures Value(s) == 10 * Value(s[..|s| - 1]) + DigitOf(s[|s| - 1])
  {
  }

  lemma {:induction false} ValueBound(s: string)
    requires AllDigits(s)
    ensures Value(s) < Pow10(|s|)
  {
    if s != "" {
      ValueBound(s[..|s| - 1]);
    }
  }

  lemma {:induction false} ValueZeros(n: nat)
    ensures Value(Zeros(n)) == 0
  {
    if n > 0 {
      assert Zeros(n)[..n - 1] == Zeros(n - 1);
      ValueZeros(n - 1);
    }
  }

  /** `to_string`: no leading zeros. */
  function ToDecimal(n: nat): (s: string)
    ensures s != "" && AllDigits(s) && Value(s) == n && (s == "0" || s[0] != '0')
  {
    if n < 10 then
      var s := [DigitChar(n)];
      assert s[..0] == "";
      s
    else
      var s := ToDecimal(n / 10) + [DigitChar(n % 10)];
      assert s[..|s| - 1] == ToDecimal(n / 10);
      s
  }

  // ---- Rendering ----

  /** The digits before and after the point stand for `n`, with `places` of them after it; there
      is a digit before it, and no leading zero but a single one. */
  ghost predicate Renders(n: nat, places: nat, whole: string, frac: string) {
    && whole != "" && AllDigits(whole) && AllDigits(frac) && |frac| == places
    && Value(whole + frac) == n
    && (whole == "0" || whole[0] != '0')
  }

  /** The string that `from_fixed_decimal` hands on. */
  method FromFixedDecimal(decimal: Balance, places: nat) returns (s: string)
    ensures exists whole, frac :: Renders(decimal, places, whole, frac) && s == whole + "." + frac
  {
    ghost var whole, frac;
    var digits := ToDecimal(decimal);
    if |digits| <= places {
      whole, frac := "0", Zeros(places - |digits|) + digits;
      s := "0." + Zeros(places - |digits|) + digits;
      PaddedValue(places - |digits|, digits);
      assert s == whole + "." + frac;
      assert Renders(decimal, places, whole, frac);
    } else {
      var at := |digits| - places;
      whole, frac := digits[..at], digits[at..];
      s := digits[..at] + "." + digits[at..];
      assert whole + frac == digits;
      SingleZero(digits, at);
      assert Renders(decimal, places, whole, frac) && s == whole + "." + frac;
    }
  }

  lemma {:induction false} PaddedValue(n: nat, digits: string)
    requires AllDigits(digits)
    ensures AllDigits("0" + (Zeros(n) + digits)) && Value("0" + (Zeros(n) + digits)) == Value(digits)
  {
    assert "0" + (Zeros(n) + digits) == Zeros(n + 1) + digits;
    ValueConcat(Zeros(n + 1), digits);
    ValueZeros(n + 1);
  }

  lemma {:induction false} SingleZero(digits: string, at: nat)
    requires 0 < at <= |digits| && (digits == "0" || digits[0] != '0')
    ensures digits[..at] == "0" || digits[..at][0] != '0'
  {
  }

  // ---- Reading ----

  /** The index of the first point, or the length if there is none. */
  function PointAt(s: string): (i: nat)
    ensures i <= |s| && (i < |s| ==> s[i] == '.') && forall j :: 0 <= j < i ==> s[j] != '.'
  {
    if s == "" || s[0] == '.' then 0 else 1 + PointAt(s[1..])
  }

  /** The parts before and after the first point; without a point the fraction is a zero. */
  function WholePart(s: string): string { s[..PointAt(s)] }

  function FracPart(s: string): string { if PointAt(s) < |s| then s[PointAt(s) + 1..] else "0" }

  /** A leading plus is no part of the number. */
  function Unsigned(s: string): string { if s != "" && s[0] == '+' then s[1..] else s }

  /** `parse::<u128>`. */
  function ParseU128(s: string): Option<Balance> {
    var digits := Unsigned(s);
    if digits != "" && AllDigits(digits) && Value(digits) <= U128_MAX then Some(Value(digits)) else None
  }

  /** The digits that are read: the fraction is filled up with zeros, or cut off. */
  function ReadDigits(whole: string, frac: string, decimals: nat): string {
    whole + if |frac| <= decimals then frac + Zeros(decimals - |frac|) else frac[..decimals]
  }

  /** How a string is read: which strings are refused and why, and what the others mean. A longer
      fraction is rounded on its next digit, and what follows that digit is not looked at. */
  ghost predicate ReadsAs(s: string, decimals: nat, r: Reading) {
    var whole, frac := WholePart(s), FracPart(s);
    if '.' in frac then r == Unreadable(MultiplePoints)
    else if |frac| > decimals && !IsDigit(frac[decimals]) then r == Unreadable(NoRoundDigit)
    else match ParseU128(ReadDigits(whole, frac, decimals))
      case None => r == Unreadable(ParseFailed)
      case Some(v) =>
        && r.Read?
        && if |frac| <= decimals then r.value == v
           else r.value == Min(U128_MAX, v + if DigitOf(frac[decimals]) < 5 then 0 else 1)
  }

  /** `from_fixed_to_fixed_decimal` on the string of a number. */
  method FromFixedToFixedDecimal(s: string, decimals: nat) returns (r: Reading)
    ensures ReadsAs(s, decimals, r)
  {
    hide ParseU128;
    var i := PointAt(s);
    var intPart, fracPart := s[..i], "0";
    if i < |s| {
      fracPart := s[i + 1..];
      if '.' in fracPart {
        return Unreadable(MultiplePoints);
      }
    }
    var increment := false;
    var newFrac := fracPart;
    if |fracPart| < decimals {
      newFrac := fracPart + Zeros(decimals - |fracPart|);
    } else if |fracPart| > decimals {
      if !IsDigit(fracPart[decimals]) {
        return Unreadable(NoRoundDigit);
      }
      if DigitOf(fracPart[decimals]) >= 5 {
        increment := true;
      }
      newFrac := fracPart[..decimals];
    } else {
      assert fracPart + Zeros(0) == fracPart;
    }
    var parsed := ParseU128(intPart + newFrac);
    if parsed.None? {
      return Unreadable(ParseFailed);
    }
    var value := parsed.value;
    if increment {
      value := SatAdd(value, 1);
    }
    return Read(value);
  }

  // ---- What reading means ----

  lemma {:induction false} SplitParts(whole: string, frac: string)
    requires '.' !in whole
    ensures PointAt(whole + "." + frac) == |whole|
    ensures WholePart(whole + "." + frac) == whole && FracPart(whole + "." + frac) == frac
  {
    var s := whole + "." + frac;
    assert s[|whole|] == '.';
    assert forall j :: 0 <= j < |whole| ==> s[j] == whole[j];
  }

  lemma {:induction false} DigitsHaveNoPoint(s: string)
    requires AllDigits(s)
    ensures '.' !in s && Unsigned(s) == s
  {
  }

  /** Reading back what was rendered, with the same number of places, gives the number back. */
  lemma {:induction false} RoundTrip(n: Balance, places: nat, whole: string, frac: string, r: Reading)
    requires Renders(n, places, whole, frac) && ReadsAs(whole + "." + frac, places, r)
    ensures r == Read(n)
  {
    DigitsHaveNoPoint(whole);
    DigitsHaveNoPoint(frac);
    SplitParts(whole, frac);
    assert frac + Zeros(0) == frac;
    DigitsHaveNoPoint(whole + frac);
  }

  /** The value of a fraction that is filled up. */
  lemma {:induction false} FilledUp(digits: string, n: nat)
    requires AllDigits(digits)
    ensures AllDigits(digits + Zeros(n)) && Value(digits + Zeros(n)) == Value(digits) * Pow10(n)
  {
    ValueConcat(digits, Zeros(n));
    ValueZeros(n);
  }

  /** Rounding a number on the first of the digits that are cut off is rounding it to the nearest. */
  lemma {:induction false} CutOff(kept: string, next: char, rest: string)
    requires AllDigits(kept) && IsDigit(next) && AllDigits(rest)
    ensures AllDigits(kept + [next] + rest)
    ensures IsNearest(Value(kept + [next] + rest), Pow10(1 + |rest|), Value(kept) + if DigitOf(next) < 5 then 0 else 1)
  {
    ValueConcat(kept + [next], rest);
    ValueBound(rest);
    assert (kept + [next])[..|kept|] == kept;
    NearestByDigit(Value(kept), DigitOf(next), Value(rest), Pow10(|rest|));
  }

  lemma {:induction false} NearestByDigit(kept: nat, next: nat, rest: nat, p: nat)
    requires next < 10 && rest < p
    ensures IsNearest((10 * kept + next) * p + rest, 10 * p, kept + if next < 5 then 0 else 1)
  {
    TimesTen(kept, next, p);
    Den(kept, p, -1);
    Den(kept, p, 1);
    Den(kept, p, 3);
    if next < 5 {
      MulMono(next, 4, p);
    } else {
      MulMono(5, next, p);
      MulMono(next, 9, p);
      assert 2 * (kept + 1) - 1 == 2 * kept + 1 && 2 * (kept + 1) + 1 == 2 * kept + 3;
    }
  }

  lemma {:induction false} TimesTen(kept: int, next: int, p: int)
    ensures (10 * kept + next) * p == 10 * (kept * p) + next * p
  {
  }

  lemma {:induction false} Den(kept: int, p: int, k: int)
    ensures (10 * p) * (2 * kept + k) == 20 * (kept * p) + 10 * (k * p)
  {
  }

  /** A decimal number: digits with or without a plus in front of them, and with or without a point
      and digits behind it. */
  ghost predicate IsDecimal(s: string) { AllDigits(Unsigned(WholePart(s))) && AllDigits(FracPart(s)) }

  lemma {:induction false} DigitsRead(whole: string, frac: string, decimals: nat)
    requires AllDigits(Unsigned(whole)) && AllDigits(frac)
    ensures var digits, read := Unsigned(whole), ReadDigits(Unsigned(whole), frac, decimals);
            && AllDigits(read) && AllDigits(digits + frac) && Unsigned(ReadDigits(whole, frac, decimals)) == read
            && if |frac| <= decimals then read == (digits + frac) + Zeros(decimals - |frac|)
               else && IsDigit(frac[decimals]) && AllDigits(frac[decimals + 1..])
                    && digits + frac == read + [frac[decimals]] + frac[decimals + 1..]
  {
    var read := ReadDigits(Unsigned(whole), frac, decimals);
    DigitsHaveNoPoint(read);
    if Unsigned(whole) != whole {
      assert ReadDigits(whole, frac, decimals)[1..] == read;
    } else if whole != "" {
      assert ReadDigits(whole, frac, decimals)[0] == whole[0];
    }
  }

  /** Reading a decimal number gives its value times 10^decimals, rounded half up, or the largest
      number if it exceeds that by its rounding. */
  lemma {:induction false} ReadingIsNearest(s: string, decimals: nat, r: Reading)
    requires IsDecimal(s) && ReadsAs(s, decimals, r) && r.Read?
    ensures var digits, frac := Unsigned(WholePart(s)), FracPart(s);
            && AllDigits(digits + frac)
            && if |frac| <= decimals then r.value == Value(digits + frac) * Pow10(decimals - |frac|)
               else exists n :: r.value == Min(U128_MAX, n) && IsNearest(Value(digits + frac), Pow10(|frac| - decimals), n)
  {
    hide Value, AllDigits, PointAt, IsNearest;
    var digits, frac := Unsigned(WholePart(s)), FracPart(s);
    DigitsRead(WholePart(s), frac, decimals);
    if |frac| <= decimals {
      FilledUp(digits + frac, decimals - |frac|);
    } else {
      CutOff(ReadDigits(digits, frac, decimals), frac[decimals], frac[decimals + 1..]);
    }
  }

  /** Without a point the value is simply scaled. */
  lemma {:induction false} WholeReading(s: string, decimals: nat, r: Reading)
    requires '.' !in s && AllDigits(Unsigned(s)) && ReadsAs(s, decimals, r) && r.Read?
    ensures r.value == Value(Unsigned(s)) * Pow10(decimals)
  {
    var digits := Unsigned(s);
    assert WholePart(s) == s && FracPart(s) == "0";
    assert IsDigit('0') && AllDigits("0");
    hide PointAt;
    DigitsRead(s, "0", decimals);
    if 0 < decimals {
      assert "0" + Zeros(decimals - 1) == Zeros(decimals);
      assert digits + "0" + Zeros(decimals - 1) == digits + Zeros(decimals);
      FilledUp(digits, decimals);
    } else {
      assert ReadDigits(digits, "0", 0) == digits;
    }
  }

  /** Which decimal numbers are read: those with a digit to read and a value that fits. */
  lemma {:induction false} ReadableIff(s: string, decimals: nat, r: Reading)
    requires IsDecimal(s) && ReadsAs(s, decimals, r)
    ensures var digits, frac := Unsigned(WholePart(s)), FracPart(s);
            && AllDigits(ReadDigits(digits, frac, decimals))
            && (r.Read? <==> 0 < |digits| + decimals && Value(ReadDigits(digits, frac, decimals)) <= U128_MAX)
    ensures !r.Read? ==> r == Unreadable(ParseFailed)
  {
    DigitsHaveNoPoint(FracPart(s));
    hide PointAt, Value;
    DigitsRead(WholePart(s), FracPart(s), decimals);
  }

  /** The empty string is read as zero, unless no place is asked for. */
  lemma {:induction false} EmptyReading(decimals: nat, r: Reading)
    requires ReadsAs("", decimals, r)
    ensures r == if decimals == 0 then Unreadable(ParseFailed) else Read(0)
  {
    assert WholePart("") == "" && FracPart("") == "0" && Unsigned("") == "";
    assert IsDigit('0') && AllDigits("0");
    if decimals == 0 {
      assert ReadDigits("", "0", 0) == "";
    } else {
      assert ReadDigits("", "0", decimals) == Zeros(decimals);
      ValueZeros(decimals);
    }
  }
}
