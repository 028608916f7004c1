/** Durations as the scenario editor shows and reads them: whole nanoseconds to decimal seconds
    or milliseconds and back, by digits alone. Surrounding spaces are already removed. */
module DurationText {
  import opened Basics
  import opened Document

  function Pow10(n: nat): (power: nat)
    ensures power > 0
  {
    if n == 0 then 1 else 10 * Pow10(n - 1)
  }

  function Quotient(value: nat, scale: nat): nat
    requires scale > 0
  {
    value / scale
  }

  function Remainder(value: nat, scale: nat): nat
    requires scale > 0
  {
    value % scale
  }

  lemma Divided(value: nat, scale: nat)
    requires scale > 0
    ensures value == Quotient(value, scale) * scale + Remainder(value, scale) && Remainder(value, scale) < scale
  {
  }

  function Zeros(n: nat): string {
    seq(n, _ => '0')
  }

  function PadStart(text: string, width: nat): string {
    if |text| >= width then text else Zeros(width - |text|) + text
  }

  function PadEnd(text: string, width: nat): string {
    if |text| >= width then text else text + Zeros(width - |text|)
  }

  function WithoutTrailingZeros(text: string): string {
    if text == "" || text[|text| - 1] != '0' then text else WithoutTrailingZeros(text[..|text| - 1])
  }

  /** The exact decimal, without a zero at the end of its fraction. */
  function Show(value: nat, decimals: nat): string {
    var whole := Digits(Quotient(value, Pow10(decimals)));
    var fraction := Fraction(Remainder(value, Pow10(decimals)), decimals);
    if fraction == "" then whole else whole + "." + fraction
  }

  function Fraction(rem: nat, decimals: nat): string {
    WithoutTrailingZeros(PadStart(Digits(rem), decimals))
  }

  /** Where the first dot is, or the length without one. */
  function DotAt(text: string): (k: nat)
    ensures k <= |text|
  {
    if text == "" || text[0] == '.' then 0 else 1 + DotAt(text[1..])
  }

  /** Digits without a leading zero, or a single zero. */
  predicate Whole(text: string) {
    text != "" && AllDigits(text) && (|text| > 1 ==> text[0] != '0')
  }

  /** Reads a nonnegative decimal with at most `decimals` fractional digits. */
  function Read(text: string, decimals: nat): Option<nat> {
    var k := DotAt(text);
    if !Whole(text[..k]) then None
    else if k == |text| then Some(DigitsValue(text) * Pow10(decimals))
    else
      var fraction := text[k + 1..];
      if fraction == "" || !AllDigits(fraction) || |fraction| > decimals then None
      else
        PaddedDigits(fraction, decimals);
        Some(DigitsValue(text[..k]) * Pow10(decimals) + DigitsValue(PadEnd(fraction, decimals)))
  }

  lemma PaddedDigits(text: string, width: nat)
    requires AllDigits(text)
    ensures AllDigits(PadEnd(text, width)) && AllDigits(PadStart(text, width))
  {
  }

  lemma {:induction false} DigitsFit(n: nat, width: nat)
    requires n < Pow10(width) && width > 0
    ensures |Digits(n)| <= width
    decreases width
  {
    if n >= 10 {
      assert width > 1;
      DigitsFit(n / 10, width - 1);
    }
  }

  lemma {:induction false} LeadingZero(text: string)
    requires AllDigits(text)
    ensures AllDigits(['0'] + text) && DigitsValue(['0'] + text) == DigitsValue(text)
    decreases |text|
  {
    var longer := ['0'] + text;
    if text == "" {
      assert longer[..0] == "";
    } else {
      assert longer[..|longer| - 1] == ['0'] + text[..|text| - 1];
      LeadingZero(text[..|text| - 1]);
    }
  }

  lemma {:induction false} LeadingZeros(text: string, n: nat)
    requires AllDigits(text)
    ensures AllDigits(Zeros(n) + text) && DigitsValue(Zeros(n) + text) == DigitsValue(text)
    decreases n
  {
    if n == 0 {
      assert Zeros(0) + text == text;
    } else {
      assert Zeros(n) + text == ['0'] + (Zeros(n - 1) + text);
      LeadingZeros(text, n - 1);
      LeadingZero(Zeros(n - 1) + text);
    }
  }

  /** Removing the zeros and padding them back changes nothing. */
  lemma {:induction false} StrippedPads(text: string)
    ensures |WithoutTrailingZeros(text)| <= |text|
    ensures PadEnd(WithoutTrailingZeros(text), |text|) == text
    ensures AllDigits(text) ==> AllDigits(WithoutTrailingZeros(text))
    decreases |text|
  {
    if text != "" && text[|text| - 1] == '0' {
      var shorter := text[..|text| - 1];
      StrippedPads(shorter);
      var kept := WithoutTrailingZeros(shorter);
      assert kept + Zeros(|text| - |kept|) == (kept + Zeros(|shorter| - |kept|)) + ['0'];
    }
  }

  lemma {:induction false} DotAfterDigits(digits: string, rest: string)
    requires AllDigits(digits) && (rest == "" || rest[0] == '.')
    ensures DotAt(digits + rest) == |digits|
    decreases |digits|
  {
    if digits == "" {
      assert digits + rest == rest;
    } else {
      assert (digits + rest)[1..] == digits[1..] + rest;
      DotAfterDigits(digits[1..], rest);
    }
  }

  /** What is shown after the dot is the remainder, digit for digit. */
  ghost predicate ShowsFraction(fraction: string, rem: nat, decimals: nat) {
    && AllDigits(fraction) && |fraction| <= decimals
    && (fraction == "" ==> rem == 0)
    && AllDigits(PadEnd(fraction, decimals))
    && (fraction != "" ==> DigitsValue(PadEnd(fraction, decimals)) == rem)
  }

  lemma NoFraction(rem: nat)
    requires rem == 0
    ensures Fraction(rem, 0) == ""
  {
    assert Digits(rem) == "0";
    assert "0"[..0] == "";
  }

  lemma PaddedValue(rem: nat, decimals: nat)
    requires rem < Pow10(decimals) && decimals > 0
    ensures var padded := PadStart(Digits(rem), decimals);
      |padded| == decimals && AllDigits(padded) && DigitsValue(padded) == rem
  {
    hide Pow10, DigitsValue, Digits;
    DigitsParse(rem);
    DigitsFit(rem, decimals);
    var n := decimals - |Digits(rem)|;
    LeadingZeros(Digits(rem), n);
    assert PadStart(Digits(rem), decimals) == Zeros(n) + Digits(rem);
  }

  lemma AllZeros(decimals: nat)
    ensures AllDigits(Zeros(decimals)) && DigitsValue(Zeros(decimals)) == 0
  {
    LeadingZeros("", decimals);
    assert Zeros(decimals) + "" == Zeros(decimals);
  }

  lemma FractionExact(rem: nat, decimals: nat)
    requires rem < Pow10(decimals)
    ensures ShowsFraction(Fraction(rem, decimals), rem, decimals)
  {
    hide Digits, DigitsValue;
    if decimals == 0 {
      NoFraction(rem);
    } else {
      PaddedValue(rem, decimals);
      var padded := PadStart(Digits(rem), decimals);
      hide PadStart, Pow10;
      StrippedPads(padded);
      AllZeros(decimals);
      hide WithoutTrailingZeros;
      assert "" + Zeros(decimals) == Zeros(decimals);
    }
  }

  lemma ReadsWhole(whole: string, decimals: nat)
    requires Whole(whole)
    ensures Read(whole, decimals) == Some(DigitsValue(whole) * Pow10(decimals))
  {
    DotAfterDigits(whole, "");
    assert whole + "" == whole;
  }

  lemma ReadsFraction(whole: string, fraction: string, decimals: nat)
    requires Whole(whole) && fraction != "" && AllDigits(fraction) && |fraction| <= decimals
    requires AllDigits(PadEnd(fraction, decimals))
    ensures Read(whole + "." + fraction, decimals) == Some(DigitsValue(whole) * Pow10(decimals) + DigitsValue(PadEnd(fraction, decimals)))
  {
    hide DigitsValue, PadEnd, Pow10;
    DotAfterDigits(whole, "." + fraction);
    var text := whole + "." + fraction;
    assert text == whole + ("." + fraction);
    assert text[..|whole|] == whole && text[|whole| + 1..] == fraction;
  }

  /** Reading what was shown gives every nanosecond back. */
  lemma ShownIsRead(value: nat, decimals: nat)
    ensures Read(Show(value, decimals), decimals) == Some(value)
  {
    hide Read, Fraction, Pow10, Digits, DigitsValue, Quotient, Remainder, PadEnd;
    var scale := Pow10(decimals);
    var whole := Digits(Quotient(value, scale));
    var fraction := Fraction(Remainder(value, scale), decimals);
    Divided(value, scale);
    DigitsParse(Quotient(value, scale));
    FractionExact(Remainder(value, scale), decimals);
    if fraction == "" {
      ReadsWhole(whole, decimals);
    } else {
      ReadsFraction(whole, fraction, decimals);
    }
  }

  // ---------- What is read ----------

  /** `text` writes `value` in whole and up to `decimals` fractional digits. */
  ghost predicate Denotes(text: string, decimals: nat, value: nat) {
    exists whole, fraction :: Written(text, whole, fraction, decimals, value)
  }

  /** All digits together, scaled by the places that are not written. */
  ghost predicate Written(text: string, whole: string, fraction: string, decimals: nat, value: nat) {
    && Whole(whole) && AllDigits(fraction) && |fraction| <= decimals
    && text == (if fraction == "" then whole else whole + "." + fraction)
    && value == DigitsValue(whole + fraction) * Pow10(decimals - |fraction|)
  }

  lemma {:induction false} PowersMultiply(a: nat, b: nat)
    ensures Pow10(a + b) == Pow10(a) * Pow10(b)
    decreases a
  {
    if a > 0 {
      PowersMultiply(a - 1, b);
      Regroup(10, Pow10(a - 1), Pow10(b));
    }
  }

  lemma Regroup(a: nat, b: nat, c: nat)
    ensures a * (b * c) == (a * b) * c
  {
  }

  lemma {:induction false} DigitsJoin(first: string, second: string)
    requires AllDigits(first) && AllDigits(second)
    ensures AllDigits(first + second) && DigitsValue(first + second) == DigitsValue(first) * Pow10(|second|) + DigitsValue(second)
    decreases |second|
  {
    var all := first + second;
    if second == "" {
      assert all == first;
    } else {
      var shorter := second[..|second| - 1];
      DigitsJoin(first, shorter);
      assert all[..|all| - 1] == first + shorter;
      hide DigitsValue;
      Regroup(DigitsValue(first), 10, Pow10(|shorter|));
      assert Pow10(|second|) == 10 * Pow10(|shorter|);
      JoinLast(first, second, shorter);
    }
  }

  lemma LastDigit(text: string)
    requires AllDigits(text) && text != ""
    ensures DigitsValue(text) == DigitsValue(text[..|text| - 1]) * 10 + (text[|text| - 1] as int - '0' as int)
  {
  }

  lemma JoinLast(first: string, second: string, shorter: string)
    requires AllDigits(first) && AllDigits(second) && second != "" && shorter == second[..|second| - 1] && AllDigits(first + second)
    requires AllDigits(first + shorter) && DigitsValue(first + shorter) == DigitsValue(first) * Pow10(|shorter|) + DigitsValue(shorter)
    ensures DigitsValue(first + second) == DigitsValue(first) * (10 * Pow10(|shorter|)) + DigitsValue(second)
  {
    hide Pow10, DigitsValue;
    var all := first + second;
    assert all[..|all| - 1] == first + shorter && all[|all| - 1] == second[|second| - 1];
    LastDigit(second);
    LastDigit(all);
    Shifted(DigitsValue(first), Pow10(|shorter|), DigitsValue(shorter), DigitsValue(first + shorter));
  }

  lemma Shifted(a: nat, p: nat, b: nat, joined: nat)
    requires joined == a * p + b
    ensures joined * 10 == a * (10 * p) + b * 10
  {
  }

  /** The padded digits are all digits scaled by the missing places. */
  lemma PaddedIsScaled(whole: string, fraction: string, decimals: nat)
    requires AllDigits(whole) && AllDigits(fraction) && |fraction| <= decimals
    ensures AllDigits(PadEnd(fraction, decimals)) && AllDigits(whole + fraction)
    ensures DigitsValue(whole) * Pow10(decimals) + DigitsValue(PadEnd(fraction, decimals))
            == DigitsValue(whole + fraction) * Pow10(decimals - |fraction|)
  {
    hide DigitsValue, Pow10;
    var n := decimals - |fraction|;
    AllZeros(n);
    DigitsJoin(fraction, Zeros(n));
    DigitsJoin(whole, fraction);
    PowersMultiply(|fraction|, n);
    assert PadEnd(fraction, decimals) == fraction + Zeros(n);
    Regroup(DigitsValue(whole), Pow10(|fraction|), Pow10(n));
    assert DigitsValue(whole + fraction) * Pow10(n) == DigitsValue(whole) * Pow10(|fraction|) * Pow10(n) + DigitsValue(fraction) * Pow10(n);
  }

  lemma WrittenIsRead(text: string, whole: string, fraction: string, decimals: nat, value: nat)
    requires Written(text, whole, fraction, decimals, value)
    ensures Read(text, decimals) == Some(value)
  {
    hide Read, DigitsValue, Pow10;
    if fraction == "" {
      assert whole + fraction == whole;
      ReadsWhole(whole, decimals);
    } else {
      PaddedIsScaled(whole, fraction, decimals);
      ReadsFraction(whole, fraction, decimals);
    }
  }

  lemma {:induction false} DotThere(text: string)
    ensures DotAt(text) < |text| ==> text[DotAt(text)] == '.'
    decreases |text|
  {
    if text != "" && text[0] != '.' {
      DotThere(text[1..]);
    }
  }

  /** A text is read as a value exactly if it writes that value with at most the given decimals. */
  lemma ReadExact(text: string, decimals: nat, value: nat)
    ensures Read(text, decimals) == Some(value) <==> Denotes(text, decimals, value)
  {
    if Denotes(text, decimals, value) {
      var whole, fraction :| Written(text, whole, fraction, decimals, value);
      WrittenIsRead(text, whole, fraction, decimals, value);
    }
    if Read(text, decimals) == Some(value) {
      ReadIsWritten(text, decimals, value);
    }
  }

  lemma ReadIsWritten(text: string, decimals: nat, value: nat)
    requires Read(text, decimals) == Some(value)
    ensures Denotes(text, decimals, value)
  {
    hide Pow10, DigitsValue, PadEnd, Whole, DotAt;
    DotThere(text);
    var k := DotAt(text);
    var whole := text[..k];
    if k == |text| {
      assert whole == text && text + "" == text;
      assert Written(text, text, "", decimals, value);
    } else {
      var fraction := text[k + 1..];
      WholeDigits(whole);
      PaddedIsScaled(whole, fraction, decimals);
      assert text == whole + "." + fraction;
      assert Written(text, whole, fraction, decimals, value);
    }
  }

  lemma WholeDigits(text: string)
    requires Whole(text)
    ensures AllDigits(text)
  {
  }

  lemma {:induction false} NoZeroLast(text: string)
    ensures var kept := WithoutTrailingZeros(text); kept != "" ==> kept[|kept| - 1] != '0'
    decreases |text|
  {
    if text != "" && text[|text| - 1] == '0' {
      NoZeroLast(text[..|text| - 1]);
    }
  }

  /** What is shown has no dot without digits behind it and no zero at the end of its fraction. */
  lemma ShownIsShort(value: nat, decimals: nat)
    ensures var text := Show(value, decimals);
      text != "" && (DotAt(text) < |text| ==> text[|text| - 1] != '0' && text[|text| - 1] != '.')
  {
    hide Pow10, Digits, Quotient, Remainder, WithoutTrailingZeros;
    var whole := Digits(Quotient(value, Pow10(decimals)));
    var rem := Remainder(value, Pow10(decimals));
    DigitsParse(Quotient(value, Pow10(decimals)));
    DotAfterDigits(whole, "");
    assert whole + "" == whole;
    NoZeroLast(PadStart(Digits(rem), decimals));
    DigitsParse(rem);
    PaddedDigits(Digits(rem), decimals);
    StrippedPads(PadStart(Digits(rem), decimals));
  }
}
