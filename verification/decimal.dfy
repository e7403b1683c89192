/**
  Decimal text of the numbers the report prints: counts (PHP integers) and
  values rounded to two decimals (PHP floats printed with trailing zeros and
  a trailing point dropped, as "1", "1.5" or "1.25").
*/
module Decimal {

  datatype Option<+T> = None | Some(value: T)

  function DigitChar(d: nat): (c: char)
    requires d < 10
  {
    ('0' as int + d) as char
  }

  predicate IsDigit(c: char) {
    '0' <= c <= '9'
  }

  function DigitValue(c: char): (d: nat)
    requires IsDigit(c)
    ensures d < 10
  {
    c as int - '0' as int
  }

  /** Every character of s is a digit (checked from the end, as the parser reads). */
  predicate IsDigits(s: string) {
    s == [] || (IsDigits(s[..|s| - 1]) && IsDigit(s[|s| - 1]))
  }

  lemma {:induction false} DigitAt(s: string, i: nat)
    requires IsDigits(s) && i < |s|
    ensures IsDigit(s[i])
    decreases |s|
  {
    if i < |s| - 1 {
      assert s[..|s| - 1][i] == s[i];
      DigitAt(s[..|s| - 1], i);
    }
  }

  /** The text PHP gives a non-negative integer: its digits, no sign and no leading zero. */
  function NatText(n: nat): (s: string)
    ensures |s| >= 1 && IsDigits(s)
    ensures (s[0] == '0') == (n == 0)
    decreases n
  {
    if n < 10 then [DigitChar(n)] else NatText(n / 10) + [DigitChar(n % 10)]
  }

  /** Reads a string of digits back as the number it denotes. */
  function ParseNat(s: string): (n: nat)
    requires IsDigits(s)
  {
    if s == [] then 0 else 10 * ParseNat(s[..|s| - 1]) + DigitValue(s[|s| - 1])
  }

  lemma {:induction false} NatTextRoundTrip(n: nat)
    ensures ParseNat(NatText(n)) == n
  {
    if n >= 10 {
      var s := NatText(n);
      assert s[..|s| - 1] == NatText(n / 10);
      NatTextRoundTrip(n / 10);
    }
  }

  /**
    The text of the value h / 100 (a count of hundredths) as PHP prints a
    float rounded to two decimals: "12" for 1200, "12.5" for 1250 and
    "12.34" for 1234.
  */
  function DecimalText(h: nat): (s: string)
  {
    var whole := NatText(h / 100);
    var cents := h % 100;
    if cents == 0 then whole
    else if cents % 10 == 0 then whole + ['.', DigitChar(cents / 10)]
    else whole + ['.', DigitChar(cents / 10), DigitChar(cents % 10)]
  }

  /** Reads "W", "W.d" or "W.dd" back as a count of hundredths. */
  function ParseHundredths(s: string): (h: Option<nat>)
  {
    if |s| >= 3 && s[|s| - 3] == '.' then
      var whole, d1, d2 := s[..|s| - 3], s[|s| - 2], s[|s| - 1];
      if IsDigits(whole) && IsDigit(d1) && IsDigit(d2)
      then Some(100 * ParseNat(whole) + 10 * DigitValue(d1) + DigitValue(d2))
      else None
    else if |s| >= 2 && s[|s| - 2] == '.' then
      var whole, d := s[..|s| - 2], s[|s| - 1];
      if IsDigits(whole) && IsDigit(d) then Some(100 * ParseNat(whole) + 10 * DigitValue(d)) else None
    else if IsDigits(s) then
      Some(100 * ParseNat(s))
    else
      None
  }

  /** A plain string of digits reads as that many whole units. */
  lemma ParseWhole(w: string)
    requires |w| >= 1 && IsDigits(w)
    ensures ParseHundredths(w) == Some(100 * ParseNat(w))
  {
    if |w| >= 2 {
      DigitAt(w, |w| - 2);
    }
    if |w| >= 3 {
      DigitAt(w, |w| - 3);
    }
  }

  /** Digits, a point and one digit: whole units and tenths. */
  lemma ParseOneDecimal(w: string, d: char)
    requires |w| >= 1 && IsDigits(w) && IsDigit(d)
    ensures ParseHundredths(w + ['.', d]) == Some(100 * ParseNat(w) + 10 * DigitValue(d))
  {
    var s := w + ['.', d];
    assert s[..|s| - 2] == w;
    assert s[|s| - 3] == w[|w| - 1];
  }

  /** Digits, a point and two digits: whole units, tenths and hundredths. */
  lemma ParseTwoDecimals(w: string, d1: char, d2: char)
    requires |w| >= 1 && IsDigits(w) && IsDigit(d1) && IsDigit(d2)
    ensures ParseHundredths(w + ['.', d1, d2])
         == Some(100 * ParseNat(w) + 10 * DigitValue(d1) + DigitValue(d2))
  {
    var s := w + ['.', d1, d2];
    assert s[..|s| - 3] == w;
  }

  /** The printed value denotes exactly the hundredths it was made from. */
  lemma DecimalTextRoundTrip(h: nat)
    ensures ParseHundredths(DecimalText(h)) == Some(h)
  {
    var whole := NatText(h / 100);
    var cents := h % 100;
    NatTextRoundTrip(h / 100);
    if cents == 0 {
      ParseWhole(whole);
    } else if cents % 10 == 0 {
      ParseOneDecimal(whole, DigitChar(cents / 10));
    } else {
      ParseTwoDecimals(whole, DigitChar(cents / 10), DigitChar(cents % 10));
    }
  }
}
