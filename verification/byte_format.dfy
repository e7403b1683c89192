/**
  format_bytes: a byte count as a number with two decimals and a unit from
  B, KB, MB, GB, TB. The source computes the unit index as
  floor(log_1024(size)) and the number as 1024 ** (log - floor(log)); here the
  index is the exact integer floor of the logarithm and the number the exact
  quotient size / 1024^index.
*/
module ByteFormat {
  import opened Decimal

  const Suffixes: seq<string> := ["B", "KB", "MB", "GB", "TB"]

  function Pow1024(k: nat): (p: nat)
    ensures p >= 1
  {
    if k == 0 then 1 else 1024 * Pow1024(k - 1)
  }

  lemma {:induction false} Pow1024Monotone(i: nat, j: nat)
    requires i <= j
    ensures Pow1024(i) <= Pow1024(j)
    decreases j - i
  {
    if i < j {
      Pow1024Monotone(i, j - 1);
    }
  }

  /** floor(log_1024(size)): the unit index, the largest k with 1024^k <= size. */
  function Magnitude(size: int): (k: nat)
    requires size > 0
    ensures Pow1024(k) <= size < Pow1024(k + 1)
    decreases size
  {
    if size < 1024 then 0 else 1 + Magnitude(size / 1024)
  }

  /** The bounds 1024^k <= size < 1024^(k+1) single out the unit index. */
  lemma MagnitudeUnique(size: int, k: nat)
    requires size > 0
    requires Pow1024(k) <= size < Pow1024(k + 1)
    ensures Magnitude(size) == k
  {
    var m := Magnitude(size);
    if m < k {
      Pow1024Monotone(m + 1, k);
    } else if k < m {
      Pow1024Monotone(k + 1, m);
    }
  }

  /** 1024 ** (log - floor(log)), that is size / 1024^k, before rounding: in [1, 1024). */
  function Mantissa(size: int): (m: real)
    requires size > 0
    ensures 1.0 <= m < 1024.0
  {
    var p := Pow1024(Magnitude(size)) as real;
    QuotientRange(size as real, p);
    size as real / p
  }

  lemma QuotientRange(s: real, p: real)
    requires 0.0 < p <= s < 1024.0 * p
    ensures 1.0 <= s / p < 1024.0
  {
    var q := s / p;
    assert q * p == s;
    if q < 1.0 {
      assert false;
    }
    if q >= 1024.0 {
      assert false;
    }
  }

  /** round($x, 2) for x >= 0, as a count of hundredths: halves round up. */
  function RoundHundredths(x: real): (h: nat)
    requires x >= 0.0
    ensures x * 100.0 - 0.5 < h as real <= x * 100.0 + 0.5
  {
    (x * 100.0 + 0.5).Floor
  }

  /** $suffixes[k]: a key past the end reads as null, which prints as nothing. */
  function SuffixAt(k: nat): string
  {
    if k < |Suffixes| then Suffixes[k] else ""
  }

  /** format_bytes($size) with the default precision of 2. */
  function FormatBytes(size: int): (s: string)
    ensures size <= 0 ==> s == "0 B"
  {
    if size <= 0 then "0 B"
    else DecimalText(RoundHundredths(Mantissa(size))) + " " + SuffixAt(Magnitude(size))
  }

  /**
    For 0 < size < 1024^5 the unit is the k with 1024^k <= size < 1024^(k+1),
    and the number is size / 1024^k rounded to hundredths.
  */
  lemma FormatBytesUnit(size: int, k: nat)
    requires 0 < size < Pow1024(5)
    requires Pow1024(k) <= size < Pow1024(k + 1)
    ensures k < |Suffixes|
    ensures FormatBytes(size)
         == DecimalText(RoundHundredths(size as real / Pow1024(k) as real)) + " " + Suffixes[k]
  {
    MagnitudeUnique(size, k);
    if k >= 5 {
      Pow1024Monotone(5, k);
    }
  }

  /**
    For 0 < size < 1024^5 the text is a number, a space and the unit of
    index k = Magnitude(size); the number reads back as a value in [1, 1024]
    no further than 0.005 from size / 1024^k (the value 1024 itself can
    appear: see FormatBytesJustUnderMebibyte).
  */
  lemma FormatBytesReadsBack(size: int) returns (number: string, h: nat)
    requires 0 < size < Pow1024(5)
    ensures Magnitude(size) < |Suffixes|
    ensures FormatBytes(size) == number + " " + Suffixes[Magnitude(size)]
    ensures ParseHundredths(number) == Some(h)
    ensures 100 <= h <= 102400
    ensures -0.005 <= h as real / 100.0 - Mantissa(size) <= 0.005
  {
    FormatBytesUnit(size, Magnitude(size));
    h := RoundHundredths(Mantissa(size));
    number := DecimalText(h);
    DecimalTextRoundTrip(h);
  }

  /**
    The last five byte counts below 1 MiB print as "1024 KB": rounding can
    reach the next unit's threshold without switching unit.
  */
  lemma FormatBytesJustUnderMebibyte(size: int)
    requires 1048571 <= size < 1048576
    ensures FormatBytes(size) == "1024 KB"
  {
    NumberJustUnderMebibyte(size);
    MagnitudeUnique(size, 1);
    assert SuffixAt(1) == "KB";
  }

  /** The number for those sizes: 1023.995.. to 1023.999.. rounds up to 1024. */
  lemma NumberJustUnderMebibyte(size: int)
    requires 1048571 <= size < 1048576
    ensures DecimalText(RoundHundredths(Mantissa(size))) == "1024"
  {
    MantissaBelowMebibyte(size);
    RoundJustUnderMebibyte(size);
    DecimalText102400();
  }

  /** Between 1 KiB and 1 MiB the unit is KB and the number is size / 1024. */
  lemma MantissaBelowMebibyte(size: int)
    requires 1024 <= size < 1048576
    ensures Mantissa(size) == size as real / 1024.0
  {
    MagnitudeUnique(size, 1);
  }

  /** 102400 hundredths print without decimals. */
  lemma DecimalText102400()
    ensures DecimalText(102400) == "1024"
  {
    NatText1024();
  }

  /** round(size / 1024, 2) is 1024 for those sizes. */
  lemma RoundJustUnderMebibyte(size: int)
    requires 1048571 <= size < 1048576
    ensures RoundHundredths(size as real / 1024.0) == 102400
  {
    var x := size as real / 1024.0;
    assert 102399.5 < x * 100.0 < 102400.0;
  }

  lemma NatText1024()
    ensures NatText(1024) == "1024"
  {
    assert NatText(1) == "1";
    assert NatText(10) == "10";
    assert NatText(102) == "102";
  }

  /** 1024^5 bytes reads $suffixes[5], which does not exist: the text has no unit. */
  lemma FormatBytesPastTerabytes()
    ensures FormatBytes(Pow1024(5)) == "1 "
  {
    MagnitudeUnique(Pow1024(5), 5);
    assert Mantissa(Pow1024(5)) == 1.0;
    assert RoundHundredths(1.0) == 100;
  }
}
