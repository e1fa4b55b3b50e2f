/**
 The report text built by hand in a fixed buffer (smart_helmet.c: shAppend, shAppendU,
 shAppendX100, SmartHelmet_ReportStart).
 */
module ReportText {
  import opened CArithmetic

  const LINE_MAX: nat := 192

  // ---- Numbers as text -----------------------------------------------------------

  function Digit(d: nat): char
    requires d < 10
  {
    '0' + d as char
  }

  function DigitValue(c: char): int { c as int - '0' as int }

  predicate IsDigit(c: char) { '0' <= c <= '9' }

  /** Decimal digits, most significant first. */
  function Decimal(v: nat): (s: string)
    ensures s != "" && forall i :: 0 <= i < |s| ==> IsDigit(s[i])
  {
    if v < 10 then [Digit(v)] else Decimal(v / 10) + [Digit(v % 10)]
  }

  function ParseDecimal(s: string): int {
    if s == "" then 0 else ParseDecimal(s[..|s| - 1]) * 10 + DigitValue(s[|s| - 1])
  }

  lemma {:induction false} DecimalRoundTrip(v: nat)
    ensures ParseDecimal(Decimal(v)) == v
  {
    var s := Decimal(v);
    if v >= 10 {
      DecimalRoundTrip(v / 10);
      assert s[..|s| - 1] == Decimal(v / 10);
    } else {
      assert s[..0] == "";
    }
  }

  /** The fraction of a value in hundredths: a point and always two digits. */
  function Fraction(mag: nat): (s: string)
    ensures |s| == 3
  {
    "." + Decimal((mag / 10) % 10) + Decimal(mag % 10)
  }

  /** A signed value in hundredths: -5 reads "-0.05". */
  function Hundredths(v: int): string {
    (if v < 0 then "-" else "") + Decimal(Abs(v) / 100) + Fraction(Abs(v))
  }

  /** Reading it back: the sign, the digits before the point, the two digits after it. */
  function ParseHundredths(s: string): int
    requires |s| >= 4
  {
    var neg := s[0] == '-';
    var whole := s[if neg then 1 else 0..|s| - 3];
    var mag := ParseDecimal(whole) * 100 + DigitValue(s[|s| - 2]) * 10 + DigitValue(s[|s| - 1]);
    if neg then -mag else mag
  }

  lemma FractionDigits(mag: nat)
    ensures DigitValue(Fraction(mag)[1]) == (mag / 10) % 10 && DigitValue(Fraction(mag)[2]) == mag % 10
    ensures mag == (mag / 100) * 100 + ((mag / 10) % 10) * 10 + mag % 10
  {
    assert Decimal((mag / 10) % 10) == [Digit((mag / 10) % 10)];
    assert Decimal(mag % 10) == [Digit(mag % 10)];
  }

  /** Every value survives the text, -32768 and -99..-1 included. */
  lemma HundredthsRoundTrip(v: int)
    ensures |Hundredths(v)| >= 4 && ParseHundredths(Hundredths(v)) == v
  {
    var mag := Abs(v);
    FractionDigits(mag);
    DecimalRoundTrip(mag / 100);
    hide Decimal, Fraction, ParseDecimal, DigitValue;
    var sign := if v < 0 then "-" else "";
    var whole, s := Decimal(mag / 100), Hundredths(v);
    assert s[|sign|..|s| - 3] == whole;
    assert s[|s| - 2] == Fraction(mag)[1] && s[|s| - 1] == Fraction(mag)[2];
    assert v >= 0 ==> s[0] == whole[0] && IsDigit(s[0]);
  }

  lemma {:induction false} DecimalLength(v: nat, digits: nat)
    requires digits >= 1 && v < Pow10(digits)
    ensures |Decimal(v)| <= digits
  {
    if v >= 10 {
      DecimalLength(v / 10, digits - 1);
    }
  }

  function Pow10(n: nat): nat { if n == 0 then 1 else 10 * Pow10(n - 1) }

  // ---- The buffer -------------------------------------------------------------------

  /** The part of `s` that still fits: one place is kept for the terminator. */
  function Fitting(s: string, n: nat, max: nat): string
    requires n < max
  {
    if |s| <= max - 1 - n then s else s[..max - 1 - n]
  }

  /** shAppend */
  method Append(dst: array<char>, n: nat, max: nat, s: string) returns (m: nat)
    requires n < max <= dst.Length
    modifies dst
    ensures n <= m < max && dst[..m] == old(dst[..n]) + Fitting(s, n, max) && dst[m] == '\0'
  {
    m := n;
    var i := 0;
    while i < |s| && m + 1 < max
      invariant 0 <= i <= |s| && m == n + i < max
      invariant dst[..m] == old(dst[..n]) + s[..i]
    {
      dst[m] := s[i];
      m, i := m + 1, i + 1;
    }
    ghost var text := dst[..m];
    dst[m] := '\0';
    assert dst[..m] == text;
    assert s[..i] == Fitting(s, n, max);
  }

  /** One digit off the end of a number. */
  lemma DecimalStep(v: nat)
    requires v > 0
    ensures var d := Decimal(v);
            d[|d| - 1] == Digit(v % 10) && (v >= 10 ==> d[..|d| - 1] == Decimal(v / 10)) && (v < 10 ==> |d| == 1)
  {
  }

  /** The digits of a uint16 come out least significant first. */
  method CollectDigits(tmp: array<char>, value: nat) returns (i: nat)
    requires tmp.Length == 6 && 0 < value <= 0xffff
    modifies tmp
    ensures i == |Decimal(value)| <= 5
    ensures forall k :: 0 <= k < i ==> tmp[k] == Decimal(value)[i - 1 - k]
  {
    DecimalLength(value, 5);
    ghost var all := Decimal(value);
    hide Decimal;
    i := 0;
    var v := value;
    while v != 0 && i < 6
      invariant 0 <= i <= |all| <= 5 && (v == 0 ==> i == |all|)
      invariant v != 0 ==> |Decimal(v)| + i == |all| && all[..|Decimal(v)|] == Decimal(v)
      invariant forall k :: 0 <= k < i ==> tmp[k] == all[|all| - 1 - k]
    {
      DecimalStep(v);
      ghost var d := Decimal(v);
      assert all[..|d|][|d| - 1] == all[|d| - 1];
      assert all[..|d|][..|d| - 1] == all[..|d| - 1];
      tmp[i] := Digit(v % 10);
      v, i := v / 10, i + 1;
    }
  }

  /** shAppendU: the digits are copied back in reverse. */
  method AppendU(dst: array<char>, n: nat, max: nat, value: nat) returns (m: nat)
    requires n < max <= dst.Length && value <= 0xffff
    modifies dst
    ensures n <= m < max && dst[..m] == old(dst[..n]) + Fitting(Decimal(value), n, max) && dst[m] == '\0'
  {
    if value == 0 {
      m := Append(dst, n, max, "0");
      return;
    }
    var tmp := new char[6];
    var i := CollectDigits(tmp, value);
    ghost var all := Decimal(value);
    ghost var len := |all|;
    hide Decimal;
    m := n;
    assert all[..0] == "" && dst[..n] == old(dst[..n]);
    while i != 0 && m + 1 < max
      invariant 0 <= i <= len && m == n + (len - i) < max
      invariant forall k :: 0 <= k < len ==> tmp[k] == all[len - 1 - k]
      invariant dst[..m] == old(dst[..n]) + all[..len - i]
    {
      i := i - 1;
      dst[m] := tmp[i];
      m := m + 1;
    }
    ghost var text := dst[..m];
    dst[m] := '\0';
    assert dst[..m] == text;
    assert all[..len - i] == Fitting(all, n, max);
  }

  /** Appending piece after piece is appending the whole, truncated once. */
  lemma FittingTwice(s: string, t: string, n: nat, max: nat)
    requires n < max
    ensures var a := Fitting(s, n, max);
            n + |a| < max && a + Fitting(t, n + |a|, max) == Fitting(s + t, n, max)
  {
    var a := Fitting(s, n, max);
    if |s| <= max - 1 - n {
      if |s + t| > max - 1 - n {
        assert (s + t)[..max - 1 - n] == s + t[..max - 1 - n - |s|];
      }
    } else {
      assert Fitting(t, n + |a|, max) == "";
      assert (s + t)[..max - 1 - n] == s[..max - 1 - n];
    }
  }

  lemma Extend(before: string, s: string, t: string, n: nat, max: nat)
    requires n < max && |before| == n
    ensures var m := n + |Fitting(s, n, max)|;
            m < max && (before + Fitting(s, n, max)) + Fitting(t, m, max) == before + Fitting(s + t, n, max)
  {
    FittingTwice(s, t, n, max);
    assert (before + Fitting(s, n, max)) + Fitting(t, n + |Fitting(s, n, max)|, max)
           == before + (Fitting(s, n, max) + Fitting(t, n + |Fitting(s, n, max)|, max));
  }

  /** The point and two digits of shAppendX100. */
  method AppendFraction(dst: array<char>, n: nat, max: nat, mag: nat) returns (m: nat)
    requires n < max <= dst.Length
    modifies dst
    ensures n <= m < max && dst[..m] == old(dst[..n]) + Fitting(Fraction(mag), n, max) && dst[m] == '\0'
  {
    hide Fitting, Decimal;
    ghost var before := dst[..n];
    m := Append(dst, n, max, ".");
    m := AppendU(dst, m, max, (mag / 10) % 10);
    Extend(before, ".", Decimal((mag / 10) % 10), n, max);
    m := AppendU(dst, m, max, mag % 10);
    Extend(before, "." + Decimal((mag / 10) % 10), Decimal(mag % 10), n, max);
  }

  /** shAppendX100; the magnitude of an int16 fits a uint16 even for -32768. */
  method AppendX100(dst: array<char>, n: nat, max: nat, v: int) returns (m: nat)
    requires n < max <= dst.Length && IsI16(v)
    modifies dst
    ensures n <= m < max && dst[..m] == old(dst[..n]) + Fitting(Hundredths(v), n, max) && dst[m] == '\0'
  {
    hide Decimal, Fraction;
    ghost var before := dst[..n];
    var mag: nat := if v < 0 then -v else v;
    ghost var sign := if v < 0 then "-" else "";
    m := n;
    if v < 0 {
      m := Append(dst, n, max, "-");
    }
    assert dst[..m] == before + Fitting(sign, n, max);
    hide Fitting;
    m := AppendU(dst, m, max, mag / 100);
    Extend(before, sign, Decimal(mag / 100), n, max);
    m := AppendFraction(dst, m, max, mag);
    Extend(before, sign + Decimal(mag / 100), Fraction(mag), n, max);
  }
}
