/**
 Square root, saturating energy and mean magnitude of the sample windows
 (smart_helmet_vitals.c: shSqrtU32, shAccSat, shEnergyI16, shMeanAbsI16), and the accelerometer
 magnitude they are applied to (smart_helmet_sensors.c: shLis3dhRawToMg).
 */
module SignalLevels {
  import opened CArithmetic

  // ---- shSqrtU32 --------------------------------------------------------------

  /** P is a power of two up to 2^16. */
  predicate IsPower(p: int) {
    p == 1 || p == 2 || p == 4 || p == 8 || p == 16 || p == 32 || p == 64 || p == 128 || p == 256
    || p == 512 || p == 1024 || p == 2048 || p == 4096 || p == 8192 || p == 16384 || p == 32768 || p == 65536
  }

  /** The trial bit `one` is (p/2)^2, or 0 once all bits are decided. */
  predicate TrialBit(one: int, p: int) {
    IsPower(p) && one == (p / 2) * (p / 2)
  }

  lemma NextTrial(one: int, p: int)
    requires TrialBit(one, p) && p > 1
    ensures one > 0 && 4 * one == p * p && TrialBit(one / 4, p / 2) && p % 2 == 0
  {
  }

  /** Taking the trial bit: (r + p/2)^2 = r^2 + r*p + one. */
  lemma TakeBit(r: int, p: int)
    requires p % 2 == 0
    ensures (r + p / 2) * (r + p / 2) == r * r + r * p + (p / 2) * (p / 2)
    ensures (r + p) * (r + p) == (r + p / 2 + p / 2) * (r + p / 2 + p / 2)
    ensures (r * p) / 2 == r * (p / 2)
  {
    var h := p / 2;
    SquareOfSum(r, h);
    assert r * p == 2 * (r * h);
  }

  /** floor(sqrt(v)) for every uint32, without overflow on the way. */
  method Sqrt(v: int) returns (root: int)
    requires IsU32(v)
    ensures 0 <= root <= 0xffff && root * root <= v < (root + 1) * (root + 1)
  {
    var op, res, one := v, 0, 0x4000_0000;
    ghost var p := 65536;
    while one > op
      invariant TrialBit(one, p) && v < p * p && 0 <= one
      decreases one
    {
      if p == 1 {
        assert false;
      }
      NextTrial(one, p);
      one := one / 4;
      p := p / 2;
    }
    ghost var r := 0;
    while one != 0
      invariant TrialBit(one, p) && 0 <= r && r + p <= 65536
      invariant op == v - r * r && res == r * p
      invariant r * r <= v < (r + p) * (r + p)
      decreases p
    {
      NextTrial(one, p);
      TakeBit(r, p);
      TrialFits(r, p, one);
      assert IsU32(res + one);
      if op >= res + one {
        op := op - (res + one);
        res := res / 2 + one;
        r := r + p / 2;
        assert (r - p / 2) * (p / 2) + (p / 2) * (p / 2) == r * (p / 2);
      } else {
        res := res / 2;
      }
      one := one / 4;
      p := p / 2;
    }
    assert p == 1;
    root := res;
    SquareRootFits(root, v);
  }

  lemma TrialFits(r: int, p: int, one: int)
    requires 0 <= r && 0 <= p && r + p <= 65536 && 4 * one == p * p && p <= 65536
    ensures 0 <= r * p + one <= 0xffff_ffff
  {
    MulOrder(r, 65536 - p, p, p);
    assert r * p + p * p <= 65536 * p;
    MulOrder(p, 65536, 65536, 65536);
    SquareNonneg(p);
    MulOrder(0, r, 0, p);
    if p == 65536 {
      assert r == 0;
    }
  }

  lemma SquareRootFits(root: int, v: int)
    requires 0 <= root && root * root <= v <= 0xffff_ffff
    ensures root <= 0xffff
  {
    if root > 0xffff {
      SquareMonotone(0x1_0000, root);
      assert false;
    }
  }

  // ---- Energy ------------------------------------------------------------------

  function SumSquares(s: seq<int>): (n: int)
    ensures n >= 0
  {
    if s == [] then 0 else
      SquareNonneg(s[|s| - 1]);
      SumSquares(s[..|s| - 1]) + s[|s| - 1] * s[|s| - 1]
  }

  /** shAccSat: a wrapped sum is recognised because it came out smaller. */
  method AccSat(sum: int, term: int) returns (s: int)
    requires IsU32(sum) && IsU32(term)
    ensures s == Min(sum + term, 0xffff_ffff)
  {
    s := (sum + term) % 0x1_0000_0000;
    if s < sum {
      s := 0xffff_ffff;
    }
  }

  /** shEnergyI16 is the saturated mean square exactly, although the accumulator may saturate. */
  method Energy(buf: seq<int>) returns (e: int)
    requires |buf| <= 255 && forall i :: 0 <= i < |buf| ==> IsI16(buf[i])
    ensures e == if buf == [] then 0 else Min(0xffff, SumSquares(buf) / |buf|)
  {
    var n := |buf|;
    if n == 0 {
      return 0;
    }
    var sum := 0;
    for i := 0 to n
      invariant sum == Min(SumSquares(buf[..i]), 0xffff_ffff)
    {
      var v := buf[i];
      SquareMonotone(v, 32768);
      SquareNonneg(v);
      assert buf[..i + 1][..i] == buf[..i];
      sum := AccSat(sum, v * v);
    }
    assert buf[..n] == buf;
    var mean := sum / n;
    SaturatedMean(SumSquares(buf), n);
    return if mean > 0xffff then 0xffff else mean;
  }

  lemma SaturatedMean(total: int, n: int)
    requires 0 < n <= 255 && total >= 0
    ensures Min(0xffff, Min(total, 0xffff_ffff) / n) == Min(0xffff, total / n)
  {
    if total > 0xffff_ffff {
      DivAtLeast(0xffff_ffff, n, 0xffff);
      DivAtLeast(total, n, 0xffff);
    }
  }

  // ---- Mean magnitude ------------------------------------------------------------

  function SumAbs(s: seq<int>): nat {
    if s == [] then 0 else SumAbs(s[..|s| - 1]) + Abs(s[|s| - 1])
  }

  method MeanAbs(buf: seq<int>) returns (m: int)
    requires |buf| <= 255 && forall i :: 0 <= i < |buf| ==> IsI16(buf[i])
    ensures m == if buf == [] then 0 else SumAbs(buf) / |buf|
  {
    var n := |buf|;
    if n == 0 {
      return 0;
    }
    var sum := 0;
    for i := 0 to n
      invariant sum == SumAbs(buf[..i])
    {
      var v := buf[i];
      if v < 0 {
        v := -v;
      }
      assert buf[..i + 1][..i] == buf[..i];
      sum := sum + v;
    }
    assert buf[..n] == buf;
    return sum / n;
  }

  lemma {:induction false} SumAbsDominates(s: seq<int>, i: nat)
    requires i < |s|
    ensures Abs(s[i]) <= SumAbs(s)
  {
    if i < |s| - 1 {
      SumAbsDominates(s[..|s| - 1], i);
    }
  }

  /** A window of at most 100 samples whose mean magnitude is at most 45 has no sample beyond 4599. */
  lemma MeanAbsBoundsSamples(s: seq<int>, i: nat)
    requires i < |s| <= 100 && SumAbs(s) / |s| <= 45
    ensures Abs(s[i]) <= 4599
  {
    var n := |s|;
    SumAbsDominates(s, i);
    assert SumAbs(s) < 46 * n by {
      if SumAbs(s) >= 46 * n {
        DivAtLeast(SumAbs(s), n, 46);
        assert false;
      }
    }
  }

  // ---- The accelerometer magnitude --------------------------------------------------

  /** mg per digit of the supported full scales 2, 4, 8 and 16 g. */
  predicate IsScale(mgPerDigit: int) {
    mgPerDigit == 4 || mgPerDigit == 8 || mgPerDigit == 16 || mgPerDigit == 48
  }

  /** A left-justified 10-bit sample in mg. */
  function RawToMg(raw: int, mgPerDigit: int): int { TruncDiv(raw, 64) * mgPerDigit }

  /** The squared magnitude of any three raw samples fits an int32 on every supported scale. */
  lemma MagnitudeFits(x: int, y: int, z: int, mgPerDigit: int)
    requires IsI16(x) && IsI16(y) && IsI16(z) && IsScale(mgPerDigit)
    ensures var a, b, c := RawToMg(x, mgPerDigit), RawToMg(y, mgPerDigit), RawToMg(z, mgPerDigit);
            IsI16(a) && IsI16(b) && IsI16(c) && IsI32(a * a + b * b + c * c) && a * a + b * b + c * c >= 0
  {
    AxisFits(x, mgPerDigit);
    AxisFits(y, mgPerDigit);
    AxisFits(z, mgPerDigit);
    hide RawToMg;
  }

  lemma AxisFits(x: int, mgPerDigit: int)
    requires IsI16(x) && IsScale(mgPerDigit)
    ensures var a := RawToMg(x, mgPerDigit); IsI16(a) && 0 <= a * a <= 603979776
  {
    var a := RawToMg(x, mgPerDigit);
    assert -24576 <= a <= 24576;
    SquareMonotone(a, 24576);
    SquareNonneg(a);
  }
}
