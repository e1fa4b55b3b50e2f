/**
 The dominant bin of the spectrum and the rate it stands for (smart_helmet_vitals.c: shFftBpm,
 shParabolicDeltaQ8, shFitScale3, shBinQ8ToBpm).
 */
module FftBin {
  import opened CArithmetic
  import opened BitReversal
  import opened Butterfly
  import FftFrame

  const LOW_BIN: nat := 2
  const HIGH_BIN: nat := 7

  // ---- The strongest bin of the band --------------------------------------------------

  function Power(f: Frame, k: nat): (p: int)
    requires k < POINTS
    ensures p >= 0
  {
    BinPower(f[k])
  }

  function BandPower(f: Frame, k: nat): int
    requires LOW_BIN <= k <= HIGH_BIN + 1
  {
    if k == LOW_BIN then 0 else BandPower(f, k - 1) + Power(f, k - 1)
  }

  /** The first bin of the band with the largest power, if any power is there. */
  ghost predicate FirstBest(f: Frame, k: nat) {
    && LOW_BIN <= k <= HIGH_BIN
    && Power(f, k) > 0
    && (forall j :: LOW_BIN <= j <= HIGH_BIN ==> Power(f, j) <= Power(f, k))
    && (forall j :: LOW_BIN <= j < k ==> Power(f, j) < Power(f, k))
  }

  ghost predicate Silent(f: Frame) {
    forall j :: LOW_BIN <= j <= HIGH_BIN ==> Power(f, j) == 0
  }

  method PickBin(re: array<int>, im: array<int>) returns (k: nat, best: int, sum: int)
    requires re.Length == POINTS && im.Length == POINTS
    ensures var f := Bins(re, im);
            && (k == 0 ==> Silent(f))
            && (k != 0 ==> FirstBest(f, k) && best == Power(f, k))
            && sum == BandPower(f, HIGH_BIN + 1)
  {
    ghost var f := Bins(re, im);
    k, best, sum := 0, 0, 0;
    hide BinPower;
    for j := LOW_BIN to HIGH_BIN + 1
      invariant sum == BandPower(f, j)
      invariant k == 0 || (LOW_BIN <= k < j && best == Power(f, k) > 0)
      invariant k == 0 ==> best == 0
      invariant forall q :: LOW_BIN <= q < j ==> Power(f, q) <= best
      invariant forall q :: LOW_BIN <= q < k ==> Power(f, q) < best
    {
      var p := BinPower(Complex(re[j], im[j]));
      assert p == Power(f, j);
      sum := sum + p;
      if p > best {
        k, best := j, p;
      }
    }
  }

  /** Six bins of an in-headroom spectrum sum up within a uint32. */
  lemma BandPowerFits(f: Frame, k: nat)
    requires LOW_BIN <= k <= HIGH_BIN + 1 && forall b :: 0 <= b < POINTS ==> BinPower(f[b]) <= 23328 * 23328
    ensures 0 <= BandPower(f, k) <= 544195584 * (k - LOW_BIN) <= 0xffff_ffff
  {
    hide BinPower;
    if k > LOW_BIN {
      BandPowerFits(f, k - 1);
      assert Power(f, k - 1) <= 544195584;
    }
  }

  /** The signal-to-noise gate as computed: the product is taken in a uint32. */
  predicate SnrAccepts(best: int, mean: int) { best >= (mean * 320) % 0x1_0000_0000 / 256 }

  /** The gate as meant: the peak is at least 1.25 times the mean band power. */
  predicate SnrMeant(best: int, mean: int) { best >= mean * 320 / 256 }

  predicate SnrAgrees(best: int, mean: int) { SnrAccepts(best, mean) == SnrMeant(best, mean) }

  /**
   The gate is the meant one for every peak exactly up to the mean power at which the product
   still fits: above it a flat band, whose peak is its mean, always passes.
   */
  lemma SnrHonestExactly(mean: int)
    requires 0 <= mean <= 544195584
    ensures (forall best: int :: best >= mean ==> SnrAgrees(best, mean)) <==> mean <= 13421772
    ensures mean > 13421772 ==> SnrAccepts(mean, mean) && !SnrMeant(mean, mean)
  {
    if mean <= 13421772 {
      assert (mean * 320) % 0x1_0000_0000 == mean * 320;
      forall best: int
        ensures SnrAgrees(best, mean)
      {
      }
    } else if mean < 16777216 {
      var excess := mean * 320 - 0x1_0000_0000;
      assert 0 <= excess < 0x1_0000_0000;
      assert (mean * 320) % 0x1_0000_0000 == excess;
      assert excess / 256 <= mean;
      assert !SnrAgrees(mean, mean);
    } else {
      var wrapped := (mean * 320) % 0x1_0000_0000;
      assert wrapped < 0x1_0000_0000;
      assert wrapped / 256 <= 0xff_ffff;
      assert !SnrAgrees(mean, mean);
    }
  }

  // ---- Interpolation ------------------------------------------------------------------

  function Halved(a: nat, s: nat): nat {
    if s == 0 then a else Halved(a / 2, s - 1)
  }

  function Largest(a: nat, b: nat, c: nat): nat {
    var m := if b > a then b else a;
    if c > m then c else m
  }

  function FitShift(m: nat): nat {
    if m > 0xfffff then 1 + FitShift(m / 2) else 0
  }

  lemma {:induction false} HalvedOrder(a: nat, b: nat, s: nat)
    requires a <= b
    ensures Halved(a, s) <= Halved(b, s)
  {
    if s > 0 {
      HalvedOrder(a / 2, b / 2, s - 1);
    }
  }

  lemma {:induction false} HalvedFits(m: nat)
    ensures Halved(m, FitShift(m)) <= 0xfffff
  {
    if m > 0xfffff {
      HalvedFits(m / 2);
    }
  }

  method FitScale3(a0: nat, b0: nat, c0: nat) returns (a: nat, b: nat, c: nat)
    ensures var s := FitShift(Largest(a0, b0, c0)); a == Halved(a0, s) && b == Halved(b0, s) && c == Halved(c0, s)
    ensures a <= 0xfffff && b <= 0xfffff && c <= 0xfffff
    ensures a0 <= b0 ==> a <= b
    ensures c0 <= b0 ==> c <= b
  {
    var m: nat := if b0 > a0 then b0 else a0;
    m := if c0 > m then c0 else m;
    a, b, c := a0, b0, c0;
    ghost var s := FitShift(m);
    ghost var top := m;
    while m > 0xfffff
      invariant Halved(a, FitShift(m)) == Halved(a0, s)
      invariant Halved(b, FitShift(m)) == Halved(b0, s)
      invariant Halved(c, FitShift(m)) == Halved(c0, s)
    {
      a, b, c, m := a / 2, b / 2, c / 2, m / 2;
    }
    HalvedFits(top);
    HalvedOrder(a0, top, s);
    HalvedOrder(b0, top, s);
    HalvedOrder(c0, top, s);
    if a0 <= b0 {
      HalvedOrder(a0, b0, s);
    }
    if c0 <= b0 {
      HalvedOrder(c0, b0, s);
    }
  }

  /** The vertex of the parabola through (a, b, c), in 1/256 of a bin, clamped to half a bin. */
  function Delta(a: int, b: int, c: int): int {
    var denom := a - 2 * b + c;
    if denom >= 0 then 0
    else
      var d := TruncDiv(-((a - c) * 128), -denom);
      if d > 128 then 128 else if d < -128 then -128 else d
  }

  /** Around a maximum the clamps are idle, nothing overflows, and the peak moves to the stronger side. */
  lemma DeltaAtMaximum(a: int, b: int, c: int)
    requires 0 <= a <= b <= 0xfffff && 0 <= c <= b
    ensures -128 <= Delta(a, b, c) <= 128
    ensures a - 2 * b + c < 0 ==> Delta(a, b, c) == TruncDiv((c - a) * 128, 2 * b - a - c)
    ensures a == c ==> Delta(a, b, c) == 0
    ensures a > c ==> Delta(a, b, c) <= 0
    ensures a < c ==> Delta(a, b, c) >= 0
    ensures IsI32(a - 2 * b + c) && IsI32((a - c) * 128)
  {
    var n, d := (c - a) * 128, 2 * b - a - c;
    if d > 0 {
      assert Abs(n) <= 128 * d;
      TruncDivBound(n, d);
      var q := TruncDiv(n, d);
      hide TruncDiv;
      if Abs(q) > 128 {
        MulOrder(129, Abs(q), d, d);
        assert false;
      }
      if n == 0 && q != 0 {
        MulOrder(1, Abs(q), d, d);
        assert false;
      }
    }
  }

  /** Swapping the neighbours mirrors the vertex: no side is favoured. */
  lemma DeltaMirrors(a: int, b: int, c: int)
    ensures Delta(c, b, a) == -Delta(a, b, c)
  {
  }

  function Fitted(f: Frame, k: nat): (abc: (nat, nat, nat))
    requires LOW_BIN < k < HIGH_BIN
  {
    var a, b, c := Power(f, k - 1), Power(f, k), Power(f, k + 1);
    var s := FitShift(Largest(a, b, c));
    (Halved(a, s), Halved(b, s), Halved(c, s))
  }

  /** The fractional bin in Q8; the two ends of the band are not interpolated. */
  function FractionalBin(f: Frame, k: nat): int
    requires LOW_BIN <= k <= HIGH_BIN
  {
    if LOW_BIN < k < HIGH_BIN then
      var abc := Fitted(f, k);
      k * 256 + Delta(abc.0, abc.1, abc.2)
    else k * 256
  }

  /** The fractional bin never leaves the band. */
  lemma FractionalInBand(f: Frame, k: nat)
    requires FirstBest(f, k)
    ensures 512 <= FractionalBin(f, k) <= 1792
    ensures Abs(FractionalBin(f, k) - 256 * k) <= 128
  {
    if LOW_BIN < k < HIGH_BIN {
      var a, b, c := Power(f, k - 1), Power(f, k), Power(f, k + 1);
      assert a <= b && c <= b;
      hide Power, FitShift, Halved, Delta;
      var s := FitShift(Largest(a, b, c));
      HalvedOrder(a, b, s);
      HalvedOrder(c, b, s);
      HalvedFits(b);
      DeltaAtMaximum(Halved(a, s), Halved(b, s), Halved(c, s));
    }
  }

  method Interpolate(re: array<int>, im: array<int>, k: nat, best: int) returns (q: int)
    requires re.Length == POINTS && im.Length == POINTS
    requires FirstBest(Bins(re, im), k) && best == Power(Bins(re, im), k)
    ensures q == FractionalBin(Bins(re, im), k) && 512 <= q <= 1792
  {
    ghost var f := Bins(re, im);
    FractionalInBand(f, k);
    assert LOW_BIN <= k <= HIGH_BIN;
    hide FirstBest, BinPower, Delta, FitShift, Halved;
    q := k * 256;
    if LOW_BIN < k < HIGH_BIN {
      var pa := BinPower(Complex(re[k - 1], im[k - 1]));
      var pc := BinPower(Complex(re[k + 1], im[k + 1]));
      assert pa == Power(f, k - 1) && pc == Power(f, k + 1);
      var a, b, c := FitScale3(pa, best, pc);
      q := q + Delta(a, b, c);
    }
  }

  // ---- Smoothing over frames -----------------------------------------------------------

  function Alpha(s: int, k: int): int { if Abs(k - s) > 512 then 24 else 48 }

  function Mixed(s: int, k: int): int { (s * (256 - Alpha(s, k)) + k * Alpha(s, k)) / 256 }

  /** The smoothed bin lies between the old one and the new bin, and no frame moves it half a bin. */
  lemma MixedBetween(s: int, k: int)
    requires 512 <= s <= 1792 && 512 <= k <= 1792
    ensures Min(s, k) <= Mixed(s, k) <= Max(s, k)
    ensures Abs(Mixed(s, k) - s) <= 120
  {
    var a := Alpha(s, k);
    assert a == 24 || a == 48;
    assert s * (256 - a) + k * a == 256 * s + (k - s) * a;
  }

  /** Strict progress until the remaining distance is below what the Q8 product resolves. */
  lemma MixedProgress(s: int, k: int)
    requires 512 <= s <= 1792 && 512 <= k <= 1792
    ensures 0 <= k - s <= 5 ==> Mixed(s, k) == s
    ensures k - s > 5 ==> s < Mixed(s, k) <= k
    ensures k < s ==> k <= Mixed(s, k) < s
  {
    var a := Alpha(s, k);
    assert s * (256 - a) + k * a == 256 * s + (k - s) * a;
  }

  function Repeated(s: int, k: int, n: nat): int {
    if n == 0 then s else Mixed(Repeated(s, k, n - 1), k)
  }

  /** Frames that agree on bin k bring the smoothed bin to within 5/256 below it, from anywhere. */
  lemma {:induction false} SmootherSettles(s: int, k: int, n: nat)
    requires 512 <= s <= 1792 && 512 <= k <= 1792
    ensures 512 <= Repeated(s, k, n) <= 1792
    ensures n >= Abs(k - s) ==> 0 <= k - Repeated(s, k, n) <= 5
    ensures n < Abs(k - s) ==> Abs(k - Repeated(s, k, n)) <= Abs(k - s) - n || 0 <= k - Repeated(s, k, n) <= 5
  {
    if n > 0 {
      SmootherSettles(s, k, n - 1);
      var t := Repeated(s, k, n - 1);
      hide Mixed;
      MixedBetween(t, k);
      MixedProgress(t, k);
    }
  }

  /** The beats per minute of a fractional bin at a sample rate given in Q8 Hz. */
  function BinBpm(q: int, fsQ8: int): int { q * 60 * (fsQ8 / 16) / (64 * 4096) }

  lemma BinBpmFits(q: int, fsQ8: int)
    requires 512 <= q <= 1792 && 1600 <= fsQ8 <= 25600
    ensures IsU32(q * 60 * (fsQ8 / 16)) && IsU16(BinBpm(q, fsQ8))
  {
    MulOrder(q * 60, 1792 * 60, fsQ8 / 16, 1600);
    MulOrder(0, q * 60, 0, fsQ8 / 16);
  }

  // ---- The estimator ---------------------------------------------------------------------

  datatype Smoother = Smoother(bin: int, primed: bool) {
    predicate InBand() { primed ==> 512 <= bin <= 1792 }
  }

  function Smoothed(s: Smoother, q: int): Smoother {
    Smoother(if s.primed then Mixed(s.bin, q) else q, true)
  }

  /** The spectrum of a chunk and the bin that survives its gate, if one does. */
  ghost predicate Dominant(f: Frame, k: nat) {
    FirstBest(f, k) && SnrAccepts(Power(f, k), BandPower(f, HIGH_BIN + 1) / 6)
  }

  class Estimator {
    const re: array<int>
    const im: array<int>
    var bin: int
    var primed: bool

    ghost predicate Valid()
      reads this
    {
      re.Length == POINTS && im.Length == POINTS && re != im && State().InBand()
    }

    function State(): Smoother
      reads this
    {
      Smoother(bin, primed)
    }

    constructor ()
      ensures Valid() && State() == Smoother(0, false) && fresh(re) && fresh(im)
    {
      re, im := new int[POINTS], new int[POINTS];
      bin, primed := 0, false;
    }

    /** shFftSmoothReset. */
    method Reset()
      requires Valid()
      modifies this
      ensures Valid() && State() == Smoother(0, false)
    {
      bin, primed := 0, false;
    }

    /** Spectrum of the chunk; not `ok` when every sample equals the mean. */
    method Transform(x: seq<int>) returns (ok: bool)
      requires Valid() && |x| >= 32 && FftFrame.InHeadroom(x)
      modifies re, im
      ensures Valid() && State() == old(State())
      ensures ok == !FftFrame.IsPeak(x, 0)
      ensures ok ==> Spectrum(x, Bins(re, im))
    {
      hide FftFrame.IsPeak, FftFrame.BestShift, FftFrame.Loaded, FftFrame.InHeadroom, Fft, BinPower;
      var peak, p := FftFrame.LoadFrame(x, re, im);
      if peak == 0 {
        return false;
      }
      PeakIsOne(x, peak);
      FftFrame.HeadroomBoundsPeak(x, peak);
      FftFrame.LoadedBound(x, peak, p);
      FftHeadroom(FftFrame.Loaded(x, p));
      Radix2(re, im);
      assert SpectrumWith(x, peak, p, Bins(re, im));
      ok := true;
    }

    method Smooth(q: int) returns (used: int)
      requires Valid() && 512 <= q <= 1792
      modifies this
      ensures Valid() && State() == Smoothed(old(State()), q) && used == bin && 512 <= used <= 1792
    {
      if !primed {
        bin, primed := q, true;
      } else {
        MixedBetween(bin, q);
        var alpha := 48;
        var jump := if q > bin then q - bin else bin - q;
        if jump > 512 {
          alpha := alpha / 2;
        }
        bin := (bin * (256 - alpha) + q * alpha) / 256;
      }
      used := bin;
      if used < 256 {
        used := 256;
      }
    }

    /**
     shFftBpm: 0 and an untouched smoother unless one bin dominates the spectrum; then the smoother
     takes its fractional index and the rate is that of the smoothed index, if plausible.
     */
    method FftBpm(x: seq<int>, fsQ8: int) returns (bpm: int, mag: int, ghost k: nat)
      requires Valid() && FftFrame.InHeadroom(x) && 1600 <= fsQ8 <= 25600
      modifies this, re, im
      ensures Valid() && (bpm == 0 || 40 <= bpm <= 180)
      ensures k != 0 ==> |x| >= 32 && Spectrum(x, Bins(re, im)) && Dominant(Bins(re, im), k)
      ensures k != 0 ==> State() == Smoothed(old(State()), FractionalBin(Bins(re, im), k))
      ensures k != 0 ==> bpm == InRange(BinBpm(bin, fsQ8)) && mag == Min(Power(Bins(re, im), k), 0xffff)
      ensures k == 0 ==> State() == old(State()) && bpm == 0 && mag == 0
      ensures k == 0 ==> |x| < 32 || FftFrame.IsPeak(x, 0)
                         || (Spectrum(x, Bins(re, im)) && forall j :: !Dominant(Bins(re, im), j))
    {
      hide FftFrame.IsPeak, FftFrame.InHeadroom, Spectrum, BinPower, FirstBest, FractionalBin, Smoothed, SnrAccepts, Smoother.InBand;
      bpm, mag, k := 0, 0, 0;
      if |x| < POINTS / 2 {
        return;
      }
      var ok := Transform(x);
      if !ok {
        return;
      }
      ghost var f := Bins(re, im);
      var best, p, sum := PickBin(re, im);
      if best == 0 {
        NoneDominant(f);
        return;
      }
      BestInBand(f, best);
      Accepted(p, sum / 6);
      if p < (sum / 6 * 320) % 0x1_0000_0000 / 256 {
        OnlyBest(f, best);
        return;
      }
      k := best;
      mag := if p > 0xffff then 0xffff else p;
      var q := Interpolate(re, im, best, p);
      var used := Smooth(q);
      BinBpmFits(used, fsQ8);
      bpm := BinBpm(used, fsQ8);
      if bpm < 40 || bpm > 180 {
        bpm := 0;
      }
    }
  }

  function InRange(bpm: int): int { if bpm < 40 || bpm > 180 then 0 else bpm }

  lemma Accepted(p: int, mean: int)
    ensures SnrAccepts(p, mean) <==> p >= (mean * 320) % 0x1_0000_0000 / 256
  {
  }

  lemma BestInBand(f: Frame, k: nat)
    requires FirstBest(f, k)
    ensures LOW_BIN <= k <= HIGH_BIN
  {
  }

  lemma NoneDominant(f: Frame)
    requires Silent(f)
    ensures forall j :: !Dominant(f, j)
  {
  }

  /** There is one first best bin, so a rejected one leaves none. */
  lemma OnlyBest(f: Frame, k: nat)
    requires FirstBest(f, k) && !SnrAccepts(Power(f, k), BandPower(f, HIGH_BIN + 1) / 6)
    ensures forall j :: !Dominant(f, j)
  {
    hide SnrAccepts, Power, BandPower;
    forall j: nat | FirstBest(f, j)
      ensures j == k
    {
    }
  }

  lemma PeakIsOne(x: seq<int>, peak: int)
    requires FftFrame.IsPeak(x, peak) && peak > 0
    ensures !FftFrame.IsPeak(x, 0)
  {
    hide FftFrame.Centred;
    var i :| 0 <= i < POINTS && Abs(FftFrame.Centred(x, i)) == peak;
  }

  /** f is the transform of the loaded chunk, and no step towards it overflowed. */
  ghost predicate Spectrum(x: seq<int>, f: Frame) {
    exists peak: int, p: nat :: SpectrumWith(x, peak, p, f)
  }

  ghost predicate SpectrumWith(x: seq<int>, peak: int, p: nat, f: Frame) {
    && peak > 0 && FftFrame.IsPeak(x, peak) && FftFrame.BestShift(peak, p)
    && f == Fft(FftFrame.Loaded(x, p))
    && forall b :: 0 <= b < POINTS ==> BinPower(f[b]) <= 23328 * 23328
  }
}
