/**
 The analysis frame of the FFT (smart_helmet_vitals.c: shFftFrameSample and the loading part of
 shFftBpm): mean removal, prescaling to the headroom, Hann window; and the chain of bounds
 from the signal gate to the last butterfly.
 */
module FftFrame {
  import opened CArithmetic
  import opened BitReversal
  import opened Butterfly
  import RingBuffer
  import SensRing
  import SignalLevels

  /** The last 64 samples, or fewer padded with zeros. */
  function Sample(x: seq<int>, i: nat): int
    requires i < POINTS
  {
    if |x| >= POINTS then x[|x| - POINTS + i] else if i < |x| then x[i] else 0
  }

  function SampleSum(x: seq<int>, i: nat): int
    requires i <= POINTS
  {
    if i == 0 then 0 else SampleSum(x, i - 1) + Sample(x, i - 1)
  }

  function Mean(x: seq<int>): int { TruncDiv(SampleSum(x, POINTS), POINTS) }

  function Centred(x: seq<int>, i: nat): int
    requires i < POINTS
  {
    Sample(x, i) - Mean(x)
  }

  /** p is the largest shift up to 12 that keeps the peak within 2^14, or 0 if there is none. */
  predicate BestShift(peak: int, p: nat) {
    && p <= 12
    && (p > 0 ==> peak * Pow2(p) <= 16384)
    && (p < 12 ==> peak * Pow2(p + 1) > 16384)
  }

  /** The Hann window in Q15, from the cosine table. */
  function Hann(i: nat): int
    requires i < POINTS
  {
    (32768 - CosQ15(if i <= 32 then i else POINTS - i)) / 2
  }

  lemma HannRange(i: nat)
    requires i < POINTS
    ensures 0 <= Hann(i) <= 32768
  {
    var k := if i <= 32 then i else POINTS - i;
    TwiddleEntry(k);
    hide CosQ15;
  }

  function Entry(x: seq<int>, p: nat, i: nat): int
    requires i < POINTS
  {
    TruncDiv(Centred(x, i) * Hann(i), 32768) * Pow2(p)
  }

  function Loaded(x: seq<int>, p: nat): (s: Frame) {
    seq(POINTS, i requires 0 <= i < POINTS => Complex(Entry(x, p, i), 0))
  }

  ghost predicate IsPeak(x: seq<int>, peak: int) {
    && (forall i :: 0 <= i < POINTS ==> Abs(Centred(x, i)) <= peak)
    && (peak == 0 || exists i :: 0 <= i < POINTS && Abs(Centred(x, i)) == peak)
  }

  // ---- Bounds ---------------------------------------------------------------------------

  lemma {:induction false} SampleSumBound(x: seq<int>, i: nat, m: int)
    requires m >= 0 && i <= POINTS && SensRing.Within(x, -m, m)
    ensures -(m * i) <= SampleSum(x, i) <= m * i
  {
    if i > 0 {
      SampleSumBound(x, i - 1, m);
      assert m * i == m * (i - 1) + m;
      assert -m <= Sample(x, i - 1) <= m;
    }
  }

  /** Samples within m leave a centred frame within 2m. */
  lemma CentredBound(x: seq<int>, i: nat, m: int)
    requires m >= 0 && i < POINTS && SensRing.Within(x, -m, m)
    ensures Abs(Centred(x, i)) <= 2 * m
  {
    SampleSumBound(x, POINTS, m);
    hide SampleSum;
    assert -m <= Sample(x, i) <= m;
    assert -m <= Mean(x) <= m;
  }

  /** The window never enlarges a sample. */
  lemma WindowShrinks(v: int, w: int)
    requires 0 <= w <= 32768
    ensures Abs(TruncDiv(v * w, 32768)) <= Abs(v)
  {
    MulOrder(Abs(v), Abs(v), w, 32768);
    assert Abs(v * w) == Abs(v) * w;
    TruncDivBound(v * w, 32768);
  }

  /** A shift that fits the peak fits every entry, and v * window and the shift fit an int32. */
  lemma EntryBound(x: seq<int>, peak: int, p: nat, i: nat)
    requires i < POINTS && IsPeak(x, peak) && peak <= 16384 && BestShift(peak, p)
    ensures Abs(Entry(x, p, i)) <= 16384
    ensures IsI32(Centred(x, i) * Hann(i))
  {
    hide Hann, Centred, TruncDiv, BestShift;
    assert Abs(Centred(x, i)) <= peak;
    HannRange(i);
    WindowFits(Centred(x, i), Hann(i), peak);
    ShiftFits(TruncDiv(Centred(x, i) * Hann(i), 32768), peak, p);
  }

  lemma WindowFits(v: int, w: int, peak: int)
    requires 0 <= w <= 32768 && Abs(v) <= peak <= 16384
    ensures IsI32(v * w) && Abs(TruncDiv(v * w, 32768)) <= peak
  {
    MulOrder(Abs(v), 16384, w, 32768);
    assert Abs(v * w) == Abs(v) * w;
    WindowShrinks(v, w);
  }

  lemma ShiftFits(w: int, peak: int, p: nat)
    requires Abs(w) <= peak <= 16384 && BestShift(peak, p)
    ensures Abs(w * Pow2(p)) <= 16384
  {
    if p == 0 {
      assert Pow2(p) == 1;
    } else {
      hide Pow2;
      assert peak * Pow2(p) <= 16384;
      hide BestShift;
      ScaledOrder(w, peak, Pow2(p));
    }
  }

  lemma ScaledOrder(w: int, peak: int, k: nat)
    requires Abs(w) <= peak
    ensures Abs(w * k) <= peak * k
  {
    MulOrder(Abs(w), peak, k, k);
    assert Abs(w * k) == Abs(w) * k;
  }

  /** The loaded frame is inside the FFT's headroom. */
  lemma LoadedBound(x: seq<int>, peak: int, p: nat)
    requires IsPeak(x, peak) && peak <= 16384 && BestShift(peak, p)
    ensures MagnitudeAtMost(Loaded(x, p), 16384)
  {
    hide IsPeak, BestShift, Entry;
    var s := Loaded(x, p);
    forall i | 0 <= i < POINTS
      ensures s[i].Norm2() <= 16384 * 16384
    {
      EntryBound(x, peak, p, i);
      SquareMonotone(Entry(x, p, i), 16384);
      assert s[i] == Complex(Entry(x, p, i), 0);
    }
  }

  /**
   What the signal gate promises the FFT. Whatever the residuals pushed so far, if the mean
   magnitude over the ring is at most 45 then every sample handed to the estimators is within 4599.
   */
  lemma GateBoundsChunk(ring: seq<int>, history: seq<int>, count: nat)
    requires RingBuffer.Holds(SensRing.CAPACITY, ring, history, count) && count > 0
    requires SignalLevels.SumAbs(ring[..count]) / count <= 45
    ensures SensRing.Within(SensRing.LowPassed(RingBuffer.Latest(history, count)), -4599, 4599)
  {
    var t := RingBuffer.Latest(history, count);
    forall k | 0 <= k < |t|
      ensures -4599 <= t[k] <= 4599
    {
      var a := |history| - count + k;
      assert t[k] == history[a] == ring[RingBuffer.Slot(SensRing.CAPACITY, a)];
      assert RingBuffer.Slot(SensRing.CAPACITY, a) < count by { SlotInRing(a, |history|, count); }
      SignalLevels.MeanAbsBoundsSamples(ring[..count], RingBuffer.Slot(SensRing.CAPACITY, a));
    }
    SensRing.LowPassedWithin(t, -4599, 4599);
  }

  lemma SlotInRing(a: nat, n: nat, count: nat)
    requires a < n && count == Min(n, SensRing.CAPACITY)
    ensures RingBuffer.Slot(SensRing.CAPACITY, a) < count
  {
  }

  /**
   FFT headroom end to end: a window that passes the gate is loaded within 2^14 and no product,
   sum or bin power on its way through the six stages leaves an int32.
   */
  lemma GateGivesHeadroom(ring: seq<int>, history: seq<int>, count: nat, peak: int, p: nat)
    requires RingBuffer.Holds(SensRing.CAPACITY, ring, history, count) && count > 0
    requires SignalLevels.SumAbs(ring[..count]) / count <= 45
    requires IsPeak(SensRing.LowPassed(RingBuffer.Latest(history, count)), peak) && BestShift(peak, p)
    ensures var s := Loaded(SensRing.LowPassed(RingBuffer.Latest(history, count)), p);
            && peak <= 9198
            && MagnitudeAtMost(s, 16384)
            && (forall n :: 0 <= n < 6 ==> StageFits(StageInput(s, n), StageSize(n)))
            && MagnitudeAtMost(Fft(s), 186624)
            && (forall b :: 0 <= b < POINTS ==> BinPower(Fft(s)[b]) <= 23328 * 23328)
  {
    var x := SensRing.LowPassed(RingBuffer.Latest(history, count));
    GateBoundsChunk(ring, history, count);
    hide RingBuffer.Holds, SensRing.LowPassed, StageFits, StageInput, BinPower, Fft;
    PeakBound(x, peak, 4599);
    LoadedBound(x, peak, p);
    FftHeadroom(Loaded(x, p));
  }

  lemma PeakBound(x: seq<int>, peak: int, m: int)
    requires m >= 0 && IsPeak(x, peak) && SensRing.Within(x, -m, m)
    ensures 0 <= peak <= 2 * m
  {
    hide Centred;
    assert Abs(Centred(x, 0)) <= peak;
    if peak != 0 {
      var i :| 0 <= i < POINTS && Abs(Centred(x, i)) == peak;
      CentredBound(x, i, m);
    }
  }

  /** No sample of the frame is further than 2^14 from its mean: what the six stages can carry. */
  ghost predicate InHeadroom(x: seq<int>) {
    forall i :: 0 <= i < POINTS ==> Abs(Centred(x, i)) <= 16384
  }

  lemma HeadroomBoundsPeak(x: seq<int>, peak: int)
    requires IsPeak(x, peak) && InHeadroom(x)
    ensures peak <= 16384
  {
    hide Centred;
  }

  /** Samples within 8191 are in headroom whatever their mean. */
  lemma SmallInHeadroom(x: seq<int>)
    requires SensRing.Within(x, -8191, 8191)
    ensures InHeadroom(x)
  {
    forall i | 0 <= i < POINTS
      ensures Abs(Centred(x, i)) <= 16384
    {
      CentredBound(x, i, 8191);
    }
  }

  // ---- Loading ----------------------------------------------------------------------------

  method ComputeMean(x: seq<int>) returns (mean: int)
    requires |x| >= POINTS / 2
    ensures mean == Mean(x)
  {
    mean := 0;
    for i := 0 to POINTS
      invariant mean == SampleSum(x, i)
    {
      mean := mean + Sample(x, i);
    }
    mean := TruncDiv(mean, POINTS);
  }

  method ComputePeak(x: seq<int>, mean: int) returns (peak: int)
    requires mean == Mean(x)
    ensures IsPeak(x, peak)
  {
    hide Mean;
    peak := 0;
    for i := 0 to POINTS
      invariant peak >= 0
      invariant forall k :: 0 <= k < i ==> Abs(Centred(x, k)) <= peak
      invariant peak == 0 || exists k :: 0 <= k < i && Abs(Centred(x, k)) == peak
    {
      var v := Sample(x, i) - mean;
      if v < 0 {
        v := -v;
      }
      assert v == Abs(Centred(x, i));
      if v > peak {
        peak := v;
      }
    }
  }

  method ComputeShift(peak: int) returns (p: nat)
    requires peak > 0
    ensures BestShift(peak, p)
  {
    p := 0;
    while p < 12 && peak * Pow2(p + 1) <= 16384
      invariant p <= 12 && (p > 0 ==> peak * Pow2(p) <= 16384)
    {
      p := p + 1;
    }
  }

  /** The shift is unique, so the frame depends on the samples alone. */
  lemma BestShiftUnique(peak: int, p: nat, q: nat)
    requires peak > 0 && BestShift(peak, p) && BestShift(peak, q)
    ensures p == q
  {
    if p < q {
      Pow2Monotone(p + 1, q);
      MulOrder(peak, peak, Pow2(p + 1), Pow2(q));
      assert false;
    } else if q < p {
      Pow2Monotone(q + 1, p);
      MulOrder(peak, peak, Pow2(q + 1), Pow2(p));
      assert false;
    }
  }

  lemma {:induction false} Pow2Monotone(p: nat, q: nat)
    requires p <= q
    ensures Pow2(p) <= Pow2(q)
  {
    if p < q {
      Pow2Monotone(p, q - 1);
    }
  }

  /** Loads the frame; nothing is loaded when every sample equals the mean. */
  method LoadFrame(x: seq<int>, re: array<int>, im: array<int>) returns (peak: int, p: nat)
    requires |x| >= POINTS / 2 && re.Length == POINTS && im.Length == POINTS && re != im
    modifies re, im
    ensures IsPeak(x, peak) && peak >= 0
    ensures peak != 0 ==> BestShift(peak, p) && Bins(re, im) == Loaded(x, p)
  {
    hide BestShift, IsPeak;
    var mean := ComputeMean(x);
    peak := ComputePeak(x, mean);
    p := 0;
    assert peak >= 0 by { assert IsPeak(x, peak); PeakNonneg(x, peak); }
    if peak == 0 {
      return;
    }
    p := ComputeShift(peak);
    hide Mean, Hann, Pow2;
    for i := 0 to POINTS
      invariant forall k :: 0 <= k < i ==> re[k] == Entry(x, p, k) && im[k] == 0
    {
      var v := Sample(x, i) - mean;
      v := TruncDiv(v * Hann(i), 32768);
      re[i] := v * Pow2(p);
      im[i] := 0;
      assert re[i] == Entry(x, p, i);
    }
  }

  lemma PeakNonneg(x: seq<int>, peak: int)
    requires IsPeak(x, peak)
    ensures peak >= 0
  {
    hide Centred;
    assert Abs(Centred(x, 0)) <= peak;
  }
}
