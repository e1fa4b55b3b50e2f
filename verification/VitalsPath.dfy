/**
 The SENS_IN path of the vitals module as one object: from raw millivolts through the filters and
 rings to the estimators, behind the signal gate (smart_helmet_vitals.c:
 SmartHelmet_VitalsPushSensInMvAt and the estimating part of SmartHelmet_VitalsProcess).
 */
module VitalsPath {
  import opened CArithmetic
  import opened RingBuffer
  import Butterfly
  import SensRing
  import HighPass
  import SignalLevels
  import Timebase
  import Respiration
  import PeakPicker
  import FftFrame
  import FftBin

  /** The residuals of a stream of raw samples, one each. */
  function Residuals(stream: seq<int>): (r: seq<int>)
    ensures |r| == |stream|
    ensures forall i :: 0 <= i < |r| ==> IsI16(r[i])
  {
    if stream == [] then []
    else
      var m := |stream| - 1;
      Residuals(stream[..m]) + [HighPass.Clamp16(HighPass.Output(HighPass.Run(HighPass.ZERO, stream[..m]), stream[m]))]
  }

  /** What the estimators are shown: the last 100 residuals, oldest first, low-passed. */
  function Chunk(stream: seq<int>): (r: seq<int>)
    ensures |r| == Min(|stream|, SensRing.CAPACITY)
  {
    SensRing.LowPassed(Latest(Residuals(stream), Min(|stream|, SensRing.CAPACITY)))
  }

  /** The mean magnitude and the saturated mean square of the residuals b. */
  ghost function MeanLevel(b: seq<int>): nat {
    if b == [] then 0 else
      MeanNonneg(SignalLevels.SumAbs(b), |b|);
      SignalLevels.SumAbs(b) / |b|
  }

  ghost function EnergyOf(b: seq<int>): (e: nat)
    ensures e <= 0xffff
  {
    if b == [] then 0 else
      MeanNonneg(SignalLevels.SumSquares(b), |b|);
      Min(0xffff, SignalLevels.SumSquares(b) / |b|)
  }

  /** The clock between the stamp of a sample and the window that sample may conclude. */
  ghost predicate Clocked(c: Timebase.Clock) {
    && Timebase.SumsSound(c.sums) && Timebase.RateSound(c.rate)
    && c.sums.n <= Timebase.MOTION_WIN && c.since < Timebase.MOTION_WIN
  }

  /** The FFT's verdict on a chunk: no dominant bin and no rate, or the rate of the smoothed fractional bin. */
  ghost predicate FftVerdict(f: Butterfly.Frame, before: FftBin.Smoother, after: FftBin.Smoother, k: nat, fsQ8: int, bpm: int) {
    if k == 0 then after == before && bpm == 0
    else
      && FftBin.Dominant(f, k)
      && after == FftBin.Smoothed(before, FftBin.FractionalBin(f, k))
      && bpm == FftBin.InRange(FftBin.BinBpm(after.bin, fsQ8))
  }

  /**
   Both estimates of a chunk x past the gate: no sample beyond 4599, p and n the rate and number of its peaks, and the
   FFT's verdict with its spectrum f; without a dominant bin k the chunk is short, flat or has none.
   */
  ghost predicate Estimates(
    x: seq<int>, fsQ8: int, f: Butterfly.Frame, before: FftBin.Smoother, after: FftBin.Smoother, k: nat,
    p: int, n: nat, q: int)
  {
    && SensRing.Within(x, -4599, 4599)
    && PeakPicker.Estimated(x, fsQ8, p) && n == PeakPicker.PeakCount(x)
    && FftVerdict(f, before, after, k, fsQ8, q)
    && (k != 0 ==> FftBin.Spectrum(x, f))
    && (k == 0 ==> |x| < 32 || FftFrame.IsPeak(x, 0) || (FftBin.Spectrum(x, f) && forall j :: !FftBin.Dominant(f, j)))
  }

  class Vitals {
    const clock: Timebase.TimebaseFields
    const filter: HighPass.Filter
    const ring: Ring
    const ordered: array<int>
    const resp: Respiration.RespPath
    const fft: FftBin.Estimator
    ghost var stream: seq<int>

    /** The objects a pushed sample may change. */
    ghost predicate Apart()
      reads this
    {
      && ring != resp.ring
      && ring.buf != resp.ring.buf && ring.buf != resp.ordered && ring.buf != ordered
      && ring.buf != fft.re && ring.buf != fft.im
      && ordered != resp.ring.buf && ordered != resp.ordered && ordered != fft.re && ordered != fft.im
      && resp.ring.buf != fft.re && resp.ring.buf != fft.im
    }

    ghost predicate Valid()
      reads this, clock, filter, ring, ring.buf, resp, resp.ring, resp.ring.buf, fft
    {
      && Apart()
      && ring.Valid() && ring.cap == SensRing.CAPACITY && ordered.Length == SensRing.CAPACITY
      && resp.Valid() && fft.Valid()
      && Clocked(clock.State())
      && filter.Abstract() == HighPass.Run(HighPass.ZERO, stream)
      && ring.history == Residuals(stream)
      && (resp.State(), resp.ring.history) == Respiration.Feed(stream)
    }

    constructor ()
      ensures Valid() && stream == [] && clock.State() == Timebase.START
      ensures fresh(clock) && fresh(filter) && fresh(ring) && fresh(ring.buf) && fresh(ordered) && fresh(fft) && fresh(fft.re)
      ensures fresh(fft.im) && fresh(resp) && fresh(resp.ring) && fresh(resp.ring.buf) && fresh(resp.ordered)
    {
      clock := new Timebase.TimebaseFields();
      filter := new HighPass.Filter();
      ring := new Ring(SensRing.CAPACITY);
      ordered := new int[SensRing.CAPACITY];
      resp := new Respiration.RespPath();
      fft := new FftBin.Estimator();
      stream := [];
      new;
      hide Holds, Slot, Clocked, Residuals, Respiration.Feed, HighPass.Run, FftBin.Smoother.InBand;
      EmptyPath();
    }

    /**
     One sample and its time stamp: through the high-pass into the ring and into the respiration path, while the
     clock takes the interval.
     */
    method PushSens(mv: int, us: int)
      requires Valid() && IsU16(mv) && IsU32(us) && clock.n < Timebase.MOTION_WIN
      modifies this, clock, filter, ring, ring.buf, resp, resp.ring, resp.ring.buf
      ensures Valid() && stream == old(stream) + [mv]
      ensures clock.State() == Timebase.Stamped(old(clock.State()), us) && clock.n <= old(clock.n) + 1
    {
      StreamStep(stream, mv);
      hide Holds, Slot, Latest, Respiration.Fed, Respiration.Feed, HighPass.Output, HighPass.Next, HighPass.Run,
        HighPass.Clamp16, Residuals, Timebase.SumsSound, Timebase.RateSound, Timebase.Stamped, FftBin.Smoother.InBand;
      ghost var s := stream + [mv];
      Timebase.StampedSound(clock.State(), us);
      StampKeepsRest(clock.State(), us);
      clock.Push(us);
      var hp := filter.Push(mv);
      resp.Push(mv);
      ring.Push(hp);
      stream := s;
    }

    /** The mean residual over the ring, as the gate sees it. */
    ghost function Level(): nat
      requires Valid()
      reads this, clock, filter, ring, ring.buf, resp, resp.ring, resp.ring.buf, fft
    {
      MeanLevel(ring.buf[..ring.count])
    }

    /** The saturated mean square over the ring. */
    ghost function EnergyLevel(): nat
      requires Valid()
      reads this, clock, filter, ring, ring.buf, resp, resp.ring, resp.ring.buf, fft
    {
      EnergyOf(ring.buf[..ring.count])
    }

    method SensAbs() returns (m: int)
      requires Valid()
      ensures m == Level()
    {
      hide SignalLevels.SumAbs, HighPass.Run, Respiration.Feed, Clocked, FftBin.Smoother.InBand;
      ghost var n := ring.count;
      RingIsI16(ring.buf[..], ring.history, n);
      m := SignalLevels.MeanAbs(ring.buf[..ring.count]);
    }

    /** The energy of the residuals in the ring. */
    method SensEnergy() returns (e: int)
      requires Valid()
      ensures e == EnergyLevel() <= 0xffff
    {
      hide HighPass.Run, Respiration.Feed, Clocked, FftBin.Smoother.InBand;
      RingIsI16(ring.buf[..], ring.history, ring.count);
      var b := ring.buf[..ring.count];
      e := SignalLevels.Energy(b);
    }

    /** SmartHelmet_VitalsOnSensSample up to its call: is this the 25th sample? */
    method CountSample() returns (due: bool)
      requires Valid()
      modifies clock
      ensures Valid() && due == (old(clock.since) + 1 >= Timebase.MOTION_WIN)
      ensures clock.State() == old(clock.State()).(since := if due then 0 else old(clock.since) + 1)
    {
      hide Holds, HighPass.Run, Respiration.Feed, FftBin.Smoother.InBand, Residuals, Timebase.RateSound, Timebase.SumsSound;
      clock.since := clock.since + 1;
      due := clock.since >= Timebase.MOTION_WIN;
      if due {
        clock.since := 0;
      }
    }

    /** The clock concludes its window: the rate is measured, the interval sums start again. */
    method ConcludeClock()
      requires Valid()
      modifies clock
      ensures Valid() && clock.State() == Timebase.Processed(old(clock.State())) && clock.n == 0
    {
      hide Holds, HighPass.Run, Respiration.Feed, FftBin.Smoother.InBand, Residuals, Timebase.RateSound, Timebase.Concluded;
      Timebase.NoSumsSound();
      clock.Update();
    }

    /** One delivered sample; the 25th since the last lets the clock conclude its window. */
    method Take(mv: int, us: int) returns (due: bool)
      requires Valid() && IsU16(mv) && IsU32(us) && clock.n <= clock.since
      modifies this, clock, filter, ring, ring.buf, resp, resp.ring, resp.ring.buf
      ensures Valid() && stream == old(stream) + [mv] && clock.n <= clock.since
      ensures clock.State() == Timebase.Next(old(clock.State()), Timebase.Sample(us)) && due == (old(clock.since) == 24)
    {
      hide Valid, Timebase.Processed, Timebase.Stamped, Timebase.Next;
      ClockBelow(this);
      SampleTick(clock.State(), us);
      StampKeepsRest(clock.State(), us);
      PushSens(mv, us);
      due := CountSample();
      if due {
        ConcludeClock();
      }
    }

    /** A dropped tick: the next interval spans a gap and is not taken. */
    method Drop()
      requires Valid()
      modifies clock
      ensures Valid() && clock.State() == Timebase.Next(old(clock.State()), Timebase.Dropped)
    {
      hide Holds, HighPass.Run, Respiration.Feed, FftBin.Smoother.InBand, Residuals, Timebase.RateSound, Timebase.SumsSound;
      clock.Drop();
    }

    /** The sample path's part of SmartHelmet_VitalsInit. */
    method Clear()
      requires Valid()
      modifies this, clock, filter, ring, ring.buf, resp, resp.ring, resp.ring.buf, fft
      ensures Valid() && stream == [] && clock.State() == Timebase.START && fft.State() == FftBin.Smoother(0, false)
    {
      hide Holds, Slot, Clocked, Residuals, Respiration.Feed, HighPass.Run;
      EmptyPath();
      clock.Clear();
      filter.Clear();
      ring.Clear();
      resp.Clear();
      fft.Reset();
      stream := [];
    }

    /** shFftSmoothReset, as part of shHrDisturb. */
    method ResetSmoother()
      requires Valid()
      modifies fft
      ensures Valid() && fft.State() == FftBin.Smoother(0, false)
    {
      hide Holds, HighPass.Run, Respiration.Feed, Residuals, Clocked;
      fft.Reset();
    }

    /**
     The estimators behind the gate. `inBand` is the verdict on energy and time base, taken elsewhere.
     Nothing is estimated unless the mean residual is in 12..45; then both estimators work on
     the chunk of the raw stream, and the gate alone discharges the headroom the FFT needs.
     */
    method Estimate(inBand: bool) returns (peakBpm: int, peaks: nat, fftBpm: int, ghost k: nat)
      requires Valid()
      modifies ordered, fft, fft.re, fft.im
      ensures Valid() && stream == old(stream) && Level() == old(Level()) && EnergyLevel() == old(EnergyLevel())
      ensures (peakBpm == 0 || 40 <= peakBpm <= 180) && (fftBpm == 0 || 40 <= fftBpm <= 180) && peaks <= 13
      ensures var open := inBand && 12 <= old(Level()) <= 45;
              && (!open ==> peakBpm == 0 && fftBpm == 0 && fft.State() == old(fft.State()))
              && (open ==> Estimates(Chunk(stream), clock.fsQ8, Butterfly.Bins(fft.re, fft.im), old(fft.State()), fft.State(), k,
                                     peakBpm, peaks, fftBpm))
    {
      hide SignalLevels.SumAbs, Slot, HighPass.Run, Respiration.Feed, FftBin.Smoother.InBand, PeakPicker.Estimated, FftBin.Spectrum,
        Residuals, SensRing.LowPassed, Latest, FftBin.Dominant, FftBin.Smoothed, FftBin.FractionalBin, FftBin.BinBpm,
        PeakPicker.PeakCount, FftFrame.IsPeak, EnergyOf;
      peakBpm, peaks, fftBpm, k := 0, 0, 0, 0;
      assert 1600 <= clock.fsQ8 <= 25600;
      hide Clocked;
      var sensAbs := SensAbs();
      if !inBand || sensAbs < 12 || sensAbs > 45 {
        return;
      }
      FftFrame.GateBoundsChunk(ring.buf[..], ring.history, ring.count);
      hide Holds, SensRing.Within;
      var x := OrderedChunk();
      ChunkFits(x);
      peakBpm, peaks := PeakPicker.PeakBpm(x, clock.fsQ8);
      FftFrame.SmallInHeadroom(x);
      var mag;
      fftBpm, mag, k := fft.FftBpm(x, clock.fsQ8);
    }

    method OrderedChunk() returns (x: seq<int>)
      requires Valid()
      modifies ordered
      ensures Valid() && stream == old(stream) && x == Chunk(stream)
    {
      hide Slot, HighPass.Run, Respiration.Feed, FftBin.Smoother.InBand, Clocked, SensRing.LowPassed;
      assert ring.count == Min(|stream|, SensRing.CAPACITY);
      hide Holds;
      var k := SensRing.CopyOrdered(ring, ordered, ring.count);
      x := ordered[..k];
    }

    /** The respiration estimate, for every stream whose last window does not fool the scaling guard. */
    method EstimateResp() returns (bpm: int, quality: int)
      requires Valid() && Respiration.Scalable(resp.Window())
      modifies resp.ordered
      ensures Valid() && stream == old(stream) && (bpm == 0 || 8 <= bpm <= 30)
    {
      hide Holds, HighPass.Run, Respiration.Feed, FftBin.Smoother.InBand, Respiration.Scalable;
      assert 1600 <= clock.fsQ8 <= 25600;
      hide Clocked;
      ghost var s, lag;
      bpm, quality, s, lag := resp.Estimate(clock.fsQ8, stream);
    }
  }

  lemma ClockBelow(v: Vitals)
    requires v.Valid()
    ensures v.clock.since < Timebase.MOTION_WIN
  {
  }

  lemma EmptyPath()
    ensures Residuals([]) == [] && HighPass.Run(HighPass.ZERO, []) == HighPass.ZERO
    ensures Respiration.Feed([]) == (Respiration.REST, []) && Clocked(Timebase.START)
  {
  }

  lemma SampleTick(c: Timebase.Clock, us: int)
    ensures var d := Timebase.Stamped(c, us);
            Timebase.Next(c, Timebase.Sample(us)) ==
            if c.since + 1 >= 25 then Timebase.Processed(d.(since := 0)) else d.(since := c.since + 1)
  {
    hide Timebase.Processed;
  }

  lemma StampKeepsRest(c: Timebase.Clock, us: int)
    ensures Timebase.Stamped(c, us).rate == c.rate && Timebase.Stamped(c, us).since == c.since
  {
  }

  lemma MeanNonneg(total: int, n: nat)
    requires total >= 0
    ensures n > 0 ==> total / n >= 0
  {
  }

  /** All three folds over the stream advance by the new sample. */
  lemma StreamStep(stream: seq<int>, mv: int)
    ensures var s, f := stream + [mv], HighPass.Run(HighPass.ZERO, stream);
            && HighPass.Run(HighPass.ZERO, s) == HighPass.Next(f, mv)
            && Residuals(s) == Residuals(stream) + [HighPass.Clamp16(HighPass.Output(f, mv))]
            && Respiration.Feed(s) == (Respiration.Fed(Respiration.Feed(stream).0, mv).0,
                                       Respiration.Feed(stream).1 + Respiration.Fed(Respiration.Feed(stream).0, mv).1)
  {
    hide Respiration.Fed, HighPass.Output, HighPass.Next, HighPass.Clamp16;
    assert (stream + [mv])[..|stream|] == stream;
  }

  lemma RingIsI16(b: seq<int>, h: seq<int>, count: nat)
    requires Holds(SensRing.CAPACITY, b, h, count) && forall i :: 0 <= i < |h| ==> IsI16(h[i])
    ensures forall i :: 0 <= i < |b[..count]| ==> IsI16(b[..count][i])
  {
    forall i | 0 <= i < count
      ensures IsI16(b[i])
    {
      var a := |h| - 1 - (|h| - 1 - i) % 100;
      assert Slot(SensRing.CAPACITY, a) == i by { SlotOf(|h| - 1, i); }
      assert b[Slot(SensRing.CAPACITY, a)] == h[a];
    }
  }

  /** The latest position at or below `last` that uses slot i. */
  lemma SlotOf(last: nat, i: nat)
    requires i <= last && i < 100
    ensures var a := last - (last - i) % 100; i <= a && Slot(SensRing.CAPACITY, a) == i
  {
  }

  lemma ChunkFits(x: seq<int>)
    requires SensRing.Within(x, -4599, 4599)
    ensures SensRing.Within(x, -8191, 8191) && forall i :: 0 <= i < |x| ==> IsI16(x[i])
  {
  }

  // ---- A steady contact ------------------------------------------------------------------

  /** The last k samples are equal. */
  ghost predicate Flat(stream: seq<int>, k: nat) {
    k <= |stream| && forall i :: |stream| - k <= i < |stream| ==> stream[i] == stream[|stream| - 1]
  }

  /** While the input is held, the filter state is the held state. */
  lemma {:induction false} RunHeld(stream: seq<int>, m: nat)
    requires 1 <= m <= |stream| && Flat(stream, |stream| - m + 1)
    ensures HighPass.Run(HighPass.ZERO, stream) == HighPass.Held(HighPass.Run(HighPass.ZERO, stream[..m]), |stream| - m)
    ensures HighPass.Run(HighPass.ZERO, stream[..m]).prevX == stream[|stream| - 1]
  {
    var n := |stream| - 1;
    if m == |stream| {
      assert stream[..m] == stream;
    } else {
      assert stream[n - 1] == stream[n];
      RunHeld(stream[..n], m);
      assert stream[..n][..m] == stream[..m];
    }
  }

  /** A residual is 0 once its sample and the 294 before it are equal. */
  lemma {:induction false} ResidualSettles(stream: seq<int>, i: nat)
    requires i < |stream| && Flat(stream[..i + 1], 295) && forall k :: 0 <= k < |stream| ==> IsU16(stream[k])
    ensures Residuals(stream)[i] == 0
    decreases |stream|
  {
    hide HighPass.Held, HighPass.Run, HighPass.Output, HighPass.Clamp16;
    var n := |stream| - 1;
    if i < n {
      assert stream[..n][..i + 1] == stream[..i + 1];
      hide Flat;
      ResidualSettles(stream[..n], i);
    } else {
      assert stream[..i + 1] == stream;
      hide Residuals;
      var m := |stream| - 294;
      RunHeld(stream, m);
      HighPass.SettlesExactly(stream[..m], 294);
      LastResidual(stream);
    }
  }

  lemma LastResidual(stream: seq<int>)
    requires stream != []
    ensures Residuals(stream)[|stream| - 1] == HighPass.Clamp16(HighPass.Run(HighPass.ZERO, stream).prevY)
  {
  }

  lemma {:induction false} ZeroSum(s: seq<int>)
    requires forall i :: 0 <= i < |s| ==> s[i] == 0
    ensures SignalLevels.SumAbs(s) == 0
  {
    if s != [] {
      ZeroSum(s[..|s| - 1]);
    }
  }

  /**
   A contact that has been flat for 394 samples, after whatever went before, leaves the ring at zero:
   the mean residual is 0 and the gate admits no estimate.
   */
  lemma FlatContactIsSilent(stream: seq<int>, ring: seq<int>)
    requires Flat(stream, 394) && forall k :: 0 <= k < |stream| ==> IsU16(stream[k])
    requires Holds(SensRing.CAPACITY, ring, Residuals(stream), SensRing.CAPACITY)
    ensures SignalLevels.SumAbs(ring[..SensRing.CAPACITY]) / SensRing.CAPACITY == 0
  {
    var h := Residuals(stream);
    forall i | 0 <= i < 100
      ensures ring[i] == 0
    {
      var a := |h| - 1 - (|h| - 1 - i) % 100;
      SlotOf(|h| - 1, i);
      assert ring[Slot(SensRing.CAPACITY, a)] == h[a];
      FlatPrefix(stream, a);
      ResidualSettles(stream, a);
    }
    ZeroSum(ring[..100]);
  }

  lemma FlatPrefix(stream: seq<int>, a: nat)
    requires Flat(stream, 394) && |stream| - 100 <= a < |stream|
    ensures Flat(stream[..a + 1], 295)
  {
    assert stream[a] == stream[|stream| - 1];
  }
}
