/**
 The respiration path (smart_helmet_vitals.c: shRespPush, shRespBpm, shMaxAbsI16): decimation,
 drift removal and the autocorrelation of the last 64 residuals.
 */
module Respiration {
  import opened CArithmetic
  import opened RingBuffer
  import opened HighPass
  import SensRing

  const DECIM: int := 8
  const WINDOW: nat := 64

  // ---- Decimation and drift removal -----------------------------------------------------

  /** The running sum of the current group of eight and the slow mean in Q8. */
  datatype Drift = Drift(sum: int, n: int, dc: int, primed: bool)

  const REST: Drift := Drift(0, 0, 0, false)

  function Tracked(d: Drift, v: int): int {
    if d.primed then d.dc + TruncDiv((v * 256 - d.dc) * 12, 256) else v * 256
  }

  /** One sample: the new state and the residual it completes, if it does. */
  function Fed(d: Drift, mv: int): (Drift, seq<int>) {
    var sum := d.sum + mv;
    if d.n + 1 < DECIM then (d.(sum := sum, n := d.n + 1), [])
    else
      var v := TruncDiv(sum, DECIM);
      var dc := Tracked(d, v);
      (Drift(0, 0, dc, true), [Clamp16(v - dc / 256)])
  }

  /** The state and all residuals after a stream. */
  function Feed(stream: seq<int>): (Drift, seq<int>) {
    if stream == [] then (REST, [])
    else
      var before := Feed(stream[..|stream| - 1]);
      var now := Fed(before.0, stream[|stream| - 1]);
      (now.0, before.1 + now.1)
  }

  ghost predicate InHull(d: Drift, lo: int, hi: int) {
    && 0 <= d.n < DECIM
    && lo * d.n <= d.sum <= hi * d.n
    && (d.primed ==> lo * 256 <= d.dc <= hi * 256)
  }

  lemma TrackedInHull(d: Drift, v: int, lo: int, hi: int)
    requires InHull(d, lo, hi) && lo <= v <= hi
    ensures lo * 256 <= Tracked(d, v) <= hi * 256
  {
  }

  lemma ClampOrder(a: int, b: int)
    requires a <= b
    ensures Clamp16(a) <= Clamp16(b)
  {
  }

  lemma FedInHull(d: Drift, mv: int, lo: int, hi: int)
    requires InHull(d, lo, hi) && 0 <= lo <= mv <= hi
    ensures InHull(Fed(d, mv).0, lo, hi)
    ensures SensRing.Within(Fed(d, mv).1, Clamp16(lo - hi), Clamp16(hi - lo))
    ensures |Fed(d, mv).1| == if d.n == 7 then 1 else 0
  {
    hide Tracked, TruncDiv, Clamp16, InHull;
    if d.n == 7 {
      GroupInHull(d, mv, lo, hi);
    } else {
      SumInHull(d, mv, lo, hi);
    }
  }

  lemma SumInHull(d: Drift, mv: int, lo: int, hi: int)
    requires InHull(d, lo, hi) && 0 <= lo <= mv <= hi && d.n != 7
    ensures InHull(Fed(d, mv).0, lo, hi) && Fed(d, mv).1 == []
  {
    hide Tracked, TruncDiv, Clamp16;
    Distribute(lo, d.n);
    Distribute(hi, d.n);
  }

  lemma Distribute(a: int, n: int)
    ensures a * (n + 1) == a * n + a
  {
  }

  /** The sample that completes a group of eight. */
  lemma GroupInHull(d: Drift, mv: int, lo: int, hi: int)
    requires InHull(d, lo, hi) && 0 <= lo <= mv <= hi && d.n == 7
    ensures InHull(Fed(d, mv).0, lo, hi) && |Fed(d, mv).1| == 1
    ensures Clamp16(lo - hi) <= Fed(d, mv).1[0] <= Clamp16(hi - lo)
  {
    hide Tracked, TruncDiv, Clamp16;
    GroupMeanInHull(d.sum, mv, lo, hi);
    var v := TruncDiv(d.sum + mv, DECIM);
    TrackedInHull(d, v, lo, hi);
    ClampOrder(lo - hi, v - Tracked(d, v) / 256);
    ClampOrder(v - Tracked(d, v) / 256, hi - lo);
  }

  lemma GroupMeanInHull(sum: int, mv: int, lo: int, hi: int)
    requires 0 <= lo <= mv <= hi && lo * 7 <= sum <= hi * 7
    ensures lo <= TruncDiv(sum + mv, DECIM) <= hi
  {
  }

  /**
   Whatever the stream, the drift tracker stays in the hull of its inputs, every eighth sample
   yields a residual, and no residual exceeds the spread of the inputs.
   */
  lemma {:induction false} FeedInHull(stream: seq<int>, lo: int, hi: int)
    requires 0 <= lo <= hi && SensRing.Within(stream, lo, hi)
    ensures InHull(Feed(stream).0, lo, hi)
    ensures SensRing.Within(Feed(stream).1, Clamp16(lo - hi), Clamp16(hi - lo))
    ensures 8 * |Feed(stream).1| + Feed(stream).0.n == |stream|
  {
    if stream != [] {
      var m := |stream| - 1;
      FeedInHull(stream[..m], lo, hi);
      hide InHull, Fed, Clamp16;
      var d := Feed(stream[..m]).0;
      FedInHull(d, stream[m], lo, hi);
      FedCount(d, stream[m]);
    }
  }

  lemma FedCount(d: Drift, mv: int)
    requires 0 <= d.n < 8
    ensures Fed(d, mv).0.n == if d.n == 7 then 0 else d.n + 1
  {
  }

  // ---- The scaling shift ------------------------------------------------------------------

  const LIMIT: int := 0x3fff_ffff
  const WRAP: int := 0x1_0000_0000

  /** C's arithmetic right shift: halving that rounds down. */
  function Asr(x: int, s: nat): int {
    if s == 0 then x else Asr(x, s - 1) / 2
  }

  lemma {:induction false} AsrBetween(x: int, peak: int, s: nat)
    requires Abs(x) <= peak
    ensures -(Asr(peak, s) + (if s == 0 then 0 else 1)) <= Asr(x, s) <= Asr(peak, s)
    ensures 0 <= Asr(peak, s) <= peak
  {
    if s > 0 {
      AsrBetween(x, peak, s - 1);
    }
  }

  lemma {:induction false} AsrNegated(x: int, s: nat)
    ensures Asr(-x, s) <= -Asr(x, s)
  {
    if s > 0 {
      AsrNegated(x, s - 1);
    }
  }

  /** n times the square of the shifted peak, as a number. */
  function Load(peak: int, n: int, s: nat): int { Asr(peak, s) * Asr(peak, s) * n }

  /** The loop's guard sees the product modulo 2^32. */
  predicate Seen(peak: int, n: int, s: nat) { Load(peak, n, s) % WRAP > LIMIT }

  /** The loop stops at s. */
  ghost predicate Stops(peak: int, n: int, s: nat) {
    s <= 15 && (forall t: nat :: t < s ==> Seen(peak, n, t)) && (s < 15 ==> !Seen(peak, n, s))
  }

  method FindShift(peak: int, n: int) returns (s: nat)
    ensures Stops(peak, n, s)
  {
    hide Seen;
    s := 0;
    while s < 15 && Seen(peak, n, s)
      invariant s <= 15 && forall t: nat :: t < s ==> Seen(peak, n, t)
    {
      s := s + 1;
    }
  }

  lemma LoadShrinks(peak: int, n: int, s: nat)
    requires 0 <= peak && 0 <= n
    ensures 0 <= Load(peak, n, s + 1) <= Load(peak, n, s)
  {
    AsrBetween(peak, peak, s);
    var a, b := Asr(peak, s + 1), Asr(peak, s);
    SquareMonotone(a, b);
    SquareNonneg(a);
    MulOrder(a * a, b * b, n, n);
  }

  lemma {:induction false} LoadAntitone(peak: int, n: int, s: nat, t: nat)
    requires 0 <= peak && 0 <= n && s <= t
    ensures Load(peak, n, t) <= Load(peak, n, s)
  {
    if s < t {
      LoadAntitone(peak, n, s, t - 1);
      hide Load;
      LoadShrinks(peak, n, t - 1);
    }
  }

  lemma {:induction false} AsrTiny(peak: int, s: nat)
    requires 0 <= peak <= 32768 && s <= 15
    ensures 0 <= Asr(peak, s) <= Asr(32768, s)
  {
    if s > 0 {
      AsrTiny(peak, s - 1);
    }
  }

  lemma LastLoad(peak: int, n: int)
    requires 0 <= peak <= 32768 && 0 <= n <= WINDOW
    ensures 0 <= Load(peak, n, 15) <= 64
  {
    AsrTiny(peak, 15);
    FifteenHalvings();
    hide Asr;
    var a := Asr(peak, 15);
    assert a == 0 || a == 1;
    assert a * a == a;
    MulOrder(0, a, 0, n);
    MulOrder(a, 1, n, n);
  }

  lemma FifteenHalvings()
    ensures Asr(32768, 15) == 1
  {
    assert Asr(32768, 5) == 1024;
    assert Asr(32768, 10) == 32;
  }

  /** At step t the guard does not take a wrapped product for a small one. */
  predicate Trusted(peak: int, n: int, t: nat) { Load(peak, n, t) < WRAP || Seen(peak, n, t) }

  /** From the third step on only the full window of the largest peak could still wrap. */
  lemma LateLoad(peak: int, n: int, t: nat)
    requires 0 <= peak <= 32767 && 0 <= n <= WINDOW && t >= 2
    ensures 0 <= Load(peak, n, t) < WRAP
  {
    AsrQuarter(peak, t);
    var a := Asr(peak, t);
    hide Asr;
    SquareMonotone(a, 8191);
    SquareNonneg(a);
    MulOrder(a * a, 8191 * 8191, n, 64);
    MulOrder(0, a * a, 0, n);
  }

  lemma {:induction false} AsrQuarter(peak: int, t: nat)
    requires 0 <= peak <= 32767 && t >= 2
    ensures 0 <= Asr(peak, t) <= 8191
  {
    if t == 2 {
      assert Asr(peak, 2) == Asr(peak, 1) / 2 && Asr(peak, 1) == peak / 2;
    } else {
      AsrQuarter(peak, t - 1);
    }
  }

  /** The largest peak of an int16 sample: where its later loads wrap, the first one already did. */
  lemma LargestPeak(n: int)
    requires 0 <= n <= WINDOW
    ensures Load(32768, n, 0) == 0x4000_0000 * n && 0 <= Load(32768, n, 2) <= 0x400_0000 * n
    ensures n == WINDOW ==> !Trusted(32768, n, 0)
  {
    assert Asr(32768, 1) == 16384 && Asr(32768, 2) == 8192;
  }

  /**
   The shift bounds the products exactly when the guard is not fooled in its first two steps. Both can be
   decided from the peak and the length of the window.
   */
  lemma ShiftHonestExactly(peak: int, n: int, s: nat)
    requires 0 <= peak <= 32768 && 0 <= n <= WINDOW && Stops(peak, n, s)
    ensures Load(peak, n, s) <= LIMIT <==> Trusted(peak, n, 0) && Trusted(peak, n, 1)
  {
    hide Load;
    LastLoad(peak, n);
    LoadShrinks(peak, n, s);
    LoadAntitone(peak, n, 0, s);
    if s >= 2 {
      LoadAntitone(peak, n, 1, s);
      LoadAntitone(peak, n, 2, s);
      if peak <= 32767 {
        LateLoad(peak, n, s);
      } else {
        LargestPeak(n);
      }
    } else {
      LoadAntitone(peak, n, s, 1);
    }
  }

  /** Residuals of a stream up to 8191 mV never fool the guard. */
  lemma ShiftHonest(peak: int, n: int, s: nat)
    requires 0 <= peak <= 8191 && 0 <= n <= WINDOW && Stops(peak, n, s)
    ensures 0 <= Load(peak, n, s) <= LIMIT
  {
    LoadBelowWrap(peak, n, 0);
    LoadBelowWrap(peak, n, 1);
    LoadBelowWrap(peak, n, s);
    hide Load, Stops;
    ShiftHonestExactly(peak, n, s);
  }

  lemma LoadBelowWrap(peak: int, n: int, t: nat)
    requires 0 <= peak <= 8191 && 0 <= n <= WINDOW
    ensures 0 <= Load(peak, n, t) < WRAP
  {
    AsrBetween(peak, peak, t);
    var a := Asr(peak, t);
    hide Asr;
    SquareMonotone(a, 8191);
    SquareNonneg(a);
    MulOrder(a * a, 8191 * 8191, n, 64);
    MulOrder(0, a * a, 0, n);
  }

  // ---- Sums ---------------------------------------------------------------------------------

  function LagSum(v: seq<int>, lag: nat, cnt: nat): int
    requires lag + cnt <= |v|
  {
    if cnt == 0 then 0 else LagSum(v, lag, cnt - 1) + v[cnt - 1] * v[cnt - 1 + lag]
  }

  function Energy(v: seq<int>, a: nat, b: nat): int
    requires a <= b <= |v|
  {
    if a == b then 0 else Energy(v, a, b - 1) + v[b - 1] * v[b - 1]
  }

  lemma {:induction false} EnergyGrows(v: seq<int>, a: nat, b: nat, c: nat)
    requires a <= b <= c <= |v|
    ensures 0 <= Energy(v, a, b) <= Energy(v, a, c)
    ensures Energy(v, b, c) <= Energy(v, a, c)
    decreases c
  {
    if b < c {
      SquareNonneg(v[c - 1]);
      EnergyGrows(v, a, b, c - 1);
    } else if a < c {
      SquareNonneg(v[c - 1]);
      EnergyGrows(v, a, c - 1, c - 1);
    }
  }

  lemma TwiceProduct(a: int, b: int)
    ensures -(a * a + b * b) <= 2 * (a * b) <= a * a + b * b
  {
    SquareNonneg(a + b);
    SquareNonneg(a - b);
    assert (a + b) * (a + b) == a * a + 2 * (a * b) + b * b;
    assert (a - b) * (a - b) == a * a - 2 * (a * b) + b * b;
  }

  lemma {:induction false} LagSumByEnergies(v: seq<int>, lag: nat, cnt: nat)
    requires lag + cnt <= |v|
    ensures Abs(2 * LagSum(v, lag, cnt)) <= Energy(v, 0, cnt) + Energy(v, lag, lag + cnt)
  {
    if cnt > 0 {
      LagSumByEnergies(v, lag, cnt - 1);
      TwiceProduct(v[cnt - 1], v[cnt - 1 + lag]);
    }
  }

  /** Cauchy-Schwarz for the firmware's sums: no lag, and no partial lag, exceeds the lag-0 sum. */
  lemma LagSumAtMostR0(v: seq<int>, lag: nat, cnt: nat)
    requires lag + cnt <= |v|
    ensures Abs(LagSum(v, lag, cnt)) <= Energy(v, 0, |v|)
  {
    LagSumByEnergies(v, lag, cnt);
    EnergyGrows(v, 0, cnt, |v|);
    EnergyGrows(v, 0, lag, lag + cnt);
    EnergyGrows(v, 0, lag + cnt, |v|);
    hide LagSum, Energy;
  }

  lemma {:induction false} EnergyBound(v: seq<int>, b: nat, m: int)
    requires b <= |v| && m >= 0 && SensRing.Within(v, -m, m)
    ensures Energy(v, 0, b) <= (m * m) * b
  {
    if b > 0 {
      EnergyBound(v, b - 1, m);
      SquareMonotone(v[b - 1], m);
      assert (m * m) * b == (m * m) * (b - 1) + m * m;
    }
  }

  function Shifted(x: seq<int>, s: nat): (v: seq<int>)
    ensures |v| == |x|
  {
    seq(|x|, i requires 0 <= i < |x| => Asr(x[i], s))
  }

  lemma ShiftedWithin(x: seq<int>, peak: int, s: nat)
    requires peak >= 0 && SensRing.Within(x, -peak, peak)
    ensures var m := Asr(peak, s) + 1; m >= 0 && SensRing.Within(Shifted(x, s), -m, m)
  {
    AsrBetween(0, peak, s);
    var v := Shifted(x, s);
    forall i | 0 <= i < |v|
      ensures -(Asr(peak, s) + 1) <= v[i] <= Asr(peak, s) + 1
    {
      AsrBetween(x[i], peak, s);
    }
  }

  lemma RoundedSquare(q: int)
    ensures 4 * ((q + 1) * (q + 1)) <= 5 * (q * q) + 20
  {
    SquareNonneg(q - 4);
    assert (q - 4) * (q - 4) == q * q - 8 * q + 16;
    assert (q + 1) * (q + 1) == q * q + 2 * q + 1;
  }

  lemma RoundedLoad(q: int, n: int)
    requires 0 <= n <= WINDOW && q * q * n <= LIMIT
    ensures (q + 1) * (q + 1) * n <= 0x7fff_ffff
  {
    RoundedSquare(q);
    var a, b := (q + 1) * (q + 1), q * q;
    assert b * n <= LIMIT;
    SquareNonneg(q + 1);
    MulOrder(4 * a, 5 * b + 20, n, n);
    assert (4 * a) * n == 4 * (a * n);
    assert (5 * b + 20) * n == 5 * (b * n) + 20 * n;
  }

  /** Every sum of the autocorrelation, partial ones included, fits an int32 once the shift is honest. */
  lemma SumsFit(x: seq<int>, peak: int, s: nat, lag: nat, cnt: nat)
    requires peak >= 0 && SensRing.Within(x, -peak, peak) && |x| <= WINDOW
    requires Load(peak, |x|, s) <= LIMIT && lag + cnt <= |x|
    ensures IsI32(LagSum(Shifted(x, s), lag, cnt)) && 0 <= Energy(Shifted(x, s), 0, |x|) <= 0x7fff_ffff
  {
    var v := Shifted(x, s);
    ShiftedWithin(x, peak, s);
    EnergyBound(v, |x|, Asr(peak, s) + 1);
    RoundedLoad(Asr(peak, s), |x|);
    LagSumAtMostR0(v, lag, cnt);
    EnergyGrows(v, 0, 0, |v|);
    hide Shifted, LagSum, Energy;
  }

  // ---- The lag ---------------------------------------------------------------------------------

  function LagSumFull(v: seq<int>, lag: nat): int
    requires lag <= |v|
  {
    LagSum(v, lag, |v| - lag)
  }

  /** The first lag of the range with the largest sum. */
  ghost predicate FirstBestLag(v: seq<int>, lo: nat, hi: nat, lag: nat)
    requires hi <= |v|
  {
    && lo <= lag <= hi
    && (forall l: nat :: lo <= l <= hi ==> LagSumFull(v, l) <= LagSumFull(v, lag))
    && (forall l: nat :: lo <= l < lag ==> LagSumFull(v, l) < LagSumFull(v, lag))
  }

  ghost predicate IsMaxAbs(x: seq<int>, peak: int) {
    && peak >= 0 && SensRing.Within(x, -peak, peak)
    && (peak == 0 || exists i :: 0 <= i < |x| && Abs(x[i]) == peak)
  }

  method MaxAbs(x: seq<int>) returns (peak: int)
    ensures IsMaxAbs(x, peak)
  {
    peak := 0;
    for i := 0 to |x|
      invariant peak >= 0 && forall k :: 0 <= k < i ==> -peak <= x[k] <= peak
      invariant peak == 0 || exists k :: 0 <= k < i && Abs(x[k]) == peak
    {
      var v := x[i];
      if v < 0 {
        v := -v;
      }
      if v > peak {
        peak := v;
        assert Abs(x[i]) == peak;
      }
    }
  }

  method LagZero(x: seq<int>, s: nat, ghost peak: int) returns (r0: int)
    requires |x| <= WINDOW && peak >= 0 && SensRing.Within(x, -peak, peak) && Load(peak, |x|, s) <= LIMIT
    ensures r0 == Energy(Shifted(x, s), 0, |x|) && 0 <= r0 <= 0x7fff_ffff
  {
    hide Load, Asr;
    ghost var v := Shifted(x, s);
    r0 := 0;
    SumsFit(x, peak, s, 0, 0);
    for i := 0 to |x|
      invariant r0 == Energy(v, 0, i) && IsI32(r0)
    {
      EnergyGrows(v, 0, i + 1, |x|);
      var a := Asr(x[i], s);
      r0 := r0 + a * a;
    }
  }

  method SumAtLag(x: seq<int>, s: nat, lag: nat, ghost peak: int) returns (acc: int)
    requires |x| <= WINDOW && peak >= 0 && SensRing.Within(x, -peak, peak) && Load(peak, |x|, s) <= LIMIT
    requires lag <= |x|
    ensures acc == LagSumFull(Shifted(x, s), lag) && IsI32(acc)
  {
    hide Load, Asr;
    ghost var v := Shifted(x, s);
    acc := 0;
    for i := 0 to |x| - lag
      invariant acc == LagSum(v, lag, i) && IsI32(acc)
    {
      SumsFit(x, peak, s, lag, i + 1);
      acc := acc + Asr(x[i], s) * Asr(x[i + lag], s);
    }
  }

  method BestLag(x: seq<int>, s: nat, lo: nat, hi: nat, ghost peak: int) returns (lag: nat, r: int)
    requires |x| <= WINDOW && peak >= 0 && SensRing.Within(x, -peak, peak) && Load(peak, |x|, s) <= LIMIT
    requires 1 <= lo <= hi <= |x|
    ensures FirstBestLag(Shifted(x, s), lo, hi, lag) && r == LagSumFull(Shifted(x, s), lag)
  {
    hide Load, Asr, LagSumFull, Shifted;
    ghost var v := Shifted(x, s);
    lag, r := 0, 0;
    var l := lo;
    while l <= hi
      invariant lo <= l <= hi + 1
      invariant lag == 0 <==> l == lo
      invariant lag != 0 ==> lo <= lag < l && r == LagSumFull(v, lag)
      invariant lag != 0 ==> forall k: nat :: lo <= k < l ==> LagSumFull(v, k) <= r
      invariant lag != 0 ==> forall k: nat :: lo <= k < lag ==> LagSumFull(v, k) < r
    {
      var acc := SumAtLag(x, s, l, peak);
      if lag == 0 || acc > r {
        r, lag := acc, l;
      }
      l := l + 1;
    }
  }

  // ---- The signal survives the shift ---------------------------------------------------------

  lemma ShiftKeepsSignal(x: seq<int>, peak: int, s: nat)
    requires |x| <= WINDOW && IsMaxAbs(x, peak) && 0 < peak <= 32768 && Stops(peak, |x|, s)
    ensures Energy(Shifted(x, s), 0, |x|) > 0
  {
    var i :| 0 <= i < |x| && Abs(x[i]) == peak;
    var v := Shifted(x, s);
    ShiftedPeakPositive(peak, |x|, s);
    AsrNegated(peak, s);
    assert v[i] == Asr(x[i], s);
    assert v[i] != 0;
    hide Asr, Shifted, Stops, IsMaxAbs, Energy;
    EnergyPositive(v, i);
  }

  lemma EnergyPositive(v: seq<int>, i: nat)
    requires i < |v| && v[i] != 0
    ensures Energy(v, 0, |v|) > 0
  {
    SquareMonotone(1, Abs(v[i]));
    assert Abs(v[i]) * Abs(v[i]) == v[i] * v[i];
    EnergyGrows(v, 0, i, |v|);
    EnergyGrows(v, 0, i + 1, |v|);
  }

  lemma ShiftedPeakPositive(peak: int, n: int, s: nat)
    requires 0 < peak <= 32768 && 0 <= n <= WINDOW && Stops(peak, n, s)
    ensures Asr(peak, s) > 0
  {
    if s > 0 {
      assert Seen(peak, n, s - 1);
      LoadShrinks(peak, n, s - 1);
      AsrBetween(peak, peak, s - 1);
      var a := Asr(peak, s - 1);
      if a < 2 {
        SquareMonotone(a, 1);
        MulOrder(a * a, 1, n, 64);
        assert false;
      }
    }
  }

  /** The window's peak does not fool the scaling guard. */
  ghost predicate Scalable(x: seq<int>) {
    forall peak :: IsMaxAbs(x, peak) ==> Trusted(peak, |x|, 0) && Trusted(peak, |x|, 1)
  }

  /** Every window of residuals up to 8191 is scalable. */
  lemma SmallWindowScalable(x: seq<int>)
    requires |x| <= WINDOW && SensRing.Within(x, -8191, 8191)
    ensures Scalable(x) && SensRing.Within(x, -32768, 32767)
  {
    forall peak | IsMaxAbs(x, peak)
      ensures Trusted(peak, |x|, 0) && Trusted(peak, |x|, 1)
    {
      PeakWithin(x, peak, 8191);
      LoadBelowWrap(peak, |x|, 0);
      LoadBelowWrap(peak, |x|, 1);
    }
  }

  lemma PeakWithin(x: seq<int>, peak: int, m: int)
    requires IsMaxAbs(x, peak) && m >= 0 && SensRing.Within(x, -m, m)
    ensures peak <= m
  {
  }

  // ---- The estimate ------------------------------------------------------------------------------

  /** 60 times the decimated rate, in Q8: beats per minute times lag. */
  function PerMinute(fsQ8: int): int { fsQ8 / 8 * 60 }

  function LowLag(fsQ8: int): int { Max(PerMinute(fsQ8) / 7680, 2) }

  function HighLag(fsQ8: int): int { PerMinute(fsQ8) / 2048 }

  /** The lag limits of any measured rate fit a byte even when doubled, and never cross. */
  lemma LagLimits(fsQ8: int)
    requires 1600 <= fsQ8 <= 25600
    ensures 2 <= LowLag(fsQ8) <= HighLag(fsQ8) <= 93 && 5 <= HighLag(fsQ8) && 2 * HighLag(fsQ8) <= 255
  {
  }

  /** r(lag)/r(0) in Q8, as the firmware divides. */
  function Quality(r: int, r0: int): int
    requires r0 >= 0
  {
    var den := r0 / 256;
    r / (if den == 0 then 1 else den)
  }

  /** A lag sum within r0 has quality at most 511, so the uint16 clamp is never needed. */
  lemma QualityBound(r: int, r0: int)
    requires 0 <= r <= r0
    ensures 0 <= Quality(r, r0) <= 511
  {
    var den := if r0 / 256 == 0 then 1 else r0 / 256;
    assert r0 < 256 * den + 256;
    var q := r / den;
    assert q * den <= r;
    if q > 511 {
      MulOrder(512, q, den, den);
      assert false;
    }
  }

  function RateOf(fsQ8: int, lag: nat): int
    requires lag > 0
  {
    PerMinute(fsQ8) / (lag * 256)
  }

  /** No lag of the range is too slow; only too fast a rate can be refused. */
  lemma RateNotTooSlow(fsQ8: int, lag: nat)
    requires 0 < lag <= HighLag(fsQ8) && fsQ8 >= 0
    ensures RateOf(fsQ8, lag) >= 8
  {
    var f, d := PerMinute(fsQ8), lag * 256;
    hide PerMinute;
    assert 8 * d <= f;
    if f / d < 8 {
      MulOrder(f / d + 1, 8, d, d);
      assert false;
    }
  }

  /** What an accepted analysis rests on. */
  ghost predicate Breath(x: seq<int>, fsQ8: int, s: nat, lag: nat) {
    && 1600 <= fsQ8 <= 25600
    && HighLag(fsQ8) * 2 <= |x|
    && (exists peak :: IsMaxAbs(x, peak) && peak > 0 && Stops(peak, |x|, s))
    && FirstBestLag(Shifted(x, s), LowLag(fsQ8), HighLag(fsQ8), lag)
    && lag > 0
    && LagSumFull(Shifted(x, s), lag) > 0
    && Energy(Shifted(x, s), 0, |x|) > 0
  }

  /**
   shRespBpm on the ordered residuals. A lag is found unless the window is short, flat or
   nowhere positively correlated; quality and rate are those of the first best lag.
   */
  method Analyse(x: seq<int>, fsQ8: int) returns (bpm: int, quality: int, ghost s: nat, ghost lag: nat)
    requires |x| <= WINDOW && SensRing.Within(x, -32768, 32767) && Scalable(x) && 1600 <= fsQ8 <= 25600
    ensures bpm == 0 || 8 <= bpm <= 30
    ensures lag != 0 ==> Breath(x, fsQ8, s, lag)
    ensures lag != 0 ==> quality == Quality(LagSumFull(Shifted(x, s), lag), Energy(Shifted(x, s), 0, |x|)) <= 511
    ensures lag != 0 ==> bpm == if quality >= 64 && RateOf(fsQ8, lag) <= 30 then RateOf(fsQ8, lag) else 0
    ensures lag == 0 ==> bpm == 0 && quality == 0
    ensures lag == 0 ==> |x| < 2 * HighLag(fsQ8) || IsMaxAbs(x, 0)
                         || forall l: nat :: LowLag(fsQ8) <= l <= HighLag(fsQ8) ==> LagSumFull(Shifted(x, s), l) <= 0
  {
    hide Asr, Load, LagSumFull, Energy, Shifted, Stops;
    bpm, quality, s, lag := 0, 0, 0, 0;
    LagLimits(fsQ8);
    var lo, hi := LowLag(fsQ8), HighLag(fsQ8);
    hide LowLag, HighLag;
    if |x| < hi * 2 {
      return;
    }
    var peak := MaxAbs(x);
    if peak == 0 {
      return;
    }
    assert SensRing.Within(x, -32768, 32768);
    PeakWithin(x, peak, 32768);
    var shift := FindShift(peak, |x|);
    s := shift;
    ShiftHonestExactly(peak, |x|, s);
    ShiftKeepsSignal(x, peak, s);
    var r0 := LagZero(x, shift, peak);
    var best, r := BestLag(x, shift, lo, hi, peak);
    if r <= 0 {
      return;
    }
    lag := best;
    LagWithinR0(Shifted(x, s), lag);
    QualityBound(r, r0);
    RateNotTooSlow(fsQ8, lag);
    hide Quality, RateOf;
    assert Breath(x, fsQ8, s, lag);
    quality := Quality(r, r0);
    if quality < 64 {
      return;
    }
    bpm := RateOf(fsQ8, best);
    if bpm < 8 || bpm > 30 {
      bpm := 0;
    }
  }

  lemma LagWithinR0(v: seq<int>, lag: nat)
    requires lag <= |v|
    ensures LagSumFull(v, lag) <= Energy(v, 0, |v|)
  {
    LagSumAtMostR0(v, lag, |v| - lag);
  }

  /** Streams up to 8191 mV leave scalable windows. */
  lemma StreamScalable(stream: seq<int>, n: nat)
    requires SensRing.Within(stream, 0, 8191) && n <= |Feed(stream).1| && n <= WINDOW
    ensures Scalable(Latest(Feed(stream).1, n))
  {
    FeedInHull(stream, 0, 8191);
    hide Feed, Scalable;
    SmallWindowScalable(Latest(Feed(stream).1, n));
  }

  /** Every residual is an int16. */
  lemma {:induction false} ResidualsFit(stream: seq<int>)
    ensures SensRing.Within(Feed(stream).1, -32768, 32767)
  {
    if stream != [] {
      ResidualsFit(stream[..|stream| - 1]);
      hide Tracked;
    }
  }

  // ---- The firmware's fields ------------------------------------------------------------------------

  class RespPath {
    const ring: Ring
    const ordered: array<int>
    var decimAcc: int
    var decimN: int
    var dc: int
    var dcValid: bool

    ghost predicate Valid()
      reads this, ring, ring.buf
    {
      ring.Valid() && ring.cap == WINDOW && ordered != ring.buf && ordered.Length == WINDOW
    }

    function State(): Drift
      reads this
    {
      Drift(decimAcc, decimN, dc, dcValid)
    }

    constructor ()
      ensures Valid() && State() == REST && ring.history == [] && fresh(ring) && fresh(ring.buf) && fresh(ordered)
    {
      ring := new Ring(WINDOW);
      ordered := new int[WINDOW];
      decimAcc, decimN, dc, dcValid := 0, 0, 0, false;
    }

    method Clear()
      requires Valid()
      modifies this, ring, ring.buf
      ensures Valid() && State() == REST && ring.history == []
    {
      ring.Clear();
      decimAcc, decimN, dc, dcValid := 0, 0, 0, false;
    }

    /** shRespPush. */
    method Push(mv: int)
      requires Valid() && IsU16(mv)
      modifies this, ring, ring.buf
      ensures Valid()
      ensures (State(), ring.history) == (Fed(old(State()), mv).0, old(ring.history) + Fed(old(State()), mv).1)
    {
      hide Latest, Holds, Slot;
      decimAcc := decimAcc + mv;
      decimN := decimN + 1;
      if decimN < DECIM {
        assert ring.history + [] == ring.history;
        return;
      }
      var v := TruncDiv(decimAcc, DECIM);
      decimAcc, decimN := 0, 0;
      if !dcValid {
        dc, dcValid := v * 256, true;
      } else {
        dc := dc + TruncDiv((v * 256 - dc) * 12, 256);
      }
      v := v - dc / 256;
      if v > 32767 {
        v := 32767;
      }
      if v < -32768 {
        v := -32768;
      }
      ring.Push(v);
    }

    /** The residuals the estimate is taken from. */
    ghost function Window(): seq<int>
      reads ring
    {
      Latest(ring.history, Min(|ring.history|, WINDOW))
    }

    /** shRespBpm, on every stream whose current window does not fool the scaling guard. */
    method Estimate(fsQ8: int, ghost stream: seq<int>) returns (bpm: int, quality: int, ghost s: nat, ghost lag: nat)
      requires Valid() && 1600 <= fsQ8 <= 25600
      requires (State(), ring.history) == Feed(stream) && Scalable(Window())
      modifies ordered
      ensures Valid() && (State(), ring.history) == Feed(stream)
      ensures bpm == 0 || 8 <= bpm <= 30
      ensures lag != 0 ==> Breath(Window(), fsQ8, s, lag)
      ensures lag != 0 && bpm != 0 ==> bpm == RateOf(fsQ8, lag)
    {
      ResidualsFit(stream);
      hide Feed, Breath, Quality, RateOf, LagSumFull, Shifted, Energy, IsMaxAbs, LowLag, HighLag, Holds, Slot, Scalable;
      assert SensRing.Within(Window(), -32768, 32767);
      hide Latest, SensRing.Within;
      var x := CopyWindow();
      bpm, quality, s, lag := Analyse(x, fsQ8);
    }

    /** The residuals in order, oldest first. */
    method CopyWindow() returns (x: seq<int>)
      requires Valid()
      modifies ordered
      ensures Valid() && State() == old(State()) && ring.history == old(ring.history)
      ensures x == Latest(ring.history, Min(|ring.history|, WINDOW))
    {
      var n := ring.count;
      assert n == Min(|ring.history|, WINDOW);
      hide Holds, Slot, Latest;
      ring.CopyLatest(n, ordered);
      x := ordered[..n];
    }
  }
}
