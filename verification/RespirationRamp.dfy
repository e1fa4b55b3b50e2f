/**
 A stream that fools the scaling guard of the respiration estimate (smart_helmet_vitals.c:1303-1313): a
 rising input that keeps the residual at 8192 mV, against the drift tracker, for a whole window.
 */
module RespirationRamp {
  import opened CArithmetic
  import opened HighPass
  import opened RingBuffer
  import opened Respiration

  const HELD: int := 8192

  // ---- Groups of eight equal samples --------------------------------------------------------

  function Repeated(v: int, n: nat): (r: seq<int>)
    ensures |r| == n && forall i :: 0 <= i < n ==> r[i] == v
  {
    seq(n, _ => v)
  }

  lemma FeedOne(stream: seq<int>, v: int)
    ensures var f := Feed(stream); var g := Fed(f.0, v);
            Feed(stream + [v]) == (g.0, f.1 + g.1)
  {
    hide Fed;
    assert (stream + [v])[..|stream|] == stream;
  }

  /** Up to seven samples only add up. */
  lemma {:induction false} FeedSome(stream: seq<int>, v: int, n: nat)
    requires n <= 7 && Feed(stream).0.sum == Feed(stream).0.n == 0
    ensures Feed(stream + Repeated(v, n)) == (Feed(stream).0.(sum := n * v, n := n), Feed(stream).1)
  {
    hide Feed, Fed;
    if n == 0 {
      assert stream + Repeated(v, 0) == stream;
    } else {
      FeedSome(stream, v, n - 1);
      assert stream + Repeated(v, n) == stream + Repeated(v, n - 1) + [v];
      FeedOne(stream + Repeated(v, n - 1), v);
      FedAdds(Feed(stream).0, v, n - 1);
      assert Feed(stream).1 + [] == Feed(stream).1;
    }
  }

  lemma FedAdds(d: Drift, v: int, n: nat)
    requires n < 7
    ensures Fed(d.(sum := n * v, n := n), v) == (d.(sum := (n + 1) * v, n := n + 1), [])
  {
  }

  /** The eighth completes the group: the tracker and one residual follow. */
  lemma FeedGroup(stream: seq<int>, v: int)
    requires Feed(stream).0.sum == Feed(stream).0.n == 0
    ensures var d := Feed(stream).0; var dc := Tracked(d, v);
            Feed(stream + Repeated(v, 8)) == (Drift(0, 0, dc, true), Feed(stream).1 + [Clamp16(v - dc / 256)])
  {
    hide Feed, Fed, Clamp16, Tracked;
    FeedSome(stream, v, 7);
    assert stream + Repeated(v, 8) == stream + Repeated(v, 7) + [v];
    FeedOne(stream + Repeated(v, 7), v);
    FedCompletes(Feed(stream).0, v);
  }

  lemma FedCompletes(d: Drift, v: int)
    ensures var dc := Tracked(d, v);
            Fed(d.(sum := 7 * v, n := 7), v) == (Drift(0, 0, dc, true), [Clamp16(v - dc / 256)])
  {
    GroupMean(v);
    SameTracking(d, 7 * v, v);
    hide Tracked, TruncDiv, Clamp16;
  }

  lemma SameTracking(d: Drift, sum: int, v: int)
    ensures Tracked(d.(sum := sum, n := 7), v) == Tracked(d, v)
  {
  }

  lemma GroupMean(v: int)
    ensures TruncDiv(7 * v + v, 8) == v
  {
  }

  // ---- Holding the residual ---------------------------------------------------------------

  /** What the tracker keeps of its old level. */
  function Kept(dc: int): int { dc - (12 * dc + 255) / 256 }

  /** The input that leaves a residual of exactly 8192 at tracker level dc. */
  function Holding(dc: int): int { HELD + (12 * HELD + Kept(dc)) / 244 }

  lemma HoldingHolds(d: Drift, k: int)
    requires d.primed && 0 <= d.dc <= 256 * k + 255
    ensures var v := Holding(d.dc); var dc := Tracked(d, v);
            && v - dc / 256 == HELD && HELD <= v <= HELD + k + 403 && 0 <= dc <= 256 * (k + 403) + 255
  {
    var e := Kept(d.dc);
    assert 0 <= e <= 244 * k + 243;
    var x := 12 * HELD + e;
    var q := x / 244;
    var v := HELD + q;
    assert 244 * q <= x < 244 * q + 244 && 0 <= q <= k + 403;
    TrackedRising(d, v);
    assert Tracked(d, v) == x + 12 * q;
    hide Tracked, Kept;
    assert (x + 12 * q) / 256 == q;
  }

  lemma TrackedRising(d: Drift, v: int)
    requires d.primed && v == Holding(d.dc) && d.dc >= 0
    ensures Tracked(d, v) == 12 * v + Kept(d.dc)
  {
    assert v * 256 >= d.dc;
    var a := (v * 256 - d.dc) * 12;
    assert a == 256 * (12 * v) - 12 * d.dc && a >= 0;
    hide Holding;
  }

  /** Nothing for one group, then n groups that hold the residual. */
  ghost function Ramp(n: nat): seq<int> {
    if n == 0 then Repeated(0, 8) else Ramp(n - 1) + Repeated(Holding(Feed(Ramp(n - 1)).0.dc), 8)
  }

  lemma {:induction false} RampHolds(n: nat)
    requires n <= WINDOW
    ensures var f := Feed(Ramp(n));
            && f.0.sum == f.0.n == 0 && f.0.primed && 0 <= f.0.dc <= 256 * (403 * n) + 255
            && f.1 == [0] + Repeated(HELD, n)
    ensures forall i :: 0 <= i < |Ramp(n)| ==> IsU16(Ramp(n)[i])
  {
    hide Feed, Holding, Tracked, Repeated;
    if n == 0 {
      RampStarts();
    } else {
      RampHolds(n - 1);
      RampGoesOn(Ramp(n - 1), n - 1);
    }
  }

  lemma RampStarts()
    ensures Feed(Repeated(0, 8)) == (Drift(0, 0, 0, true), [0] + Repeated(HELD, 0))
  {
    assert Feed([]) == (REST, []);
    FeedGroup([], 0);
    assert Tracked(REST, 0) == 0;
    assert [] + Repeated(0, 8) == Repeated(0, 8);
    assert [] + [0] == [0] + Repeated(HELD, 0);
    hide Feed;
  }

  lemma RampGoesOn(before: seq<int>, n: nat)
    requires var f := Feed(before);
             && f.0.sum == f.0.n == 0 && f.0.primed && 0 <= f.0.dc <= 256 * (403 * n) + 255 && n < WINDOW
             && f.1 == [0] + Repeated(HELD, n)
    ensures var v := Holding(Feed(before).0.dc); var f := Feed(before + Repeated(v, 8));
            && f.0.sum == f.0.n == 0 && f.0.primed && 0 <= f.0.dc <= 256 * (403 * (n + 1)) + 255
            && f.1 == [0] + Repeated(HELD, n + 1) && IsU16(v)
  {
    hide Feed, Holding, Tracked;
    var d := Feed(before).0;
    HoldingHolds(d, 403 * n);
    FeedGroup(before, Holding(d.dc));
    assert [0] + Repeated(HELD, n) + [HELD] == [0] + Repeated(HELD, n + 1);
  }

  // ---- The window it leaves -----------------------------------------------------------------

  lemma {:induction false} EnergyOfConstant(v: seq<int>, m: int, b: nat)
    requires b <= |v| && forall i :: 0 <= i < |v| ==> v[i] == m
    ensures Energy(v, 0, b) == (m * m) * b
  {
    if b > 0 {
      EnergyOfConstant(v, m, b - 1);
      assert (m * m) * b == (m * m) * (b - 1) + m * m;
    }
  }

  /**
   The guard is fooled by a stream the input can carry: after it the window holds 64 residuals of 8192, the guard reads
   their load of 2^32 as 0 and stops at once, and the unscaled lag-0 sum does not fit an int32.
   */
  lemma ShiftWraps() returns (stream: seq<int>)
    ensures forall i :: 0 <= i < |stream| ==> IsU16(stream[i])
    ensures |Feed(stream).1| >= WINDOW
    ensures var x := Latest(Feed(stream).1, WINDOW);
            && IsMaxAbs(x, HELD) && Stops(HELD, WINDOW, 0) && !Trusted(HELD, WINDOW, 0)
            && !IsI32(Energy(Shifted(x, 0), 0, WINDOW))
  {
    stream := Ramp(WINDOW);
    RampHolds(WINDOW);
    hide Feed, Ramp, IsMaxAbs, Stops, Trusted, Energy, Shifted;
    var x := Latest(Feed(stream).1, WINDOW);
    assert x == Repeated(HELD, WINDOW);
    HeldWindow(x);
    GuardFooled();
  }

  lemma HeldWindow(x: seq<int>)
    requires |x| == WINDOW && forall i :: 0 <= i < WINDOW ==> x[i] == HELD
    ensures IsMaxAbs(x, HELD) && Energy(Shifted(x, 0), 0, WINDOW) == 0x1_0000_0000
  {
    assert Abs(x[0]) == HELD;
    var v := Shifted(x, 0);
    assert forall i :: 0 <= i < |v| ==> v[i] == HELD;
    EnergyOfConstant(v, HELD, WINDOW);
    hide Energy, Shifted;
  }

  lemma GuardFooled()
    ensures Stops(HELD, WINDOW, 0) && !Trusted(HELD, WINDOW, 0)
  {
    assert Load(HELD, WINDOW, 0) == 0x1_0000_0000;
    hide Load;
  }
}
