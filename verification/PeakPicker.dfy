/**
 Peak picking and the median inter-beat interval (smart_helmet_vitals.c: shPeakBpm).
 */
module PeakPicker {
  import opened CArithmetic
  import opened IntervalSort
  import SignalLevels

  const MIN_DIST: nat := 8
  const MIN_IBI: nat := 8
  const MAX_IBI: nat := 37
  const LIST_SIZE: nat := 16

  // ---- Candidates and the clusters they fall into -------------------------------------

  predicate Candidate(x: seq<int>, thr: int, j: int) {
    1 <= j && j + 1 < |x| && x[j] > x[j - 1] && x[j] >= x[j + 1] && x[j] >= thr
  }

  /** One counted peak per cluster: the sample that opened it and the sample that represents it. */
  datatype Clusters = Clusters(starts: seq<nat>, tops: seq<nat>)

  function Last(s: seq<nat>): nat
    requires s != []
  {
    s[|s| - 1]
  }

  /** The clusters of the candidates below i. */
  function Clustered(x: seq<int>, thr: int, i: nat): (c: Clusters)
    requires i <= |x|
    ensures |c.starts| == |c.tops| <= i
    ensures forall k :: 0 <= k < |c.tops| ==> c.tops[k] < i
  {
    if i == 0 then Clusters([], []) else Joined(x, thr, Clustered(x, thr, i - 1), i - 1)
  }

  function Joined(x: seq<int>, thr: int, c: Clusters, j: nat): (d: Clusters)
    requires j < |x| && |c.starts| == |c.tops| <= j
    requires forall k :: 0 <= k < |c.tops| ==> c.tops[k] < j
    ensures |d.starts| == |d.tops| <= j + 1
    ensures forall k :: 0 <= k < |d.tops| ==> d.tops[k] < j + 1
  {
    if !Candidate(x, thr, j) then c
    else if c.tops == [] || j - Last(c.tops) >= MIN_DIST then Clusters(c.starts + [j], c.tops + [j])
    else if x[j] > x[Last(c.tops)] then c.(tops := c.tops[..|c.tops| - 1] + [j])
    else c
  }

  /** Candidate j lies in the reach of cluster k, and the cluster's top is its first maximum. */
  predicate Owns(x: seq<int>, c: Clusters, k: int, j: int)
    requires |c.starts| == |c.tops| && 0 <= j < |x|
  {
    && 0 <= k < |c.tops|
    && c.starts[k] <= j < c.tops[k] + MIN_DIST
    && c.tops[k] < |x|
    && x[j] <= x[c.tops[k]]
    && (j < c.tops[k] ==> x[j] < x[c.tops[k]])
  }

  /**
   What clustering means, without saying how it is computed: tops are candidates, reaches
   are disjoint, and every candidate belongs to a cluster whose top is at least as strong.
   */
  ghost predicate Partition(x: seq<int>, thr: int, i: int, c: Clusters) {
    && |c.starts| == |c.tops|
    && (forall k :: 0 <= k < |c.tops| ==> Member(x, thr, i, c, k))
    && (forall k :: 0 < k < |c.tops| ==> Apart(c, k))
    && (forall j :: 0 <= j < i && Candidate(x, thr, j) ==> exists k :: Owns(x, c, k, j))
  }

  ghost predicate Member(x: seq<int>, thr: int, i: int, c: Clusters, k: int)
    requires |c.starts| == |c.tops| && 0 <= k < |c.tops|
  {
    Candidate(x, thr, c.starts[k]) && Candidate(x, thr, c.tops[k]) && c.starts[k] <= c.tops[k] < i
  }

  ghost predicate Apart(c: Clusters, k: int)
    requires |c.starts| == |c.tops| && 0 < k < |c.tops|
  {
    c.tops[k - 1] + MIN_DIST <= c.starts[k]
  }

  lemma {:induction false} ClustersPartition(x: seq<int>, thr: int, i: nat)
    requires i <= |x|
    ensures Partition(x, thr, i, Clustered(x, thr, i))
  {
    if i > 0 {
      ClustersPartition(x, thr, i - 1);
      JoinKeeps(x, thr, Clustered(x, thr, i - 1), i - 1);
    }
  }

  lemma JoinKeeps(x: seq<int>, thr: int, c: Clusters, j: nat)
    requires j < |x| && |c.starts| == |c.tops| <= j
    requires forall k :: 0 <= k < |c.tops| ==> c.tops[k] < j
    requires Partition(x, thr, j, c)
    ensures Partition(x, thr, j + 1, Joined(x, thr, c, j))
  {
    var d := Joined(x, thr, c, j);
    var m := |c.tops|;
    hide Candidate;
    var i := j + 1;
    forall k | 0 <= k < |d.tops|
      ensures Member(x, thr, i, d, k)
    {
      if k < m {
        assert Member(x, thr, j, c, k);
      }
    }
    forall k | 0 < k < |d.tops|
      ensures Apart(d, k)
    {
      if k < m {
        assert Apart(c, k);
      }
    }
    forall q | 0 <= q < i && Candidate(x, thr, q)
      ensures exists k :: Owns(x, d, k, q)
    {
      if q < j {
        var k :| Owns(x, c, k, q);
        assert Owns(x, d, k, q);
      } else {
        var k := |d.tops| - 1;
        assert k < m ==> Member(x, thr, j, c, k);
        assert Owns(x, d, k, q);
      }
    }
  }

  /** Kept peaks are at least 8 samples apart, so a window of n samples holds at most (n + 5) / 8. */
  lemma {:induction false} TopsSpread(x: seq<int>, thr: int, i: int, c: Clusters, k: nat)
    requires Partition(x, thr, i, c) && k < |c.tops|
    ensures c.tops[k] >= 1 + MIN_DIST * k
  {
    assert Member(x, thr, i, c, k);
    if k > 0 {
      TopsSpread(x, thr, i, c, k - 1);
      assert Apart(c, k);
    }
  }

  lemma AtMostThirteen(x: seq<int>, thr: int, i: nat)
    requires i <= |x| <= 100
    ensures |Clustered(x, thr, i).tops| <= 13
  {
    ClustersPartition(x, thr, i);
    var c := Clustered(x, thr, i);
    if c.tops != [] {
      TopsSpread(x, thr, i, c, |c.tops| - 1);
      assert Member(x, thr, i, c, |c.tops| - 1);
    }
  }

  // ---- Intervals -------------------------------------------------------------------------

  ghost predicate Ordered(c: Clusters) {
    |c.starts| == |c.tops| && forall k :: 0 < k < |c.starts| ==> c.tops[k - 1] <= c.starts[k]
  }

  function WithoutLast(c: Clusters): Clusters
    requires |c.starts| == |c.tops| > 0
  {
    Clusters(c.starts[..|c.starts| - 1], c.tops[..|c.tops| - 1])
  }

  /** The distances from one top to the next start that are plausible beat intervals. */
  ghost function Intervals(c: Clusters): (r: seq<int>)
    requires Ordered(c)
    ensures |r| <= Max(|c.starts| - 1, 0)
    ensures forall k :: 0 <= k < |r| ==> MIN_IBI <= r[k] <= MAX_IBI
    decreases |c.starts|
  {
    if |c.starts| <= 1 then []
    else
      var m := |c.starts| - 1;
      var r := Intervals(WithoutLast(c));
      var ibi := c.starts[m] - c.tops[m - 1];
      if MIN_IBI <= ibi <= MAX_IBI then r + [ibi] else r
  }

  lemma ClusteredOrdered(x: seq<int>, thr: int, i: nat)
    requires i <= |x|
    ensures Ordered(Clustered(x, thr, i))
  {
    ClustersPartition(x, thr, i);
    var c := Clustered(x, thr, i);
    forall k | 0 < k < |c.starts|
      ensures c.tops[k - 1] <= c.starts[k]
    {
      assert Apart(c, k);
    }
  }

  /** The interval list of the candidates below i. */
  ghost function IntervalsOf(x: seq<int>, thr: int, i: nat): (r: seq<int>)
    requires i <= |x|
    ensures forall k :: 0 <= k < |r| ==> MIN_IBI <= r[k] <= MAX_IBI
    ensures |r| <= Max(|Clustered(x, thr, i).starts| - 1, 0)
  {
    var c := Clustered(x, thr, i);
    ClusteredOrdered(x, thr, i);
    Intervals(c)
  }

  /** Opening a cluster appends its interval, if plausible; moving a top changes nothing. */
  lemma {:induction false} IntervalsStep(x: seq<int>, thr: int, j: nat)
    requires j < |x|
    ensures var c, d := Clustered(x, thr, j), Clustered(x, thr, j + 1);
            var r := IntervalsOf(x, thr, j);
            IntervalsOf(x, thr, j + 1) ==
            if |d.tops| > |c.tops| && c.tops != [] && MIN_IBI <= j - Last(c.tops) <= MAX_IBI
            then r + [j - Last(c.tops)] else r
  {
    hide Clustered, Joined, Ordered, Intervals, Grown;
    var c := Clustered(x, thr, j);
    var d := ClusteredStep(x, thr, j, c);
    JoinedShape(x, thr, c, j);
    ClusteredOrdered(x, thr, j);
    ClusteredOrdered(x, thr, j + 1);
    IntervalsGrown(c, d, j);
  }

  /** A sample leaves the clusters alone, opens one or moves the last top. */
  ghost predicate Grown(c: Clusters, d: Clusters, j: nat) {
    || d == c
    || d == Clusters(c.starts + [j], c.tops + [j])
    || (c.tops != [] && d.starts == c.starts && |d.tops| == |c.tops| && d.tops[..|d.tops| - 1] == c.tops[..|c.tops| - 1])
  }

  lemma {:induction false} JoinedShape(x: seq<int>, thr: int, c: Clusters, j: nat)
    requires j < |x| && |c.starts| == |c.tops| <= j
    requires forall k :: 0 <= k < |c.tops| ==> c.tops[k] < j
    ensures Grown(c, Joined(x, thr, c, j), j)
  {
    hide Candidate;
  }

  lemma {:induction false} IntervalsGrown(c: Clusters, d: Clusters, j: nat)
    requires Ordered(c) && Ordered(d) && Grown(c, d, j)
    ensures Intervals(d) ==
            if |d.tops| > |c.tops| && c.tops != [] && MIN_IBI <= j - Last(c.tops) <= MAX_IBI
            then Intervals(c) + [j - Last(c.tops)] else Intervals(c)
  {
    hide Ordered, Intervals;
    if |d.tops| > |c.tops| {
      IntervalsAppend(c, d, j);
    } else if d != c {
      IntervalsTopMoves(c, d);
    }
  }

  lemma {:induction false} IntervalsAppend(c: Clusters, d: Clusters, j: nat)
    requires Ordered(c) && Ordered(d) && d == Clusters(c.starts + [j], c.tops + [j])
    ensures Intervals(d) ==
            if c.tops != [] && MIN_IBI <= j - Last(c.tops) <= MAX_IBI then Intervals(c) + [j - Last(c.tops)]
            else Intervals(c)
  {
    assert WithoutLast(d) == c;
  }

  lemma {:induction false} IntervalsTopMoves(c: Clusters, d: Clusters)
    requires Ordered(c) && Ordered(d) && c.starts == d.starts && c.tops != []
    requires d.tops[..|d.tops| - 1] == c.tops[..|c.tops| - 1]
    ensures Intervals(d) == Intervals(c)
  {
    var m := |c.tops| - 1;
    assert m > 0 ==> d.tops[m - 1] == d.tops[..m][m - 1] == c.tops[m - 1];
    assert WithoutLast(c) == WithoutLast(d);
  }

  method PickPeaks(x: seq<int>, thr: int, list: array<int>) returns (peaks: nat, count: nat)
    requires 2 <= |x| <= 100 && list.Length == LIST_SIZE
    modifies list
    ensures peaks == |Clustered(x, thr, |x| - 1).tops| <= 13
    ensures count <= 12 && list[..count] == IntervalsOf(x, thr, |x| - 1)
  {
    hide Clustered, IntervalsOf, Max;
    var n := |x|;
    var lastPeak := 0xff;
    peaks, count := 0, 0;
    var i := 1;
    ghost var c := Clusters([], []);
    FirstStep(x, thr);
    while i + 1 < n
      invariant 1 <= i <= n - 1
      invariant c == Clustered(x, thr, i) && peaks == |c.tops| <= 13
      invariant lastPeak == if c.tops == [] then 0xff else Last(c.tops)
      invariant count <= peaks && (peaks > 0 ==> count < peaks)
      invariant list[..count] == IntervalsOf(x, thr, i)
    {
      ghost var d := ClusteredStep(x, thr, i, c);
      IntervalsStep(x, thr, i);
      AtMostThirteen(x, thr, i + 1);
      var yi := x[i];
      if yi <= x[i - 1] || yi < x[i + 1] || yi < thr {
      } else if lastPeak != 0xff && i - lastPeak < MIN_DIST {
        if yi > x[lastPeak] {
          lastPeak := i;
        }
      } else {
        if lastPeak != 0xff {
          var ibi := i - lastPeak;
          if MIN_IBI <= ibi <= MAX_IBI && count < LIST_SIZE {
            ghost var before := list[..count];
            list[count] := ibi;
            assert list[..count + 1] == before + [ibi];
            count := count + 1;
          }
        }
        lastPeak := i;
        peaks := peaks + 1;
      }
      c := d;
      i := i + 1;
    }
  }

  lemma FirstStep(x: seq<int>, thr: int)
    requires 1 <= |x|
    ensures Clustered(x, thr, 1) == Clusters([], []) && IntervalsOf(x, thr, 1) == []
  {
    assert Clustered(x, thr, 0) == Clusters([], []);
  }

  ghost function ClusteredStep(x: seq<int>, thr: int, j: nat, c: Clusters): (d: Clusters)
    requires j < |x| && c == Clustered(x, thr, j)
    ensures d == Clustered(x, thr, j + 1) == Joined(x, thr, c, j)
  {
    Clustered(x, thr, j + 1)
  }

  // ---- The median ------------------------------------------------------------------------

  /** The sorted list's middle, in Q8: the middle entry or the mean of the middle two. */
  function MedianQ8(t: seq<int>): int
    requires t != []
  {
    var h := |t| / 2;
    if |t| % 2 == 1 then t[h] * 256 else (t[h - 1] + t[h]) * 256 / 2
  }

  function MedianOf(s: seq<int>): int
    requires s != []
  {
    MedianQ8(SortedCopy(s))
  }

  /** Half of the sorted intervals lie on each side of the median. */
  lemma MedianHalves(s: seq<int>, i: nat)
    requires i < |s|
    ensures var t := SortedCopy(s);
            && (2 * i < |s| ==> t[i] * 256 <= MedianOf(s))
            && (2 * i >= |s| - 1 ==> MedianOf(s) <= t[i] * 256)
  {
    SortedCopyCorrect(s);
    MedianSplits(SortedCopy(s), i);
  }

  lemma MedianSplits(t: seq<int>, i: nat)
    requires Sorted(t) && i < |t|
    ensures 2 * i < |t| ==> t[i] * 256 <= MedianQ8(t)
    ensures 2 * i >= |t| - 1 ==> MedianQ8(t) <= t[i] * 256
  {
    var h := |t| / 2;
    assert i < h ==> t[i] <= t[h];
    assert i < h - 1 ==> t[i] <= t[h - 1];
    assert h < i ==> t[h] <= t[i];
    assert h > 0 && h - 1 < i ==> t[h - 1] <= t[i];
    hide Sorted;
  }

  lemma MedianBlind(s: seq<int>, t: seq<int>)
    requires s != [] && multiset(s) == multiset(t)
    ensures t != [] && MedianOf(s) == MedianOf(t)
  {
    assert s[0] in multiset(t);
    SortedCopyCorrect(s);
    SortedCopyCorrect(t);
    SortedUnique(SortedCopy(s), SortedCopy(t));
  }

  ghost predicate Plausible(s: seq<int>) {
    s != [] && forall k :: 0 <= k < |s| ==> MIN_IBI <= s[k] <= MAX_IBI
  }

  /** The median of plausible intervals is one too; neither uint16 step of it truncates. */
  lemma MedianFits(s: seq<int>)
    requires Plausible(s)
    ensures 2048 <= MedianOf(s) <= 9472
    ensures Plausible(SortedCopy(s))
  {
    SortedCopyCorrect(s);
    SamePlausible(s, SortedCopy(s));
    hide SortedCopy;
  }

  lemma SamePlausible(s: seq<int>, t: seq<int>)
    requires Plausible(s) && multiset(s) == multiset(t)
    ensures Plausible(t)
  {
    assert s[0] in multiset(t);
    forall k | 0 <= k < |t|
      ensures MIN_IBI <= t[k] <= MAX_IBI
    {
      assert t[k] in multiset(s);
    }
  }

  // ---- The estimate ------------------------------------------------------------------------

  function Deviation(v: int, mid: int): nat { Abs(v * 256 - mid) }

  /** Every interval within 35% of the median; not asked of one or two intervals. */
  ghost predicate Regular(s: seq<int>, mid: int) {
    |s| >= 3 ==> forall k :: 0 <= k < |s| ==> Deviation(s[k], mid) * 100 <= mid * 35
  }

  lemma RegularEither(s: seq<int>, t: seq<int>, mid: int)
    requires multiset(s) == multiset(t)
    ensures Regular(s, mid) == Regular(t, mid)
  {
    if Regular(s, mid) {
      RegularBlind(s, t, mid);
    } else if Regular(t, mid) {
      RegularBlind(t, s, mid);
    }
  }

  lemma RegularBlind(s: seq<int>, t: seq<int>, mid: int)
    requires multiset(s) == multiset(t) && Regular(s, mid)
    ensures Regular(t, mid)
  {
    assert |multiset(s)| == |s| && |multiset(t)| == |t|;
    forall k | |t| >= 3 && 0 <= k < |t|
      ensures Deviation(t[k], mid) * 100 <= mid * 35
    {
      assert t[k] in multiset(s);
    }
  }

  function Threshold(x: seq<int>): int
    requires x != []
  {
    Max(SignalLevels.SumAbs(x) / |x| * 384 / 256, 5)
  }

  /** The intervals the estimate rests on. */
  ghost function Beats(x: seq<int>): (r: seq<int>)
    requires x != []
    ensures forall k :: 0 <= k < |r| ==> MIN_IBI <= r[k] <= MAX_IBI
  {
    IntervalsOf(x, Threshold(x), |x| - 1)
  }

  /** How many peaks are counted; short chunks are not searched. */
  ghost function PeakCount(x: seq<int>): nat {
    if |x| < 19 then 0 else |Clustered(x, Threshold(x), |x| - 1).tops|
  }

  /** What the picker promises of its result. */
  ghost predicate Estimated(x: seq<int>, fsQ8: int, bpm: int) {
    if x != [] && |x| >= 19 && Rhythmic(Beats(x), fsQ8) then
      bpm == 60 * fsQ8 / MedianOf(Beats(x))
    else
      bpm == 0
  }

  ghost predicate Rhythmic(iv: seq<int>, fsQ8: int) {
    iv != [] && MedianOf(iv) > 0 && Regular(iv, MedianOf(iv)) && 40 <= 60 * fsQ8 / MedianOf(iv) <= 180
  }

  /** The largest deviation of the sorted intervals from their median. */
  method WorstDeviation(l: array<int>, n: nat, mid: int) returns (worst: nat)
    requires n <= l.Length
    ensures forall k :: 0 <= k < n ==> Deviation(l[k], mid) <= worst
    ensures worst == 0 || exists k :: 0 <= k < n && Deviation(l[k], mid) == worst
  {
    worst := 0;
    for i := 0 to n
      invariant forall k :: 0 <= k < i ==> Deviation(l[k], mid) <= worst
      invariant worst == 0 || exists k :: 0 <= k < i && Deviation(l[k], mid) == worst
    {
      var d := l[i] * 256 - mid;
      if d < 0 {
        d := -d;
      }
      if d > worst {
        worst := d;
        assert Deviation(l[i], mid) == worst;
      }
    }
  }

  /** Sorts the list and takes its middle; the uint16 results are exact. */
  method SortedMedian(list: array<int>, count: nat) returns (mid: int)
    requires 0 < count <= list.Length && Plausible(list[..count])
    modifies list
    ensures mid == MedianOf(old(list[..count])) && 2048 <= mid <= 9472
    ensures multiset(list[..count]) == multiset(old(list[..count]))
    ensures Sorted(list[..count])
  {
    hide SortedCopy, Sorted;
    ghost var iv := list[..count];
    MedianFits(iv);
    SortedCopyCorrect(iv);
    Sort(list, count);
    ghost var t := list[..count];
    var h := count / 2;
    assert list[h] == t[h];
    if count % 2 == 1 {
      mid := list[h] * 256;
    } else {
      assert list[h - 1] == t[h - 1];
      mid := (list[h - 1] + list[h]) * 256 / 2;
    }
  }

  /** The spread test, which asks the sorted list what Regular asks of the beats. */
  method SpreadAccepted(list: array<int>, count: nat, mid: int) returns (ok: bool)
    requires count <= list.Length && mid > 0
    ensures ok == Regular(list[..count], mid)
  {
    if count < 3 {
      return true;
    }
    ghost var t := list[..count];
    var worst := WorstDeviation(list, count, mid);
    ok := worst * 100 <= mid * 35;
    if ok {
      forall k | 0 <= k < |t|
        ensures Deviation(t[k], mid) * 100 <= mid * 35
      {
        assert t[k] == list[k];
      }
    } else {
      var k :| 0 <= k < count && Deviation(list[k], mid) == worst;
      assert t[k] == list[k];
    }
  }

  /** The median-and-spread part, on the intervals already collected. */
  method RhythmBpm(list: array<int>, count: nat, fsQ8: int) returns (bpm: int)
    requires count <= list.Length && 1600 <= fsQ8 <= 25600
    requires count > 0 ==> Plausible(list[..count])
    modifies list
    ensures var iv := old(list[..count]);
            bpm == if Rhythmic(iv, fsQ8) then 60 * fsQ8 / MedianOf(iv) else 0
  {
    hide MedianOf, Regular, Plausible;
    ghost var iv := list[..count];
    if count == 0 {
      return 0;
    }
    var mid := SortedMedian(list, count);
    RegularEither(iv, list[..count], mid);
    var ok := SpreadAccepted(list, count, mid);
    if !ok {
      return 0;
    }
    RateFits(fsQ8, mid);
    bpm := 60 * fsQ8 / mid;
    assert IsU16(bpm);
    if bpm < 40 || bpm > 180 {
      bpm := 0;
    }
  }

  lemma RateFits(fsQ8: int, mid: int)
    requires 1600 <= fsQ8 <= 25600 && 2048 <= mid
    ensures 0 <= 60 * fsQ8 / mid <= 750
  {
    var q := 60 * fsQ8 / mid;
    if q > 750 {
      MulOrder(751, q, 2048, mid);
      assert false;
    }
  }

  /** shPeakBpm: at most 13 peaks, and the rate of the median interval exactly when it is regular. */
  method PeakBpm(x: seq<int>, fsQ8: int) returns (bpm: int, peaks: nat)
    requires |x| <= 100 && 1600 <= fsQ8 <= 25600 && forall i :: 0 <= i < |x| ==> IsI16(x[i])
    ensures Estimated(x, fsQ8, bpm) && (bpm == 0 || 40 <= bpm <= 180)
    ensures peaks == PeakCount(x) <= 13
  {
    if |x| < 2 * MIN_DIST + 3 {
      return 0, 0;
    }
    var mean := SignalLevels.MeanAbs(x);
    var thr := mean * 384 / 256;
    if thr < 5 {
      thr := 5;
    }
    assert thr == Threshold(x);
    hide SignalLevels.SumAbs, Clustered, IntervalsOf, SortedCopy;
    var list := new int[LIST_SIZE];
    var count;
    peaks, count := PickPeaks(x, thr, list);
    bpm := RhythmBpm(list, count, fsQ8);
  }
}
