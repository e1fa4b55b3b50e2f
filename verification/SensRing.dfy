/**
 The ordered, low-passed copy of the SENS_IN residual ring (smart_helmet_vitals.c: shCopySensOrdered).
 */
module SensRing {
  import opened CArithmetic
  import opened RingBuffer

  const CAPACITY: nat := 100

  // ---- The one-pole low pass ------------------------------------------------------

  /** y + (x - y) * 96/256, truncated toward zero. */
  function Smooth(y: int, x: int): int { y + TruncDiv((x - y) * 96, 256) }

  /** The forward pass over a chunk; the first sample starts the filter. */
  function LowPassed(s: seq<int>): (r: seq<int>)
    ensures |r| == |s|
  {
    if |s| <= 1 then s
    else
      var p := LowPassed(s[..|s| - 1]);
      p + [Smooth(p[|p| - 1], s[|s| - 1])]
  }

  lemma SmoothBetween(y: int, x: int)
    ensures Min(x, y) <= Smooth(y, x) <= Max(x, y)
  {
  }

  ghost predicate Within(s: seq<int>, lo: int, hi: int) {
    forall i :: 0 <= i < |s| ==> lo <= s[i] <= hi
  }

  /** The low pass never leaves the range of its input, so the int16 stores lose nothing. */
  lemma {:induction false} LowPassedWithin(s: seq<int>, lo: int, hi: int)
    requires Within(s, lo, hi)
    ensures Within(LowPassed(s), lo, hi)
  {
    if |s| > 1 {
      var n := |s| - 1;
      LowPassedWithin(s[..n], lo, hi);
      SmoothBetween(LowPassed(s[..n])[n - 1], s[n]);
    }
  }

  /** A larger input never gives a smaller output: the filter is monotone sample by sample. */
  lemma {:induction false} LowPassedMonotone(s: seq<int>, t: seq<int>, i: nat)
    requires |s| == |t| && i < |s| && forall k :: 0 <= k < |s| ==> s[k] <= t[k]
    ensures LowPassed(s)[i] <= LowPassed(t)[i]
  {
    if |s| > 1 {
      var n := |s| - 1;
      if i < n {
        LowPassedMonotone(s[..n], t[..n], i);
      } else {
        LowPassedMonotone(s[..n], t[..n], n - 1);
        SmoothMonotone(LowPassed(s[..n])[n - 1], s[n], LowPassed(t[..n])[n - 1], t[n]);
      }
    }
  }

  lemma SmoothMonotone(y: int, x: int, y': int, x': int)
    requires y <= y' && x <= x'
    ensures Smooth(y, x) <= Smooth(y', x')
  {
    assert Smooth(y, x) <= Smooth(y, x');
    assert Smooth(y, x') <= Smooth(y', x');
  }

  // ---- The copy ---------------------------------------------------------------------

  /** Copy the last n residuals oldest to newest and low-pass them in place. */
  method CopyOrdered(ring: Ring, ordered: array<int>, limit: nat) returns (n: nat)
    requires ring.Valid() && ring.cap == CAPACITY && ordered != ring.buf && ordered.Length == CAPACITY
    modifies ordered
    ensures ring.Valid() && ring.history == old(ring.history)
    ensures n == Min(limit, Min(|ring.history|, CAPACITY))
    ensures ordered[..n] == LowPassed(Latest(ring.history, n))
  {
    n := if limit > ring.count then ring.count else limit;
    if n == 0 {
      return;
    }
    ring.CopyLatest(n, ordered);
    hide LowPassed, Slot, Latest;
    LowPassInPlace(ordered, n);
  }

  /** The forward pass: each sample is replaced by the filter state it produces. */
  method LowPassInPlace(a: array<int>, n: nat)
    requires 0 < n <= a.Length
    modifies a
    ensures a[..n] == LowPassed(old(a[..n]))
    ensures a[n..] == old(a[n..])
  {
    hide TruncDiv;
    ghost var source := a[..n];
    ghost var rest := a[n..];
    var y := a[0];
    assert source[..1] == [source[0]];
    for i := 1 to n
      invariant a[..i] == LowPassed(source[..i]) && y == a[i - 1]
      invariant a[i..n] == source[i..]
      invariant a[n..] == rest
    {
      assert source[..i + 1][..i] == source[..i];
      assert a[i] == a[i..n][0] == source[i];
      assert source[i..][1..] == source[i + 1..];
      ghost var p := a[..i];
      y := y + TruncDiv((a[i] - y) * 96, 256);
      a[i] := y;
      assert a[..i + 1] == p + [y];
    }
    assert source[..n] == source;
  }
}
