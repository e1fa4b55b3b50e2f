/**
 The bit-reversal pass of the 64-point FFT (smart_helmet_vitals.c, shFftRadix2).
 The firmware walks a counter `i` upward and keeps `j` as its mirror image by
 propagating the carry from the top bit down, swapping each pair once.
 */
module BitReversal {
  import opened CArithmetic

  const POINTS: nat := 64

  /** The `b`-bit mirror image of `i`. */
  function Mirror(b: nat, i: nat): (r: nat)
    requires i < Pow2(b)
    ensures r < Pow2(b)
  {
    if b == 0 then 0 else (if i % 2 == 1 then Pow2(b - 1) else 0) + Mirror(b - 1, i / 2)
  }

  lemma SixBits()
    ensures Pow2(6) == POINTS
  {
    assert Pow2(3) == 8;
  }

  /** The mirror image of a FFT index. */
  function Mirror6(i: nat): (r: nat)
    requires i < POINTS
    ensures r < POINTS
  {
    SixBits();
    Mirror(6, i)
  }

  /** A number with its top bit apart. */
  function WithTop(b: nat, top: bool, lo: nat): (i: nat)
    requires b > 0 && lo < Pow2(b - 1)
    ensures i < Pow2(b)
  {
    if top then Pow2(b - 1) + lo else lo
  }

  /** Peeling the top bit instead of the bottom one. */
  lemma {:induction false} MirrorFromTop(b: nat, top: bool, lo: nat)
    requires b > 0 && lo < Pow2(b - 1)
    ensures Mirror(b, WithTop(b, top, lo)) == 2 * Mirror(b - 1, lo) + if top then 1 else 0
  {
    if b > 1 {
      var i := WithTop(b, top, lo);
      assert i % 2 == lo % 2 && i / 2 == WithTop(b - 1, top, lo / 2);
      MirrorFromTop(b - 1, top, lo / 2);
    }
  }

  /** Mirroring twice gives the index back. */
  lemma {:induction false} MirrorInvolution(b: nat, i: nat)
    requires i < Pow2(b)
    ensures Mirror(b, Mirror(b, i)) == i
  {
    if b > 0 {
      var h := Pow2(b - 1);
      var lo := if i < h then i else i - h;
      MirrorFromTop(b, i >= h, lo);
      MirrorInvolution(b - 1, lo);
    }
  }

  /** The data reordered by mirrored index: what one pass of the swap loop must produce. */
  function Mirrored<T>(s: seq<T>): (r: seq<T>)
    requires |s| == POINTS
    ensures |r| == POINTS
    ensures forall p :: 0 <= p < POINTS ==> r[p] == s[Mirror6(p)]
  {
    seq(POINTS, p requires 0 <= p < POINTS => s[Mirror6(p)])
  }

  /** Running the pass twice restores the data. */
  lemma MirroredTwice<T>(s: seq<T>)
    requires |s| == POINTS
    ensures Mirrored(Mirrored(s)) == s
  {
    SixBits();
    forall p | 0 <= p < POINTS
      ensures Mirrored(Mirrored(s))[p] == s[p]
    {
      MirrorInvolution(6, p);
    }
  }

  lemma MirrorCases(i: nat)
    requires i < POINTS
    ensures Mirror6(Mirror6(i)) == i
    ensures Mirror6(0) == 0 && Mirror6(63) == 63
  {
    SixBits();
    MirrorInvolution(6, i);
    assert Mirror(3, 7) == 7 && Mirror(3, 0) == 0;
    assert Mirror(6, 63) == 63 && Mirror(6, 0) == 0;
  }

  /** The data once every index below `i` has been visited. */
  ghost function PartlyMirrored(s: seq<int>, i: nat): (r: seq<int>)
    requires |s| == POINTS
    ensures |r| == POINTS
  {
    seq(POINTS, p requires 0 <= p < POINTS =>
      if p < i || Mirror6(p) < i then s[Mirror6(p)] else s[p])
  }

  function Swapped(s: seq<int>, i: nat, j: nat): (r: seq<int>)
    requires i < |s| && j < |s|
    ensures |r| == |s|
  {
    s[i := s[j]][j := s[i]]
  }

  /** Visiting `i` extends the mirrored part: the pair is exchanged exactly once. */
  lemma VisitIndex(s: seq<int>, i: nat)
    requires |s| == POINTS && i < POINTS
    ensures PartlyMirrored(s, i + 1) ==
            (if i < Mirror6(i) then Swapped(PartlyMirrored(s, i), i, Mirror6(i)) else PartlyMirrored(s, i))
  {
    var j := Mirror6(i);
    var before := PartlyMirrored(s, i);
    var after := if i < j then Swapped(before, i, j) else before;
    MirrorCases(i);
    forall p | 0 <= p < POINTS
      ensures PartlyMirrored(s, i + 1)[p] == after[p]
    {
      MirrorCases(p);
    }
  }

  lemma NoneAndAllVisited(s: seq<int>)
    requires |s| == POINTS
    ensures PartlyMirrored(s, 0) == s
    ensures PartlyMirrored(s, POINTS - 1) == Mirrored(s)
  {
    forall p | 0 <= p < POINTS
      ensures PartlyMirrored(s, POINTS - 1)[p] == Mirrored(s)[p]
    {
      MirrorCases(p);
    }
  }

  method Swap(a: array<int>, i: nat, j: nat)
    requires i < a.Length && j < a.Length
    modifies a
    ensures a[..] == Swapped(old(a[..]), i, j)
    ensures multiset(a[..]) == multiset(old(a[..]))
  {
    a[i], a[j] := a[j], a[i];
  }

  /** One digit of the mirrored counter: a clear top bit is set, a set one carries. */
  lemma MirrorCarry(b: nat, c: nat)
    requires b > 0 && c + 1 < Pow2(b)
    ensures c % 2 == 0 ==> Mirror(b, c) < Pow2(b - 1) && Mirror(b, c + 1) == Mirror(b, c) + Pow2(b - 1)
    ensures c % 2 == 1 ==>
              && b > 1 && c / 2 + 1 < Pow2(b - 1) && Mirror(b, c) == Pow2(b - 1) + Mirror(b - 1, c / 2)
              && Mirror(b, c + 1) == Mirror(b - 1, c / 2 + 1)
    ensures b > 1 ==> Pow2(b - 1) / 2 == Pow2(b - 2)
  {
    if c % 2 == 0 {
      assert (c + 1) % 2 == 1 && (c + 1) / 2 == c / 2;
    } else {
      assert (c + 1) % 2 == 0 && (c + 1) / 2 == c / 2 + 1;
    }
  }

  /** Before the first probe all six bits of the counter are undecided. */
  lemma AllUndecided(i: nat) returns (b: nat)
    requires i + 1 < POINTS
    ensures b > 0 && i + 1 < Pow2(b) && Pow2(b - 1) == POINTS / 2
    ensures Mirror6(i) == Mirror(b, i) && Mirror6(i + 1) == Mirror(b, i + 1)
  {
    SixBits();
    assert Pow2(5) == 32;
    b := 6;
  }

  /**
   The carry of the mirrored counter. `b` and `c` describe how much of the counter is
   still undecided; because `i` is not the last index a clear bit is always found, so
   the probe bit `k` never reaches zero.
   */
  method NextMirror(i: nat, j0: nat) returns (j: nat)
    requires i + 1 < POINTS && j0 == Mirror6(i)
    ensures j == Mirror6(i + 1)
  {
    hide Mirror, Mirror6, Pow2;
    j := j0;
    var k := POINTS / 2;
    ghost var b := AllUndecided(i);
    ghost var c := i;
    while k <= j
      invariant b > 0 && 0 <= c && c + 1 < Pow2(b) && k == Pow2(b - 1)
      invariant j == Mirror(b, c) && Mirror6(i + 1) == Mirror(b, c + 1)
      decreases k
    {
      MirrorCarry(b, c);
      j := j - k;
      k := k / 2;
      b, c := b - 1, c / 2;
    }
    MirrorCarry(b, c);
    j := j + k;
  }

  method BitReverse(re: array<int>, im: array<int>)
    requires re.Length == POINTS && im.Length == POINTS && re != im
    modifies re, im
    ensures re[..] == Mirrored(old(re[..])) && im[..] == Mirrored(old(im[..]))
    ensures multiset(re[..]) == multiset(old(re[..])) && multiset(im[..]) == multiset(old(im[..]))
  {
    ghost var re0, im0 := re[..], im[..];
    var j := 0;
    MirrorCases(0);
    NoneAndAllVisited(re0);
    NoneAndAllVisited(im0);
    for i := 0 to POINTS - 1
      invariant 0 <= j < POINTS && j == Mirror6(i)
      invariant re[..] == PartlyMirrored(re0, i) && im[..] == PartlyMirrored(im0, i)
      invariant multiset(re[..]) == multiset(re0) && multiset(im[..]) == multiset(im0)
    {
      VisitIndex(re0, i);
      VisitIndex(im0, i);
      if i < j {
        Swap(re, i, j);
        Swap(im, i, j);
      }
      j := NextMirror(i, j);
    }
  }
}
