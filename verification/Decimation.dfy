/**
 What the FFT stages compute, bin by bin: the textbook decimation in time. A transform of 2^n
 samples at a stride is one butterfly of the transforms of its even and its odd samples, with the
 firmware's own truncating butterfly (smart_helmet_vitals.c, shFftRadix2).
 */
module Decimation {
  import opened CArithmetic
  import opened BitReversal
  import opened Butterfly

  /** The size of the transforms after n stages. */
  function Size(n: nat): (len: nat)
    requires n <= 6
    ensures len > 0
  {
    if n == 0 then 1 else if n == 1 then 2 else if n == 2 then 4 else if n == 3 then 8
    else if n == 4 then 16 else if n == 5 then 32 else 64
  }

  /** The distance of their samples in the input. */
  function Stride(n: nat): (d: nat)
    requires n <= 6
    ensures d > 0
  {
    Size(6 - n)
  }

  lemma Sizes(n: nat)
    requires 1 <= n <= 6
    ensures Size(n) == 2 * Size(n - 1) == StageSize(n - 1) && IsStage(Size(n))
    ensures Stride(n - 1) == 2 * Stride(n)
  {
  }

  lemma SizeIsPower(n: nat)
    requires n <= 6
    ensures Size(n) == Pow2(n)
  {
    if n > 0 {
      SizeIsPower(n - 1);
    }
  }

  /** Bin k of the 2^n-point transform of the samples r, r + Stride(n), r + 2 * Stride(n), ... */
  function Dit(s: Frame, n: nat, r: nat, k: nat): Complex
    requires n <= 6 && r < Stride(n) && k < Size(n)
  {
    if n == 0 then s[r]
    else
      Sizes(n);
      var h, d := Size(n - 1), Stride(n);
      Joined(Dit(s, n - 1, r, InHalf(h, k)), Dit(s, n - 1, r + d, InHalf(h, k)), h, d, k)
  }

  lemma TwiddleAtStride(n: nat, m: nat)
    requires 1 <= n <= 6 && IsStage(Size(n))
    ensures TwiddleIndex(Size(n), m) == m * Stride(n)
  {
  }

  lemma BlockStart(len: int, b: nat)
    requires IsStage(len)
    ensures Offset(len, b * len) == 0
  {
    StageIndexing(len, b * len);
    DivModUnique(b * len, len, b, 0);
  }

  lemma BlockFits(n: nat, b: nat)
    requires n <= 6 && b < Stride(n)
    ensures b * Size(n) + Size(n) <= POINTS
  {
    if n == 0 {
    } else if n == 1 {
    } else if n == 2 {
    } else if n == 3 {
    } else if n == 4 {
    } else if n == 5 {
    } else {
    }
  }

  /** Where a stage finds the two ends of the butterfly that makes bin k of the block at i. */
  lemma ButterflyAt(s: Frame, len: int, i: nat, k: nat)
    requires IsStage(len) && Offset(len, i) == 0 && i + len <= POINTS && k < len
    ensures StageAt(s, len, i + k) ==
            if k < len / 2 then Plus(Halve(s[i + k]), Rotate(s[i + k + len / 2], TwiddleIndex(len, k)))
            else Minus(Halve(s[i + k - len / 2]), Rotate(s[i + k], TwiddleIndex(len, k - len / 2)))
  {
    assert len > 0;
    hide IsStage, TwiddleIndex, Plus, Minus, Halve, Rotate, Offset;
    BlockIndexing(len, i, k);
  }

  /** Bin k from bin k (or k - h) of the even and of the odd half, each of size h, d apart. */
  function Joined(even: Complex, odd: Complex, h: nat, d: nat, k: nat): Complex {
    if k < h then Plus(Halve(even), Rotate(odd, k * d)) else Minus(Halve(even), Rotate(odd, (k - h) * d))
  }

  /** The place of bin k in its half. */
  function InHalf(h: nat, k: nat): nat { if k < h then k else k - h }

  lemma StageJoins(s: Frame, len: nat, h: nat, d: nat, i: nat, k: nat)
    requires IsStage(len) && Offset(len, i) == 0 && i + len <= POINTS && k < len == 2 * h
    requires TwiddleIndex(len, InHalf(h, k)) == InHalf(h, k) * d
    ensures StageAt(s, len, i + k) == Joined(s[i + InHalf(h, k)], s[i + h + InHalf(h, k)], h, d, k)
  {
    hide IsStage, TwiddleIndex, Plus, Minus, Halve, Rotate, Offset, StageAt;
    ButterflyAt(s, len, i, k);
  }

  /** The first sample of block b after n stages. */
  function Residue(n: nat, b: nat): (r: nat)
    requires n <= 6 && b < Stride(n)
    ensures r < Stride(n)
  {
    SizeIsPower(6 - n);
    Mirror(6 - n, b)
  }

  /** A block splits into the block of its even and the block of its odd samples. */
  lemma EvenAndOdd(n: nat, b: nat)
    requires 1 <= n <= 6 && b < Stride(n)
    ensures 2 * b + 1 < Stride(n - 1)
    ensures Residue(n - 1, 2 * b) == Residue(n, b)
    ensures Residue(n - 1, 2 * b + 1) == Residue(n, b) + Stride(n)
  {
    Sizes(n);
    SizeIsPower(6 - n);
    SizeIsPower(7 - n);
    hide Size, Stride;
    var bits := 6 - n;
    assert (2 * b) % 2 == 0 && (2 * b) / 2 == b;
    assert (2 * b + 1) % 2 == 1 && (2 * b + 1) / 2 == b;
    assert Mirror(bits + 1, 2 * b) == Mirror(bits, b);
    assert Mirror(bits + 1, 2 * b + 1) == Mirror(bits, b) + Pow2(bits);
  }

  /** After n stages, position k of block b holds bin k of the transform of the block's samples. */
  ghost predicate Decimated(s: Frame, f: Frame, n: nat)
    requires n <= 6
  {
    forall b: nat, k: nat :: b < Stride(n) && k < Size(n) ==> BinAt(s, f, n, b, k)
  }

  ghost predicate BinAt(s: Frame, f: Frame, n: nat, b: nat, k: nat)
    requires n <= 6 && b < Stride(n) && k < Size(n)
  {
    b * Size(n) + k < POINTS && f[b * Size(n) + k] == Dit(s, n, Residue(n, b), k)
  }

  lemma {:induction false} StagesDecimate(s: Frame, n: nat)
    requires n <= 6
    ensures Decimated(s, StageInput(s, n), n)
  {
    if n == 0 {
      forall b: nat, k: nat | b < Stride(n) && k < Size(n)
        ensures BinAt(s, Mirrored(s), n, b, k)
      {
        assert Mirrored(s)[b] == s[Mirror6(b)];
      }
    } else {
      StagesDecimate(s, n - 1);
      Sizes(n);
      forall b: nat, k: nat | b < Stride(n) && k < Size(n)
        ensures BinAt(s, StageInput(s, n), n, b, k)
      {
        EvenAndOdd(n, b);
        var m := InHalf(Size(n - 1), k);
        assert BinAt(s, StageInput(s, n - 1), n - 1, 2 * b, m) && BinAt(s, StageInput(s, n - 1), n - 1, 2 * b + 1, m);
        hide Size, Stride, BinAt, Stage, StageSize;
        StageDecimates(s, StageInput(s, n - 1), n, b, k);
      }
    }
  }

  lemma StageDecimates(s: Frame, f: Frame, n: nat, b: nat, k: nat)
    requires 1 <= n <= 6 && b < Stride(n) && k < Size(n) && Size(n) == 2 * Size(n - 1) && Stride(n - 1) == 2 * Stride(n)
    requires IsStage(Size(n))
    requires var m := InHalf(Size(n - 1), k); BinAt(s, f, n - 1, 2 * b, m) && BinAt(s, f, n - 1, 2 * b + 1, m)
    ensures BinAt(s, Stage(f, Size(n)), n, b, k)
  {
    hide Joined, StageAt, Residue, Size, Stride, IsStage, Offset, Dit, TwiddleIndex, BinAt, Stage;
    BlockFits(n, b);
    EvenAndOdd(n, b);
    BlockStart(Size(n), b);
    var h, d := Size(n - 1), Stride(n);
    TwiddleAtStride(n, InHalf(h, k));
    var i := b * Size(n);
    HalvesAt(s, f, n, b, InHalf(h, k), i);
    StageJoins(f, Size(n), h, d, i, k);
    DitJoins(s, n, Residue(n, b), k);
    assert Stage(f, Size(n))[i + k] == Dit(s, n, Residue(n, b), k);
    ThatBin(s, Stage(f, Size(n)), n, b, k, i);
  }

  lemma ThatBin(s: Frame, f: Frame, n: nat, b: nat, k: nat, i: nat)
    requires n <= 6 && b < Stride(n) && k < Size(n) && i == b * Size(n) && i + k < POINTS
    requires f[i + k] == Dit(s, n, Residue(n, b), k)
    ensures BinAt(s, f, n, b, k)
  {
    hide Dit, Residue, Size, Stride;
  }

  /** The halves of a block lie side by side. */
  lemma HalvesAt(s: Frame, f: Frame, n: nat, b: nat, m: nat, i: nat)
    requires 1 <= n <= 6 && 2 * b + 1 < Stride(n - 1) && m < Size(n - 1)
    requires Size(n) == 2 * Size(n - 1) && i == b * Size(n)
    requires BinAt(s, f, n - 1, 2 * b, m) && BinAt(s, f, n - 1, 2 * b + 1, m)
    ensures i + Size(n - 1) + m < POINTS
    ensures f[i + m] == Dit(s, n - 1, Residue(n - 1, 2 * b), m)
    ensures f[i + Size(n - 1) + m] == Dit(s, n - 1, Residue(n - 1, 2 * b + 1), m)
  {
    hide Dit, Residue, Stride;
    Halves(b, Size(n - 1));
    hide Size;
  }

  lemma DitJoins(s: Frame, n: nat, r: nat, k: nat)
    requires 1 <= n <= 6 && r < Stride(n) && k < Size(n)
    ensures Size(n) == 2 * Size(n - 1) && Stride(n - 1) == 2 * Stride(n)
    ensures var h, d := Size(n - 1), Stride(n);
            Dit(s, n, r, k) == Joined(Dit(s, n - 1, r, InHalf(h, k)), Dit(s, n - 1, r + d, InHalf(h, k)), h, d, k)
  {
    Sizes(n);
    hide Joined, Size, Stride;
  }

  lemma Halves(b: nat, h: nat)
    ensures 2 * b * h == b * (2 * h) && (2 * b + 1) * h == b * (2 * h) + h
  {
  }

  /** The in-place transform is the recursive one on every frame. */
  lemma FftDecimates(s: Frame, k: nat)
    requires k < POINTS
    ensures Fft(s)[k] == Dit(s, 6, 0, k)
  {
    StagesDecimate(s, 6);
    assert BinAt(s, StageInput(s, 6), 6, 0, k);
    assert Residue(6, 0) == 0;
    hide Dit, StageInput;
  }
}
