/**
 The butterfly stages of the 64-point fixed-point FFT (smart_helmet_vitals.c, shFftTwiddle
 and shFftRadix2). The firmware updates two arrays in place, one pair of bins at a time;
 `Stage` is the same stage written as one simultaneous update of the whole frame.
 */
module Butterfly {
  import opened CArithmetic
  import opened BitReversal

  /** cos(2*pi*k/64) in Q15 over the first quadrant, k = 0..16. */
  function QuarterCos(k: nat): int {
    if k == 0 then 32767 else if k == 1 then 32609 else if k == 2 then 32137 else if k == 3 then 31356
    else if k == 4 then 30273 else if k == 5 then 28898 else if k == 6 then 27245 else if k == 7 then
    25329 else if k == 8 then 23170 else if k == 9 then 20787 else if k == 10 then 18204 else if k == 11
    then 15446 else if k == 12 then 12539 else if k == 13 then 9512 else if k == 14 then 6393 else if k
    == 15 then 3212 else 0
  }

  /** The firmware's tables for k = 0..32: the second quadrant mirrors the first. */
  function CosQ15(k: nat): int
    requires k <= 32
  {
    if k <= 16 then QuarterCos(k) else -QuarterCos(32 - k)
  }

  function SinQ15(k: nat): int
    requires k <= 32
  {
    if k <= 16 then QuarterCos(16 - k) else QuarterCos(k - 16)
  }

  datatype Complex = Complex(re: int, im: int) {
    function Norm2(): int { re * re + im * im }
  }

  /** Inside the Q15 unit circle. */
  predicate UnitTwiddle(c: int, s: int) {
    c * c + s * s <= 0x4000_0000 && Abs(c) <= 32767 && Abs(s) <= 32767
  }

  /** exp(-j*2*pi*k/64) in Q15; the lower half of the circle is the conjugate of the upper. */
  function Twiddle(k: nat): (w: Complex)
    ensures UnitTwiddle(w.re, w.im)
  {
    var kk := k % POINTS;
    if kk <= 32 then
      TwiddleEntry(kk);
      Complex(CosQ15(kk), -SinQ15(kk))
    else
      TwiddleEntry(POINTS - kk);
      Complex(CosQ15(POINTS - kk), SinQ15(POINTS - kk))
  }

  /** No entry of the table lies outside the unit circle. */
  lemma TwiddleEntry(k: nat)
    requires k <= 32
    ensures UnitTwiddle(CosQ15(k), SinQ15(k)) && UnitTwiddle(CosQ15(k), -SinQ15(k))
  {
    hide UnitTwiddle, QuarterCos;
    var q := if k <= 16 then k else 32 - k;
    FirstQuadrant(q);
    Reflect(QuarterCos(q), QuarterCos(16 - q));
  }

  lemma Reflect(c: int, s: int)
    requires UnitTwiddle(c, s)
    ensures UnitTwiddle(c, -s) && UnitTwiddle(-c, s) && UnitTwiddle(-c, -s)
  {
    assert (-c) * (-c) == c * c;
    assert (-s) * (-s) == s * s;
  }

  lemma FirstQuadrant(k: nat)
    requires k <= 16
    ensures UnitTwiddle(QuarterCos(k), QuarterCos(16 - k))
  {
    hide UnitTwiddle;
    QuadrantLiterals();
  }

  lemma QuadrantLiterals()
    ensures UnitTwiddle(32767, 0) && UnitTwiddle(32609, 3212) && UnitTwiddle(32137, 6393) && UnitTwiddle(31356, 9512) && UnitTwiddle(30273, 12539)
    ensures UnitTwiddle(28898, 15446) && UnitTwiddle(27245, 18204) && UnitTwiddle(25329, 20787) && UnitTwiddle(23170, 23170)
    ensures UnitTwiddle(20787, 25329) && UnitTwiddle(18204, 27245) && UnitTwiddle(15446, 28898) && UnitTwiddle(12539, 30273)
    ensures UnitTwiddle(9512, 31356) && UnitTwiddle(6393, 32137) && UnitTwiddle(3212, 32609) && UnitTwiddle(0, 32767)
  {
  }

  function Halve(z: Complex): Complex {
    Complex(TruncDiv(z.re, 2), TruncDiv(z.im, 2))
  }

  /** The complex product the butterfly forms, before its division by 2^14. */
  function RawProduct(z: Complex, w: Complex): Complex {
    Complex(Halve(z).re * w.re - Halve(z).im * w.im, Halve(z).re * w.im + Halve(z).im * w.re)
  }

  function Rotate(z: Complex, k: nat): Complex {
    var r := RawProduct(z, Twiddle(k));
    Complex(TruncDiv(r.re, 16384), TruncDiv(r.im, 16384))
  }

  function Plus(u: Complex, t: Complex): Complex { Complex(u.re + t.re, u.im + t.im) }

  function Minus(u: Complex, t: Complex): Complex { Complex(u.re - t.re, u.im - t.im) }

  /** A frame of 64 complex bins. */
  type Frame = s: seq<Complex> | |s| == POINTS witness seq(POINTS, i => Complex(0, 0))

  /** The stage sizes 2, 4, ..., 64. */
  predicate IsStage(len: int) {
    len == 2 || len == 4 || len == 8 || len == 16 || len == 32 || len == 64
  }

  /** Position of bin `p` inside its block, p % len. */
  function Offset(len: int, p: nat): (o: nat)
    requires IsStage(len)
    ensures o < len
  {
    if len == 2 then p % 2
    else if len == 4 then p % 4
    else if len == 8 then p % 8
    else if len == 16 then p % 16
    else if len == 32 then p % 32
    else p % 64
  }

  /** The twiddle of offset `m`, m * 64 / len. */
  function TwiddleIndex(len: int, m: nat): nat
    requires IsStage(len)
  {
    if len == 2 then m * 32
    else if len == 4 then m * 16
    else if len == 8 then m * 8
    else if len == 16 then m * 4
    else if len == 32 then m * 2
    else m
  }

  /** The two case tables are the source's `%` and `/` on the stage size. */
  lemma StageIndexing(len: int, p: nat)
    requires IsStage(len)
    ensures Offset(len, p) == p % len && TwiddleIndex(len, p) == p * POINTS / len
  {
    if len == 2 {
    } else if len == 4 {
    } else if len == 8 {
    } else if len == 16 {
    } else if len == 32 {
    } else {
    }
  }

  lemma PartnerInRange(len: int, p: nat)
    requires IsStage(len) && p < POINTS
    ensures if Offset(len, p) < len / 2 then p + len / 2 < POINTS else p >= len / 2
  {
    if len == 2 {
    } else if len == 4 {
    } else if len == 8 {
    } else if len == 16 {
    } else if len == 32 {
    } else {
    }
  }

  /** The lower end of the butterfly that bin p belongs to. */
  function LowEnd(len: int, p: nat): (q: nat)
    requires IsStage(len) && p < POINTS
    ensures q <= p
  {
    PartnerInRange(len, p);
    if Offset(len, p) < len / 2 then p else p - len / 2
  }

  /**
   Each bin is an end of exactly one butterfly of a stage: its lower end q has offset below half, both ends are in
   range, they are p's only candidates, and both name the same lower end.
   */
  lemma PairedOnce(len: int, p: nat)
    requires IsStage(len) && p < POINTS
    ensures var q, half := LowEnd(len, p), len / 2;
            && Offset(len, q) < half && q + half < POINTS && (p == q || p == q + half)
            && Offset(len, q + half) == Offset(len, q) + half
            && LowEnd(len, q) == q && LowEnd(len, q + half) == q
  {
    WholeBlocks(len, p);
    hide Offset, IsStage;
    var q, half, i := LowEnd(len, p), len / 2, p - Offset(len, p);
    BlockIndexing(len, i, q - i);
    BlockIndexing(len, i, q - i + half);
  }

  lemma WholeBlocks(len: int, p: nat)
    requires IsStage(len)
    ensures p >= Offset(len, p) && Offset(len, p - Offset(len, p)) == 0 && len % 2 == 0
  {
    StageIndexing(len, p);
    var g := p / len;
    assert p == g * len + p % len && g >= 0;
    StageIndexing(len, p - p % len);
    DivModUnique(p - p % len, len, g, 0);
  }

  /** Bin `p` after the stage of size `len`: upper half of a block adds, lower half subtracts. */
  function StageAt(s: Frame, len: int, p: nat): Complex
    requires IsStage(len) && p < POINTS
  {
    PartnerInRange(len, p);
    var half, m := len / 2, Offset(len, p);
    if m < half then
      Plus(Halve(s[p]), Rotate(s[p + half], TwiddleIndex(len, m)))
    else
      Minus(Halve(s[p - half]), Rotate(s[p], TwiddleIndex(len, m - half)))
  }

  function Stage(s: Frame, len: int): (r: Frame)
    requires IsStage(len)
    ensures forall p :: 0 <= p < POINTS ==> r[p] == StageAt(s, len, p)
  {
    seq(POINTS, p requires 0 <= p < POINTS => StageAt(s, len, p))
  }

  function StageSize(n: nat): (len: int)
    requires n < 6
    ensures IsStage(len)
  {
    [2, 4, 8, 16, 32, 64][n]
  }

  /** The frame after bit reversal and the first `n` stages. */
  function StageInput(s: Frame, n: nat): Frame
    requires n <= 6
  {
    if n == 0 then Mirrored(s) else Stage(StageInput(s, n - 1), StageSize(n - 1))
  }

  /** The whole transform. */
  function Fft(s: Frame): Frame {
    StageInput(s, 6)
  }

  /** Every bin has complex magnitude at most `m`. */
  ghost predicate MagnitudeAtMost(s: Frame, m: int) {
    forall p :: 0 <= p < POINTS ==> s[p].Norm2() <= m * m
  }

  // ---- Growth of one butterfly --------------------------------------------

  lemma HalveNorm(z: Complex, m: int)
    requires m >= 0 && z.Norm2() <= (2 * m) * (2 * m)
    ensures Halve(z).Norm2() <= m * m
    ensures Abs(Halve(z).re) <= m && Abs(Halve(z).im) <= m
  {
    hide TruncDiv;
    TruncDivSquare(z.re, 2);
    TruncDivSquare(z.im, 2);
    SquareOfScaled(2, m);
    PartsBound(Halve(z), m);
  }

  lemma PartsBound(z: Complex, m: int)
    requires m >= 0 && z.Norm2() <= m * m
    ensures Abs(z.re) <= m && Abs(z.im) <= m
  {
    SquareNonneg(z.re);
    SquareNonneg(z.im);
    SquareOrder(z.re, m);
    SquareOrder(z.im, m);
  }

  lemma NormOfProduct(h: Complex, w: Complex)
    ensures Complex(h.re * w.re - h.im * w.im, h.re * w.im + h.im * w.re).Norm2() == h.Norm2() * w.Norm2()
  {
    var a, b, c, d := h.re, h.im, w.re, w.im;
    SquareOfSum(a * c, -(b * d));
    SquareOfSum(a * d, b * c);
    assert (a * c) * (b * d) == (a * d) * (b * c) by { Regroup(a, b, c, d); }
    SquareOfScaled(a, c);
    SquareOfScaled(a, d);
    SquareOfScaled(b, c);
    SquareOfScaled(b, d);
    ExpandProduct(a * a, b * b, c * c, d * d);
  }

  lemma Regroup(a: int, b: int, c: int, d: int)
    ensures (a * c) * (b * d) == (a * d) * (b * c)
  {
    calc {
      (a * c) * (b * d);
      a * (c * (b * d));
      { assert c * (b * d) == d * (b * c); }
      a * (d * (b * c));
      (a * d) * (b * c);
    }
  }

  lemma ExpandProduct(x: int, y: int, u: int, v: int)
    ensures (x + y) * (u + v) == x * u + x * v + y * u + y * v
  {
  }

  /** |z*w| = |z||w|, so the Q15 product stays below m * 2^15 in each part. */
  lemma RawProductNorm(z: Complex, w: Complex, m: int)
    requires m >= 0 && z.Norm2() <= (2 * m) * (2 * m)
    requires UnitTwiddle(w.re, w.im)
    ensures RawProduct(z, w).Norm2() <= (m * 32768) * (m * 32768)
    ensures Abs(RawProduct(z, w).re) <= m * 32768 && Abs(RawProduct(z, w).im) <= m * 32768
  {
    HalveNorm(z, m);
    NormOfProduct(Halve(z), w);
    NormNonneg(Halve(z));
    NormNonneg(w);
    MulOrder(Halve(z).Norm2(), m * m, w.Norm2(), 0x4000_0000);
    SquareOfScaled(32768, m);
    PartsBound(RawProduct(z, w), m * 32768);
  }

  lemma NormNonneg(z: Complex)
    ensures z.Norm2() >= 0
  {
    SquareNonneg(z.re);
    SquareNonneg(z.im);
  }

  lemma ScaledDownNorm(r: Complex, m: int)
    requires m >= 0 && r.Norm2() <= (m * 32768) * (m * 32768)
    ensures Complex(TruncDiv(r.re, 16384), TruncDiv(r.im, 16384)).Norm2() <= (2 * m) * (2 * m)
  {
    hide TruncDiv;
    TruncDivSquare(r.re, 16384);
    TruncDivSquare(r.im, 16384);
    SquareOfScaled(32768, m);
    SquareOfScaled(2, m);
  }

  /** Rotation by a twiddle does not grow the magnitude. */
  lemma RotateNorm(z: Complex, k: nat, m: int)
    requires m >= 0 && z.Norm2() <= (2 * m) * (2 * m)
    ensures Rotate(z, k).Norm2() <= (2 * m) * (2 * m)
  {
    hide Complex.Norm2, RawProduct, Twiddle, TruncDiv;
    RawProductNorm(z, Twiddle(k), m);
    ScaledDownNorm(RawProduct(z, Twiddle(k)), m);
  }

  /** |h + t| and |h - t| are at most 3m when |h| <= m and |t| <= 2m. */
  lemma SumNorm(h: Complex, t: Complex, m: int)
    requires h.Norm2() <= m * m && t.Norm2() <= (2 * m) * (2 * m)
    ensures Plus(h, t).Norm2() <= (3 * m) * (3 * m)
    ensures Minus(h, t).Norm2() <= (3 * m) * (3 * m)
  {
    PartsNorm(h.re, t.re);
    PartsNorm(h.im, t.im);
    SquareOfScaled(3, m);
    SquareOfScaled(2, m);
  }

  lemma PartsNorm(h: int, t: int)
    ensures 2 * ((h + t) * (h + t)) <= 6 * (h * h) + 3 * (t * t)
    ensures 2 * ((h - t) * (h - t)) <= 6 * (h * h) + 3 * (t * t)
  {
    SquareOfSum(h, t);
    SquareOfSum(2 * h, -t);
    SquareNonneg(2 * h - t);
    SquareOfSum(h, -t);
    SquareOfSum(2 * h, t);
    SquareNonneg(2 * h + t);
  }

  lemma ButterflyGrowth(u: Complex, z: Complex, k: nat, m: int)
    requires m >= 0 && u.Norm2() <= (2 * m) * (2 * m) && z.Norm2() <= (2 * m) * (2 * m)
    ensures Plus(Halve(u), Rotate(z, k)).Norm2() <= (3 * m) * (3 * m)
    ensures Minus(Halve(u), Rotate(z, k)).Norm2() <= (3 * m) * (3 * m)
  {
    hide Complex.Norm2, Halve, Rotate, Plus, Minus;
    HalveNorm(u, m);
    RotateNorm(z, k, m);
    SumNorm(Halve(u), Rotate(z, k), m);
  }

  lemma StageAtGrowth(s: Frame, len: int, p: nat, m: int)
    requires IsStage(len) && p < POINTS && m >= 0 && MagnitudeAtMost(s, 2 * m)
    ensures StageAt(s, len, p).Norm2() <= (3 * m) * (3 * m)
  {
    hide Complex.Norm2, Plus, Minus, Halve, Rotate, Offset, TwiddleIndex;
    PartnerInRange(len, p);
    var half, o := len / 2, Offset(len, p);
    if o < half {
      ButterflyGrowth(s[p], s[p + half], TwiddleIndex(len, o), m);
    } else {
      ButterflyGrowth(s[p - half], s[p], TwiddleIndex(len, o - half), m);
    }
  }

  /** One stage multiplies the largest magnitude by at most 3/2. */
  lemma StageGrowth(s: Frame, len: int, m: int)
    requires IsStage(len) && m >= 0 && MagnitudeAtMost(s, 2 * m)
    ensures MagnitudeAtMost(Stage(s, len), 3 * m)
  {
    forall p | 0 <= p < POINTS
      ensures Stage(s, len)[p].Norm2() <= (3 * m) * (3 * m)
    {
      StageAtGrowth(s, len, p, m);
    }
  }

  // ---- int32 headroom ------------------------------------------------------

  /** Every product, sum and difference of the butterfly on `u`, `z` fits an int32. */
  ghost predicate ButterflyFits(u: Complex, z: Complex, k: nat) {
    var w := Twiddle(k);
    var h := Halve(z);
    var r := RawProduct(z, w);
    var t := Rotate(z, k);
    && IsI32(h.re * w.re) && IsI32(h.im * w.im) && IsI32(h.re * w.im) && IsI32(h.im * w.re)
    && IsI32(r.re) && IsI32(r.im)
    && IsI32(Plus(Halve(u), t).re) && IsI32(Plus(Halve(u), t).im)
    && IsI32(Minus(Halve(u), t).re) && IsI32(Minus(Halve(u), t).im)
  }

  /** 2 * 62208 is the largest magnitude entering a stage; one more stage would overflow. */
  lemma ButterflyHeadroom(u: Complex, z: Complex, k: nat, m: int)
    requires 0 <= m <= 62208 && u.Norm2() <= (2 * m) * (2 * m) && z.Norm2() <= (2 * m) * (2 * m)
    ensures ButterflyFits(u, z, k)
  {
    var w, h, t := Twiddle(k), Halve(z), Rotate(z, k);
    HalveNorm(u, m);
    HalveNorm(z, m);
    RawProductNorm(z, w, m);
    RotateNorm(z, k, m);
    SumNorm(Halve(u), t, m);
    ProductBound(h.re, w.re, m);
    ProductBound(h.im, w.im, m);
    ProductBound(h.re, w.im, m);
    ProductBound(h.im, w.re, m);
    PartsBound(Plus(Halve(u), t), 3 * m);
    PartsBound(Minus(Halve(u), t), 3 * m);
  }

  lemma ProductBound(a: int, w: int, m: int)
    requires Abs(a) <= m && Abs(w) <= 32767
    ensures Abs(a * w) <= m * 32767
  {
    MulOrder(Abs(a), m, Abs(w), 32767);
    assert Abs(a * w) == Abs(a) * Abs(w);
  }

  /** All 32 butterflies of a stage fit. */
  ghost predicate StageFits(s: Frame, len: int)
    requires IsStage(len)
  {
    forall p :: 0 <= p < POINTS && Offset(len, p) < len / 2 && p + len / 2 < POINTS ==>
      ButterflyFits(s[p], s[p + len / 2], TwiddleIndex(len, Offset(len, p)))
  }

  lemma StageHeadroom(s: Frame, len: int, m: int)
    requires IsStage(len) && 0 <= m <= 62208 && MagnitudeAtMost(s, 2 * m)
    ensures StageFits(s, len)
  {
    forall p | 0 <= p < POINTS && Offset(len, p) < len / 2 && p + len / 2 < POINTS
      ensures ButterflyFits(s[p], s[p + len / 2], TwiddleIndex(len, Offset(len, p)))
    {
      ButterflyHeadroom(s[p], s[p + len / 2], TwiddleIndex(len, Offset(len, p)), m);
    }
  }

  lemma MirroredMagnitude(s: Frame, m: int)
    requires MagnitudeAtMost(s, m)
    ensures MagnitudeAtMost(Mirrored(s), m)
  {
  }

  /** 2^14 * (3/2)^n, the magnitude bound after `n` stages. */
  function StageBound(n: nat): (m: int)
    requires n <= 6
    ensures 0 < m && (n < 6 ==> m % 2 == 0 && m <= 124416)
  {
    [16384, 24576, 36864, 55296, 82944, 124416, 186624][n]
  }

  lemma {:induction false} StageInputBound(s: Frame, n: nat)
    requires n <= 6 && MagnitudeAtMost(s, 16384)
    ensures MagnitudeAtMost(StageInput(s, n), StageBound(n))
  {
    if n == 0 {
      MirroredMagnitude(s, 16384);
    } else {
      StageInputBound(s, n - 1);
      var m := StageBound(n - 1) / 2;
      assert StageBound(n) == 3 * m;
      StageGrowth(StageInput(s, n - 1), StageSize(n - 1), m);
    }
  }

  /**
   FFT headroom: from a frame of magnitude at most 2^14 no butterfly of any stage overflows an
   int32, the result stays within 186624 = 2^14 * (3/2)^6, and every bin power fits an int32.
   */
  lemma FftHeadroom(s: Frame)
    requires MagnitudeAtMost(s, 16384)
    ensures forall n :: 0 <= n < 6 ==> StageFits(StageInput(s, n), StageSize(n))
    ensures MagnitudeAtMost(Fft(s), 186624)
    ensures forall p :: 0 <= p < POINTS ==> BinPower(Fft(s)[p]) <= 23328 * 23328
  {
    hide Complex.Norm2, BinPower, StageFits, StageInput;
    forall n | 0 <= n < 6
      ensures StageFits(StageInput(s, n), StageSize(n))
    {
      StageInputBound(s, n);
      StageHeadroom(StageInput(s, n), StageSize(n), StageBound(n) / 2);
    }
    StageInputBound(s, 6);
    forall p | 0 <= p < POINTS
      ensures BinPower(Fft(s)[p]) <= 23328 * 23328
    {
      BinPowerBound(Fft(s)[p], 186624);
    }
  }

  /** The power the estimator reads from a bin: each part is divided by 8 first. */
  function BinPower(z: Complex): (p: int)
    ensures p >= 0
  {
    SquareMonotone(0, Abs(TruncDiv(z.re, 8)));
    SquareMonotone(0, Abs(TruncDiv(z.im, 8)));
    TruncDiv(z.re, 8) * TruncDiv(z.re, 8) + TruncDiv(z.im, 8) * TruncDiv(z.im, 8)
  }

  lemma BinPowerBound(z: Complex, m: int)
    requires m >= 0 && m % 8 == 0 && z.Norm2() <= m * m
    ensures BinPower(z) <= (m / 8) * (m / 8)
  {
    TruncDivSquare(z.re, 8);
    TruncDivSquare(z.im, 8);
    SquareOfScaled(8, m / 8);
  }

  // ---- The in-place transform ----------------------------------------------

  ghost function Bins(re: array<int>, im: array<int>): (s: Frame)
    requires re.Length == POINTS && im.Length == POINTS
    reads re, im
  {
    seq(POINTS, p requires 0 <= p < POINTS reads re, im => Complex(re[p], im[p]))
  }

  /** The bins already rewritten when the loops stand at block `i`, offset `m`. */
  ghost predicate Rewritten(len: int, i: int, m: int, p: int)
    requires IsStage(len)
  {
    p < i || (p < i + len && (p - i < m || (len / 2 <= p - i && p - i - len / 2 < m)))
  }

  ghost function PartialStage(s: Frame, len: int, i: int, m: int): Frame
    requires IsStage(len)
  {
    seq(POINTS, p requires 0 <= p < POINTS =>
      if Rewritten(len, i, m, p) then StageAt(s, len, p) else s[p])
  }

  lemma BlockIndexing(len: int, i: int, m: int)
    requires IsStage(len) && 0 <= i < POINTS && Offset(len, i) == 0 && 0 <= m < len
    ensures i + m < POINTS && Offset(len, i + m) == m && i + len <= POINTS && Offset(len, i + len) == 0
  {
    if len == 2 {
      BlockMod(2, i, m);
    } else if len == 4 {
      BlockMod(4, i, m);
    } else if len == 8 {
      BlockMod(8, i, m);
    } else if len == 16 {
      BlockMod(16, i, m);
    } else if len == 32 {
      BlockMod(32, i, m);
    } else {
      BlockMod(64, i, m);
    }
  }

  lemma BlockMod(d: int, i: int, m: int)
    requires 0 <= m < d && i % d == 0
    ensures (i + m) % d == m && (i + d) % d == 0
  {
    var g := i / d;
    assert i == g * d;
    DivModUnique(i + m, d, g, m);
    assert i + d == (g + 1) * d;
    DivModUnique(i + d, d, g + 1, 0);
  }

  lemma DivModUnique(x: int, d: int, q: int, r: int)
    requires d > 0 && x == q * d + r && 0 <= r < d
    ensures x % d == r
  {
    var k := x / d - q;
    assert k * d == r - x % d;
    if k >= 1 {
      MulOrder(1, k, d, d);
      assert false;
    } else if k <= -1 {
      MulOrder(1, -k, d, d);
      assert false;
    }
  }

  /** One butterfly on bins `p` and `p + half`. */
  lemma PartialStep(s: Frame, len: int, i: int, m: int)
    requires IsStage(len) && 0 <= i < POINTS && Offset(len, i) == 0 && 0 <= m < len / 2
    ensures i + m + len / 2 < POINTS && Offset(len, i + m) == m
    ensures PartialStage(s, len, i, m)[i + m] == s[i + m]
    ensures PartialStage(s, len, i, m)[i + m + len / 2] == s[i + m + len / 2]
    ensures PartialStage(s, len, i, m + 1) == WithButterfly(s, PartialStage(s, len, i, m), i + m, i + m + len / 2, TwiddleIndex(len, m))
  {
    hide Halve, Plus, Minus, Rotate, TwiddleIndex;
    BlockIndexing(len, i, m);
    BlockIndexing(len, i, m + len / 2);
    var before, after := PartialStage(s, len, i, m), PartialStage(s, len, i, m + 1);
    var p, q, k := i + m, i + m + len / 2, TwiddleIndex(len, m);
    assert after[p] == StageAt(s, len, p) == Plus(Halve(s[p]), Rotate(s[q], k));
    assert after[q] == StageAt(s, len, q) == Minus(Halve(s[p]), Rotate(s[q], k));
    forall x | 0 <= x < POINTS && x != p && x != q
      ensures after[x] == before[x]
    {
    }
  }

  /** `f` with bins `p` and `q` replaced by the butterfly of the same bins of `s`. */
  ghost function WithButterfly(s: Frame, f: Frame, p: nat, q: nat, k: nat): (r: Frame)
    requires p < q < POINTS
  {
    f[p := Plus(Halve(s[p]), Rotate(s[q], k))][q := Minus(Halve(s[p]), Rotate(s[q], k))]
  }

  lemma BlockDone(s: Frame, len: int, i: int)
    requires IsStage(len) && 0 <= i < POINTS && Offset(len, i) == 0
    ensures i + len <= POINTS && Offset(len, i + len) == 0
    ensures PartialStage(s, len, i, len / 2) == PartialStage(s, len, i + len, 0)
  {
    hide StageAt;
    BlockIndexing(len, i, 0);
  }

  lemma StageDone(s: Frame, len: int)
    requires IsStage(len)
    ensures PartialStage(s, len, 0, 0) == s
    ensures PartialStage(s, len, POINTS, 0) == Stage(s, len)
  {
  }

  method ApplyButterfly(re: array<int>, im: array<int>, p: nat, q: nat, k: nat)
    requires re.Length == POINTS && im.Length == POINTS && re != im && p < q < POINTS
    modifies re, im
    ensures Bins(re, im) == WithButterfly(old(Bins(re, im)), old(Bins(re, im)), p, q, k)
  {
    hide Twiddle, TruncDiv;
    var w := Twiddle(k);
    var tr := TruncDiv(TruncDiv(re[q], 2) * w.re - TruncDiv(im[q], 2) * w.im, 16384);
    var ti := TruncDiv(TruncDiv(re[q], 2) * w.im + TruncDiv(im[q], 2) * w.re, 16384);
    var ur, ui := TruncDiv(re[p], 2), TruncDiv(im[p], 2);
    assert Rotate(Complex(re[q], im[q]), k) == Complex(tr, ti);
    re[p] := ur + tr;
    im[p] := ui + ti;
    re[q] := ur - tr;
    im[q] := ui - ti;
  }

  method ApplyStage(re: array<int>, im: array<int>, len: int, ghost s: Frame)
    requires re.Length == POINTS && im.Length == POINTS && re != im
    requires IsStage(len) && s == Bins(re, im)
    modifies re, im
    ensures Bins(re, im) == Stage(s, len)
  {
    hide PartialStage, Stage, Halve, Rotate, Plus, Minus, TwiddleIndex;
    var half := len / 2;
    StageDone(s, len);
    var i := 0;
    while i < POINTS
      invariant 0 <= i <= POINTS && Offset(len, i) == 0
      invariant Bins(re, im) == PartialStage(s, len, i, 0)
    {
      for m := 0 to half
        invariant Bins(re, im) == PartialStage(s, len, i, m)
      {
        PartialStep(s, len, i, m);
        StageIndexing(len, m);
        ApplyButterfly(re, im, i + m, i + m + half, m * POINTS / len);
      }
      BlockDone(s, len, i);
      i := i + len;
    }
  }

  /** shFftRadix2: bit reversal, then the six stages. */
  method Radix2(re: array<int>, im: array<int>)
    requires re.Length == POINTS && im.Length == POINTS && re != im
    modifies re, im
    ensures Bins(re, im) == Fft(old(Bins(re, im)))
  {
    ghost var s := Bins(re, im);
    BitReverse(re, im);
    assert Bins(re, im) == Mirrored(s);
    var n := 0;
    var len := 2;
    while len <= POINTS
      invariant 0 <= n <= 6 && (n < 6 ==> len == StageSize(n)) && (n == 6 ==> len == 128)
      invariant Bins(re, im) == StageInput(s, n)
      decreases 6 - n
    {
      ApplyStage(re, im, len, Bins(re, im));
      len := len * 2;
      n := n + 1;
    }
  }
}
