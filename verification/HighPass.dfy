/**
 The DC-removing high-pass filter (smart_helmet_vitals.c, shHighPass):
 y' = x - x_prev + y * 243/256, kept unclamped between samples.
 */
module HighPass {
  import opened CArithmetic

  datatype State = State(prevX: int, prevY: int)

  const ZERO := State(0, 0)

  /** The new unclamped output. */
  function Output(s: State, x: int): int { x - s.prevX + TruncDiv(s.prevY * 243, 256) }

  function Next(s: State, x: int): State { State(x, Output(s, x)) }

  function Clamp16(y: int): (r: int)
    ensures IsI16(r) && (IsI16(y) ==> r == y)
  {
    Max(Min(y, 32767), -32768)
  }

  function Run(s: State, xs: seq<int>): State {
    if xs == [] then s else Next(Run(s, xs[..|xs| - 1]), xs[|xs| - 1])
  }

  class Filter {
    var prevX: int
    var prevY: int

    function Abstract(): State
      reads this
    {
      State(prevX, prevY)
    }

    constructor ()
      ensures Abstract() == ZERO
    {
      prevX, prevY := 0, 0;
    }

    method Clear()
      modifies this
      ensures Abstract() == ZERO
    {
      prevX, prevY := 0, 0;
    }

    method Push(x: int) returns (hp: int)
      modifies this
      ensures Abstract() == Next(old(Abstract()), x)
      ensures hp == Clamp16(Output(old(Abstract()), x))
    {
      var y := x - prevX + TruncDiv(prevY * 243, 256);
      prevX := x;
      prevY := y;
      if y > 32767 {
        y := 32767;
      }
      if y < -32768 {
        y := -32768;
      }
      return y;
    }
  }

  // ---- Headroom over every stream --------------------------------------------------

  /** 13 |y| <= 65535 * 256: the fixed point of the worst-case recurrence. */
  ghost predicate Bounded(s: State) {
    IsU16(s.prevX) && Abs(s.prevY) * 13 <= 65535 * 256
  }

  lemma NextBounded(s: State, x: int)
    requires Bounded(s) && IsU16(x)
    ensures Bounded(Next(s, x)) && IsI32(s.prevY * 243) && IsI32(Output(s, x))
  {
    TruncDivBound(s.prevY * 243, 256);
  }

  /** For every stream of uint16 samples the state stays bounded, so no int32 operation overflows. */
  lemma {:induction false} RunBounded(xs: seq<int>)
    requires forall i :: 0 <= i < |xs| ==> IsU16(xs[i])
    ensures Bounded(Run(ZERO, xs))
  {
    if xs != [] {
      RunBounded(xs[..|xs| - 1]);
      NextBounded(Run(ZERO, xs[..|xs| - 1]), xs[|xs| - 1]);
    }
  }

  // ---- Settling on a constant input --------------------------------------------------

  /** The state after `n` more samples equal to the last one. */
  ghost function Held(s: State, n: nat): State {
    if n == 0 then s else Next(Held(s, n - 1), s.prevX)
  }

  lemma {:induction false} HeldAdds(s: State, m: nat, n: nat)
    ensures Held(Held(s, m), n) == Held(s, m + n) && Held(s, m).prevX == s.prevX
  {
    if n > 0 {
      HeldAdds(s, m, n - 1);
    } else if m > 0 {
      HeldAdds(s, m - 1, 0);
    }
  }

  /** Each held sample strictly shrinks a nonzero output and keeps its sign. */
  lemma HeldShrinks(s: State)
    ensures var y, y' := s.prevY, Held(s, 1).prevY;
            && Abs(y') * 256 <= Abs(y) * 243 && (y != 0 ==> Abs(y') < Abs(y))
            && (y >= 0 ==> y' >= 0) && (y <= 0 ==> y' <= 0)
  {
    assert Held(s, 0) == s;
    TruncDivBound(s.prevY * 243, 256);
  }

  /** `k` held samples shrink the output by (243/256)^k, in two fixed step sizes. */
  lemma HeldSeven(s: State)
    ensures Abs(Held(s, 7).prevY) * 0x100_0000_0000_0000 <= Abs(s.prevY) * 50031545098999707
  {
    var y1, y2, y3 := Held(s, 1), Held(s, 2), Held(s, 3);
    var y4, y5, y6 := Held(s, 4), Held(s, 5), Held(s, 6);
    HeldShrinks(s);
    HeldStep(s, 1);
    HeldStep(s, 2);
    HeldStep(s, 3);
    HeldStep(s, 4);
    HeldStep(s, 5);
    HeldStep(s, 6);
    hide Held;
  }

  lemma HeldStep(s: State, n: nat)
    ensures Abs(Held(s, n + 1).prevY) * 256 <= Abs(Held(s, n).prevY) * 243
  {
    HeldAdds(s, n, 1);
    HeldShrinks(Held(s, n));
  }

  /** Fourteen held samples at least halve the output. */
  lemma HeldHalves(s: State)
    ensures 2 * Abs(Held(s, 14).prevY) <= Abs(s.prevY)
  {
    HeldAdds(s, 7, 7);
    HeldSeven(s);
    HeldSeven(Held(s, 7));
    hide Held;
  }

  lemma {:induction false} HeldSettles(s: State, k: nat)
    requires Abs(s.prevY) < Pow2(k)
    ensures Held(s, 14 * k).prevY == 0
    decreases k
  {
    if k > 0 {
      HeldHalves(s);
      HeldSettles(Held(s, 14), k - 1);
      HeldAdds(s, 14, 14 * (k - 1));
    }
  }

  lemma {:induction false} ZeroStays(s: State, n: nat)
    requires s.prevY == 0
    ensures Held(s, n).prevY == 0 && Held(s, n).prevX == s.prevX
  {
    if n > 0 {
      ZeroStays(s, n - 1);
    }
  }

  lemma SettledFrom(s: State, k: nat, n: nat)
    requires Abs(s.prevY) < Pow2(k) && n >= 14 * k
    ensures Held(s, n).prevY == 0
  {
    HeldSettles(s, k);
    HeldAdds(s, 14 * k, n - 14 * k);
    ZeroStays(Held(s, 14 * k), n - 14 * k);
  }

  /**
   After any stream of uint16 samples, 294 equal samples (12 s at 25 Hz) bring the residual to
   exactly zero, where it stays.
   */
  lemma SettlesExactly(xs: seq<int>, n: nat)
    requires n >= 294 && forall i :: 0 <= i < |xs| ==> IsU16(xs[i])
    ensures Held(Run(ZERO, xs), n).prevY == 0
  {
    RunBounded(xs);
    assert Pow2(10) == 1024;
    assert Pow2(21) == 2097152;
    SettledFrom(Run(ZERO, xs), 21, n);
  }
}
