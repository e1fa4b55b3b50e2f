/**
 The pulse-change detector (smart_helmet_vitals.c, shUpdateHrChange): a slow personal BPM
 baseline and a two-sided CUSUM on the deviation from it.
 */
module Cusum {
  import opened CArithmetic

  const BPM_MIN := 40
  const BPM_MAX := 180
  const LEARN_WINDOWS := 8
  const STALE_WINDOWS := 15
  const SLACK_BPM := 3
  const SLACK_PCT := 5
  const LIMIT := 24
  const LEARN_Q8 := 64
  const TRACK_Q8 := 12

  datatype Change = Unknown | Stable | Rising | Falling

  /** A calm window as the detector sees it. */
  datatype Reading = NoPulse | Pulse(bpm: nat) {
    predicate Valid() { Pulse? ==> BPM_MIN <= bpm <= BPM_MAX }
  }

  datatype State = State(base: int, learned: nat, invalidRun: nat, up: int, down: int, change: Change)

  const INITIAL := State(0, 0, 0, 0, 0, Unknown)

  /** The dead band around a baseline: 3 BPM or 5 percent, whichever is larger. */
  function Slack(base: int): int { Max(SLACK_BPM, TruncDiv(base * SLACK_PCT, 100)) }

  /** A gap in the readings; a long one discards everything learned. */
  function Gap(s: State): State {
    var run := Min(s.invalidRun + 1, 0xffff);
    if run >= STALE_WINDOWS then State(0, 0, run, 0, 0, Unknown) else s.(invalidRun := run)
  }

  /** Accumulate one deviation past the slack, between 0 and 0xffff. */
  function Accumulate(acc: int, excess: int): int {
    Min(Max(acc + excess, 0), 0xffff)
  }

  function Measure(s: State, bpm: nat): State {
    var base := if s.base == 0 then bpm else s.base;
    var slack := Slack(base);
    var dev := bpm - base;
    if s.learned < LEARN_WINDOWS then
      State(base + TruncDiv(dev * LEARN_Q8, 256), s.learned + 1, 0, 0, 0, s.change)
    else
      var up, down := Accumulate(s.up, dev - slack), Accumulate(s.down, -dev - slack);
      if up >= LIMIT then State(bpm, s.learned, 0, 0, 0, Rising)
      else if down >= LIMIT then State(bpm, s.learned, 0, 0, 0, Falling)
      else State(base + TruncDiv(dev * TRACK_Q8, 256), s.learned, 0, up, down, Stable)
  }

  /** One calm window. */
  function Next(s: State, r: Reading): State {
    match r
    case NoPulse => Gap(s)
    case Pulse(bpm) => if bpm == 0 then Gap(s) else Measure(s, bpm)
  }

  function Run(s: State, rs: seq<Reading>): State {
    if rs == [] then s else Next(Run(s, rs[..|rs| - 1]), rs[|rs| - 1])
  }

  // ---- The firmware's variables ----------------------------------------------

  class Detector {
    var baseBpm: int
    var baseN: nat
    var invalidRun: nat
    var cusumUp: int
    var cusumDown: int
    var change: Change
    var deltaBpm: int

    function Abstract(): State
      reads this
    {
      State(baseBpm, baseN, invalidRun, cusumUp, cusumDown, change)
    }

    constructor ()
      ensures Abstract() == INITIAL
    {
      baseBpm, baseN, invalidRun, cusumUp, cusumDown, change, deltaBpm := 0, 0, 0, 0, 0, Unknown, 0;
    }

    method Clear()
      modifies this
      ensures Abstract() == INITIAL
    {
      baseBpm, baseN, invalidRun, cusumUp, cusumDown, change, deltaBpm := 0, 0, 0, 0, 0, Unknown, 0;
    }

    method Forget()
      modifies this
      ensures Abstract() == Gap(old(Abstract()))
    {
      invalidRun := if invalidRun < 0xffff then invalidRun + 1 else 0xffff;
      if invalidRun >= STALE_WINDOWS {
        baseBpm, baseN, cusumUp, cusumDown, change := 0, 0, 0, 0, Unknown;
      }
      deltaBpm := 0;
    }

    /** Both accumulators take the deviation past the slack. */
    method Accumulators(dev: int, slack: int)
      modifies `cusumUp, `cusumDown
      ensures cusumUp == Accumulate(old(cusumUp), dev - slack)
      ensures cusumDown == Accumulate(old(cusumDown), -dev - slack)
    {
      cusumUp := cusumUp + (dev - slack);
      if cusumUp < 0 { cusumUp := 0; }
      cusumDown := cusumDown + (-dev - slack);
      if cusumDown < 0 { cusumDown := 0; }
      if cusumUp > 0xffff { cusumUp := 0xffff; }
      if cusumDown > 0xffff { cusumDown := 0xffff; }
    }

    method Update(hrValid: bool, hrBpm: nat)
      modifies this
      ensures Abstract() == Next(old(Abstract()), if hrValid then Pulse(hrBpm) else NoPulse)
    {
      hide Accumulate, TruncDiv, Gap;
      if !hrValid || hrBpm == 0 {
        Forget();
        return;
      }
      invalidRun := 0;
      if baseBpm == 0 {
        baseBpm := hrBpm;
      }
      var slack := SLACK_BPM;
      var prop := TruncDiv(baseBpm * SLACK_PCT, 100);
      if prop > slack {
        slack := prop;
      }
      assert slack == Slack(baseBpm);
      hide Slack;
      var dev := hrBpm - baseBpm;
      if baseN < LEARN_WINDOWS {
        baseN := baseN + 1;
        baseBpm := baseBpm + TruncDiv(dev * LEARN_Q8, 256);
        cusumUp, cusumDown := 0, 0;
      } else {
        Accumulators(dev, slack);
        if cusumUp >= LIMIT {
          change, baseBpm, cusumUp, cusumDown := Rising, hrBpm, 0, 0;
        } else if cusumDown >= LIMIT {
          change, baseBpm, cusumUp, cusumDown := Falling, hrBpm, 0, 0;
        } else {
          change := Stable;
          baseBpm := baseBpm + TruncDiv(dev * TRACK_Q8, 256);
        }
      }
      deltaBpm := dev;
    }
  }

  // ---- What every run keeps ----------------------------------------------------

  /** All pulses of the run lie in lo..hi. */
  ghost predicate Confined(rs: seq<Reading>, lo: int, hi: int) {
    forall i :: 0 <= i < |rs| && rs[i].Pulse? ==> lo <= rs[i].bpm <= hi
  }

  ghost predicate Kept(s: State, lo: int, hi: int) {
    && 0 <= s.up < LIMIT && 0 <= s.down < LIMIT
    && (s.base == 0 || lo <= s.base <= hi)
    && s.learned <= LEARN_WINDOWS
    && (s.base == 0 ==> s.learned == 0)
    && (s.learned < LEARN_WINDOWS ==> s.up == 0 && s.down == 0)
    && (s.change != Unknown ==> s.learned == LEARN_WINDOWS)
  }

  /** A fractional step toward a target never passes it. */
  lemma StepToward(base: int, bpm: int, q: int)
    requires 0 <= q <= 256
    ensures var b := base + TruncDiv((bpm - base) * q, 256); Min(base, bpm) <= b <= Max(base, bpm)
  {
    var dev := bpm - base;
    TruncDivBound(dev * q, 256);
    if dev >= 0 {
      MulOrder(dev, dev, q, 256);
    } else {
      MulOrder(-dev, -dev, q, 256);
      assert (-dev) * q == -(dev * q);
    }
  }

  lemma NextKeeps(s: State, r: Reading, lo: int, hi: int)
    requires 0 < lo <= hi && Kept(s, lo, hi) && (r.Pulse? ==> lo <= r.bpm <= hi)
    ensures Kept(Next(s, r), lo, hi)
  {
    if r.Pulse? {
      hide TruncDiv;
      var base := if s.base == 0 then r.bpm else s.base;
      StepToward(base, r.bpm, LEARN_Q8);
      StepToward(base, r.bpm, TRACK_Q8);
    }
  }

  /**
   Over every run the accumulators stay below the alarm level between windows, the baseline is
   absent or inside the hull of the pulses seen, and a change is flagged only after the baseline
   was learned over eight valid windows.
   */
  lemma {:induction false} RunKeeps(rs: seq<Reading>, lo: int, hi: int)
    requires 0 < lo <= hi && Confined(rs, lo, hi)
    ensures Kept(Run(INITIAL, rs), lo, hi)
  {
    if rs != [] {
      var n := |rs| - 1;
      RunKeeps(rs[..n], lo, hi);
      NextKeeps(Run(INITIAL, rs[..n]), rs[n], lo, hi);
    }
  }

  // ---- No false alarm inside the dead band --------------------------------------

  ghost predicate Quiet(s: State, lo: int) {
    && Kept(s, lo, lo + Slack(lo)) && s.up == 0 && s.down == 0
    && (s.change == Unknown || s.change == Stable)
  }

  lemma SlackGrows(lo: int, base: int)
    requires 0 <= lo <= base
    ensures Slack(lo) <= Slack(base)
  {
  }

  lemma NextQuiet(s: State, r: Reading, lo: int)
    requires 0 < lo && Quiet(s, lo) && (r.Pulse? ==> lo <= r.bpm <= lo + Slack(lo))
    ensures Quiet(Next(s, r), lo)
  {
    NextKeeps(s, r, lo, lo + Slack(lo));
    if r.Pulse? {
      SlackGrows(lo, if s.base == 0 then r.bpm else s.base);
      hide TruncDiv, Slack;
    }
  }

  /** Rates confined to one slack width never raise a change, whatever gaps occur. */
  lemma {:induction false} NoFalseAlarm(rs: seq<Reading>, lo: int)
    requires 0 < lo && Confined(rs, lo, lo + Slack(lo))
    ensures Quiet(Run(INITIAL, rs), lo)
  {
    if rs != [] {
      var n := |rs| - 1;
      NoFalseAlarm(rs[..n], lo);
      NextQuiet(Run(INITIAL, rs[..n]), rs[n], lo);
    }
  }

  // ---- Detection of a sustained shift ---------------------------------------------

  /** Number of pulses in the run. */
  ghost function Pulses(rs: seq<Reading>): nat {
    if rs == [] then 0 else Pulses(rs[..|rs| - 1]) + if rs[|rs| - 1].Pulse? then 1 else 0
  }

  /** Length of the gap the run ends with, after a gap of length `g` before it. */
  ghost function TrailingGap(rs: seq<Reading>, g: nat): nat {
    if rs == [] then g else if rs[|rs| - 1].Pulse? then 0 else TrailingGap(rs[..|rs| - 1], g) + 1
  }

  /** Every pulse of the run reads `bpm`, and no gap is long enough to forget the baseline. */
  ghost predicate Sustained(rs: seq<Reading>, bpm: nat, g: nat) {
    forall n :: 0 <= n <= |rs| ==>
      && TrailingGap(rs[..n], g) < STALE_WINDOWS
      && (n < |rs| && rs[n].Pulse? ==> rs[n].bpm == bpm)
  }

  lemma SustainedPrefix(rs: seq<Reading>, bpm: nat, g: nat, n: nat)
    requires Sustained(rs, bpm, g) && n <= |rs|
    ensures Sustained(rs[..n], bpm, g)
  {
    forall k | 0 <= k <= n
      ensures rs[..n][..k] == rs[..k]
    {
    }
  }

  /** A learned detector at rest on baseline `b`. */
  ghost predicate Resting(s: State, b: int) {
    && s.base == b && BPM_MIN <= b <= BPM_MAX && s.learned == LEARN_WINDOWS
    && s.up == 0 && s.down == 0 && s.invalidRun < STALE_WINDOWS
  }

  /** The integer ceiling of 24 / excess: how many windows the accumulator needs. */
  function AlarmWindow(excess: int): (k: int)
    requires excess > 0
    ensures (k - 1) * excess < LIMIT <= k * excess && k >= 1
  {
    var k := (LIMIT + excess - 1) / excess;
    assert k * excess <= LIMIT + excess - 1 < (k + 1) * excess;
    assert (k - 1) * excess == k * excess - excess;
    k
  }

  lemma SmallShiftFreezes(d: int)
    requires -21 <= d <= 21
    ensures TruncDiv(d * TRACK_Q8, 256) == 0
  {
  }

  /** One valid window of the shift while the accumulator stays below the limit. */
  lemma ShiftStep(t: State, b: int, bpm: nat, acc: int)
    requires t.base == b > 0 && t.learned == LEARN_WINDOWS && 0 <= acc
    requires Slack(b) < Abs(bpm - b) <= 21 && acc + (Abs(bpm - b) - Slack(b)) < LIMIT
    requires t.up == (if bpm > b then acc else 0) && t.down == (if bpm > b then 0 else acc)
    ensures var acc' := acc + (Abs(bpm - b) - Slack(b));
            Measure(t, bpm) == State(b, LEARN_WINDOWS, 0, if bpm > b then acc' else 0, if bpm > b then 0 else acc', Stable)
  {
    SmallShiftFreezes(bpm - b);
    hide TruncDiv;
  }

  /** What the pulses of a run add up to at `e` each. */
  ghost function Total(rs: seq<Reading>, e: int): int {
    if rs == [] then 0 else Total(rs[..|rs| - 1], e) + if rs[|rs| - 1].Pulse? then e else 0
  }

  lemma {:induction false} TotalIsProduct(rs: seq<Reading>, e: int)
    requires e > 0
    ensures Total(rs, e) == Pulses(rs) * e >= 0
  {
    if rs != [] {
      TotalIsProduct(rs[..|rs| - 1], e);
    }
  }

  /**
   Before the alarm a sustained shift of at most 21 BPM leaves the baseline where it is and adds
   its excess over the slack once per valid window.
   */
  lemma {:induction false} ShiftAccumulates(s: State, b: int, bpm: nat, rs: seq<Reading>, e: int)
    requires Resting(s, b) && Sustained(rs, bpm, s.invalidRun)
    requires 0 < e == Abs(bpm - b) - Slack(b) && Abs(bpm - b) <= 21 && Total(rs, e) < LIMIT
    ensures var t := Run(s, rs);
            && t.base == b && t.learned == LEARN_WINDOWS && t.invalidRun == TrailingGap(rs, s.invalidRun)
            && t.up == (if bpm > b then Total(rs, e) else 0) && t.down == (if bpm > b then 0 else Total(rs, e))
            && t.change == if Pulses(rs) == 0 then s.change else Stable
  {
    hide Slack, Measure;
    if rs != [] {
      var n := |rs| - 1;
      SustainedPrefix(rs, bpm, s.invalidRun, n);
      assert rs[..|rs|] == rs;
      ShiftAccumulates(s, b, bpm, rs[..n], e);
      TotalIsProduct(rs[..n], e);
      if rs[n].Pulse? {
        ShiftStep(Run(s, rs[..n]), b, bpm, Total(rs[..n], e));
      }
    }
  }

  lemma BelowLimit(p: nat, e: int)
    requires e > 0 && p < AlarmWindow(e)
    ensures p * e < LIMIT
  {
    MulOrder(p, AlarmWindow(e) - 1, e, e);
  }

  /** The window that takes the accumulator over the limit. */
  lemma AlarmStep(t: State, b: int, bpm: nat, acc: int)
    requires t.base == b > 0 && t.learned == LEARN_WINDOWS && 0 <= acc < LIMIT
    requires Slack(b) < Abs(bpm - b) <= 21 && acc + (Abs(bpm - b) - Slack(b)) >= LIMIT
    requires t.up == (if bpm > b then acc else 0) && t.down == (if bpm > b then 0 else acc)
    ensures Measure(t, bpm) == State(bpm, LEARN_WINDOWS, 0, 0, 0, if bpm > b then Rising else Falling)
  {
    hide TruncDiv;
  }

  /**
   Detection: a sustained shift of more than the slack and at most 21 BPM raises the alarm, in
   its own direction, exactly at the ceil(24 / (shift - slack))-th valid window and not before;
   the detector then rests on the new rate.
   */
  lemma ShiftDetected(s: State, b: int, bpm: nat, rs: seq<Reading>)
    requires Resting(s, b) && BPM_MIN <= bpm <= BPM_MAX && Sustained(rs, bpm, s.invalidRun)
    requires Slack(b) < Abs(bpm - b) <= 21
    requires rs != [] && rs[|rs| - 1].Pulse? && Pulses(rs) == AlarmWindow(Abs(bpm - b) - Slack(b))
    ensures Run(s, rs).change == (if bpm > b then Rising else Falling) && Resting(Run(s, rs), bpm)
    ensures forall n :: 0 <= n < |rs| ==> Run(s, rs[..n]).change == if Pulses(rs[..n]) == 0 then s.change else Stable
  {
    var last := |rs| - 1;
    var e := Abs(bpm - b) - Slack(b);
    hide Slack, Measure;
    forall n | 0 <= n < |rs|
      ensures Run(s, rs[..n]).change == if Pulses(rs[..n]) == 0 then s.change else Stable
    {
      ShiftPending(s, b, bpm, rs, n, e);
    }
    ShiftPending(s, b, bpm, rs, last, e);
    TotalIsProduct(rs, e);
    assert rs[..|rs|] == rs;
    assert Total(rs, e) >= LIMIT;
    AlarmStep(Run(s, rs[..last]), b, bpm, Total(rs[..last], e));
  }

  /** Any earlier point of the run, seen from its alarm window. */
  lemma ShiftPending(s: State, b: int, bpm: nat, rs: seq<Reading>, n: nat, e: int)
    requires Resting(s, b) && Sustained(rs, bpm, s.invalidRun)
    requires 0 < e == Abs(bpm - b) - Slack(b) && Abs(bpm - b) <= 21
    requires n < |rs| && rs[|rs| - 1].Pulse? && Pulses(rs) == AlarmWindow(e)
    ensures var t := Run(s, rs[..n]);
            var acc := Total(rs[..n], e);
            && t.base == b && t.learned == LEARN_WINDOWS && 0 <= acc < LIMIT
            && t.up == (if bpm > b then acc else 0) && t.down == (if bpm > b then 0 else acc)
            && t.change == if Pulses(rs[..n]) == 0 then s.change else Stable
  {
    hide Slack, Run;
    SustainedPrefix(rs, bpm, s.invalidRun, n);
    PulsesMonotone(rs, n);
    BelowLimit(Pulses(rs[..n]), e);
    TotalIsProduct(rs[..n], e);
    ShiftAccumulates(s, b, bpm, rs[..n], e);
  }

  lemma PulsesMonotone(rs: seq<Reading>, n: nat)
    requires n < |rs| && rs[|rs| - 1].Pulse?
    ensures Pulses(rs[..n]) < Pulses(rs)
  {
    PulsesOfPrefix(rs[..|rs| - 1], n);
    assert rs[..|rs| - 1][..n] == rs[..n];
  }

  lemma {:induction false} PulsesOfPrefix(rs: seq<Reading>, n: nat)
    requires n <= |rs|
    ensures Pulses(rs[..n]) <= Pulses(rs)
  {
    if n < |rs| {
      PulsesOfPrefix(rs[..|rs| - 1], n);
      assert rs[..|rs| - 1][..n] == rs[..n];
    } else {
      assert rs[..n] == rs;
    }
  }

  /** Gaps between the first two pulses of a sustained run change nothing but the length of the gap. */
  lemma {:induction false} FirstPulses(s: State, b: int, bpm: nat, rs: seq<Reading>)
    requires Resting(s, b) && BPM_MIN <= bpm <= BPM_MAX && Sustained(rs, bpm, s.invalidRun) && Pulses(rs) <= 1
    ensures var t := if Pulses(rs) == 0 then s else Measure(s, bpm);
            Run(s, rs) == t.(invalidRun := TrailingGap(rs, s.invalidRun))
  {
    hide Slack, TruncDiv, Accumulate;
    if rs != [] {
      var n := |rs| - 1;
      SustainedPrefix(rs, bpm, s.invalidRun, n);
      assert rs[..|rs|] == rs;
      FirstPulses(s, b, bpm, rs[..n]);
      GapIgnored(s, bpm, TrailingGap(rs[..n], s.invalidRun));
      hide Measure;
    }
  }

  lemma GapIgnored(s: State, bpm: nat, g: nat)
    ensures Measure(s.(invalidRun := g), bpm) == Measure(s, bpm) && Measure(s, bpm).invalidRun == 0
  {
  }

  /** The two windows of a larger shift. */
  lemma LargeShiftSteps(s: State, b: int, bpm: nat)
    requires Resting(s, b) && BPM_MIN <= bpm <= BPM_MAX && Abs(bpm - b) > 21
    ensures var dir := if bpm > b then Rising else Falling;
            var t := Measure(s, bpm); var u := Measure(t, bpm);
            && (Abs(bpm - b) - Slack(b) >= LIMIT ==> t == State(bpm, LEARN_WINDOWS, 0, 0, 0, dir))
            && (Abs(bpm - b) - Slack(b) < LIMIT ==> t.change == Stable && u == State(bpm, LEARN_WINDOWS, 0, 0, 0, dir))
  {
  }

  /**
   A larger shift is flagged at its first valid window exactly when its excess alone reaches the limit, and at its second
   otherwise, through any gaps shorter than 15; either way the detector comes to rest on the new rate.
   */
  lemma LargeShiftDetected(s: State, b: int, bpm: nat, rs: seq<Reading>)
    requires Resting(s, b) && BPM_MIN <= bpm <= BPM_MAX && Abs(bpm - b) > 21 && Sustained(rs, bpm, s.invalidRun)
    requires rs != [] && rs[|rs| - 1].Pulse?
    ensures var dir := if bpm > b then Rising else Falling;
            var t, atOnce := Run(s, rs), Abs(bpm - b) - Slack(b) >= LIMIT;
            && (Pulses(rs) == 1 && atOnce ==> t.change == dir && Resting(t, bpm))
            && (Pulses(rs) == 1 && !atOnce ==> t.change == Stable)
            && (Pulses(rs) == 2 && !atOnce ==> t.change == dir && Resting(t, bpm))
  {
    hide Slack, TruncDiv, Accumulate, Measure;
    var n := |rs| - 1;
    LargeShiftSteps(s, b, bpm);
    SustainedPrefix(rs, bpm, s.invalidRun, n);
    if Pulses(rs) <= 2 {
      FirstPulses(s, b, bpm, rs[..n]);
      GapIgnored(s, bpm, TrailingGap(rs[..n], s.invalidRun));
      GapIgnored(Measure(s, bpm), bpm, TrailingGap(rs[..n], s.invalidRun));
    }
  }

  /** A shift inside the slack is never flagged: the dead band is exact. */
  lemma {:induction false} SmallShiftIgnored(s: State, b: int, bpm: nat, rs: seq<Reading>)
    requires Resting(s, b) && BPM_MIN <= bpm <= BPM_MAX && Sustained(rs, bpm, s.invalidRun)
    requires Abs(bpm - b) <= Slack(b)
    ensures var t := Run(s, rs);
            && t.base == b && t.learned == LEARN_WINDOWS && t.up == 0 && t.down == 0
            && t.invalidRun == TrailingGap(rs, s.invalidRun)
            && t.change == if Pulses(rs) == 0 then s.change else Stable
  {
    if rs != [] {
      var n := |rs| - 1;
      SustainedPrefix(rs, bpm, s.invalidRun, n);
      assert rs[..|rs|] == rs;
      SmallShiftIgnored(s, b, bpm, rs[..n]);
      assert Slack(b) <= 9;
      SmallShiftFreezes(bpm - b);
      hide Slack, TruncDiv;
    }
  }
}
