/**
 The measured sample rate (smart_helmet_vitals.c: SmartHelmet_VitalsPushSensInMvAt,
 SmartHelmet_VitalsNoteSensDropped, SmartHelmet_VitalsOnSensSample, shUpdateTimebase).
 */
module Timebase {
  import opened CArithmetic

  const NOMINAL: int := 40000
  const NOMINAL_FS_Q8: int := 6400
  const MOTION_WIN: nat := 25
  const WRAP: int := 0x1_0000_0000

  /** Interval sums since the last window; `previous` is the last time stamp, if usable. */
  datatype Sums = Sums(n: nat, total: int, jitter: int)

  datatype Stamp = NoStamp | At(us: int)

  /** What a window concludes. */
  datatype Rate = Rate(fsQ8: int, fsX100: int, jitterPct: int, ok: bool)

  datatype Clock = Clock(previous: Stamp, sums: Sums, since: nat, rate: Rate)

  datatype Event = Sample(us: int) | Dropped | Window

  const NO_SUMS: Sums := Sums(0, 0, 0)

  const START: Clock := Clock(NoStamp, NO_SUMS, 0, Rate(NOMINAL_FS_Q8, 0, 0, true))

  predicate Usable(dt: int) { NOMINAL / 4 <= dt <= NOMINAL * 4 }

  function Elapsed(from: int, to: int): int { (to - from) % WRAP }

  function Stamped(c: Clock, us: int): Clock {
    if us == 0 then c
    else
      var sums :=
        if c.previous.At? && Usable(Elapsed(c.previous.us, us)) then
          var dt := Elapsed(c.previous.us, us);
          Sums(c.sums.n + 1, c.sums.total + dt, c.sums.jitter + Abs(dt - NOMINAL))
        else c.sums;
      c.(previous := At(us), sums := sums)
  }

  function Concluded(s: Sums, r: Rate): Rate {
    if s.n >= MOTION_WIN / 2 then
      var mean, jit := s.total / s.n, s.jitter / s.n;
      if mean == 0 then r
      else
        var pct := jit * 100 / mean;
        Rate(256000000 / mean, 100000000 / mean, Min(pct, 255),
             Abs(mean - NOMINAL) * 100 / NOMINAL <= 25 && pct <= 20)
    else START.rate
  }

  function Processed(c: Clock): Clock { c.(rate := Concluded(c.sums, c.rate), sums := NO_SUMS) }

  function Next(c: Clock, e: Event): Clock {
    match e
    case Sample(us) =>
      var d := Stamped(c, us);
      if d.since + 1 >= MOTION_WIN then Processed(d.(since := 0)) else d.(since := d.since + 1)
    case Dropped => c.(previous := NoStamp)
    case Window => Processed(c)
  }

  function Run(c: Clock, es: seq<Event>): Clock {
    if es == [] then c else Next(Run(c, es[..|es| - 1]), es[|es| - 1])
  }

  // ---- What every run keeps ------------------------------------------------------------

  /** Each interval is between a quarter and four times nominal, and jitter dominates the drift. */
  ghost predicate SumsSound(s: Sums) {
    && 10000 * s.n <= s.total <= 160000 * s.n
    && Abs(s.total - NOMINAL * s.n) <= s.jitter <= 120000 * s.n
  }

  ghost predicate RateSound(r: Rate) {
    && 1600 <= r.fsQ8 <= 25600
    && 0 <= r.fsX100 <= 10000
    && 0 <= r.jitterPct <= 255
    && (r.ok ==> 5079 <= r.fsQ8 <= 7743)
  }

  ghost predicate Sound(c: Clock) {
    SumsSound(c.sums) && c.sums.n <= c.since < MOTION_WIN && RateSound(c.rate)
  }

  /** The mean of n intervals lies between the bounds of one. */
  lemma MeanBetween(total: int, n: nat, lo: int, hi: int)
    requires n > 0 && lo * n <= total <= hi * n && 0 <= lo
    ensures lo <= total / n <= hi
  {
    var q := total / n;
    assert q * n <= total < (q + 1) * n;
    if q < lo {
      MulOrder(q + 1, lo, n, n);
      assert false;
    }
    if q > hi {
      MulOrder(hi + 1, q, n, n);
      assert false;
    }
  }

  /** The mean jitter is at least the error of the mean, up to the two truncations. */
  lemma JitterBoundsError(s: Sums)
    requires SumsSound(s) && s.n > 0
    ensures s.jitter / s.n >= NOMINAL - 1 - s.total / s.n
    ensures s.jitter / s.n >= s.total / s.n - NOMINAL
  {
    var mean, jit, n := s.total / s.n, s.jitter / s.n, s.n;
    assert mean * n <= s.total < (mean + 1) * n;
    assert s.jitter < (jit + 1) * n;
    assert (NOMINAL - mean - 1 - jit - 1) * n < 0;
    assert (mean - NOMINAL - jit - 1) * n < 0;
    NegativeFactor(NOMINAL - mean - 2 - jit, n);
    NegativeFactor(mean - NOMINAL - jit - 1, n);
  }

  lemma NegativeFactor(a: int, n: nat)
    requires a * n < 0
    ensures a < 0
  {
  }

  lemma QuotientBetween(a: int, d: int, lo: int, hi: int)
    requires 0 < lo <= d <= hi && a >= 0
    ensures a / hi <= a / d <= a / lo
  {
    var q := a / d;
    assert q * d <= a < (q + 1) * d;
    MulOrder(q, q, lo, d);
    MulOrder(q + 1, q + 1, d, hi);
    DivAtLeast(a, lo, q);
    AtMost(a, hi, q);
  }

  lemma AtMost(a: int, d: int, q: int)
    requires d > 0 && 0 <= a < (q + 1) * d
    ensures a / d <= q
  {
    if a / d > q {
      NegativeFactor(a / d - q - 1, d);
      assert false;
    }
  }

  /**
   The rate stays within a quarter and four times nominal whatever the time stamps; a trusted
   rate is within 25% below nominal and, because jitter dominates drift, only 21% above.
   */
  lemma ConcludedSound(s: Sums, r: Rate)
    requires SumsSound(s) && s.n <= MOTION_WIN
    ensures RateSound(Concluded(s, r))
    ensures IsU32(s.total) && IsU32(s.jitter * 100)
  {
    if s.n >= MOTION_WIN / 2 {
      var mean, jit := s.total / s.n, s.jitter / s.n;
      MeanBetween(s.total, s.n, 10000, 160000);
      MeanBetween(s.jitter, s.n, 0, 120000);
      JitterBoundsError(s);
      hide SumsSound;
      QuotientBetween(256000000, mean, 10000, 160000);
      QuotientBetween(100000000, mean, 10000, 160000);
      JitterPercent(jit, mean);
      if Concluded(s, r).ok {
        TrustedMean(mean, jit);
        QuotientBetween(256000000, mean, 33058, 50399);
      }
    }
  }

  lemma JitterPercent(jit: int, mean: int)
    requires jit >= 0 && mean > 0
    ensures jit * 100 / mean >= 0
  {
  }

  lemma TrustedMean(mean: int, jit: int)
    requires 10000 <= mean <= 160000 && jit >= NOMINAL - 1 - mean
    requires Abs(mean - NOMINAL) * 100 / NOMINAL <= 25 && jit * 100 / mean <= 20
    ensures 33058 <= mean <= 50399
  {
    assert jit * 100 < 21 * mean by {
      var q := jit * 100 / mean;
      assert jit * 100 < (q + 1) * mean;
      MulOrder(0, 0, 0, 0);
      if q >= 0 {
        MulOrder(q + 1, 21, mean, mean);
      }
    }
  }

  lemma StampedSound(c: Clock, us: int)
    requires SumsSound(c.sums)
    ensures SumsSound(Stamped(c, us).sums) && Stamped(c, us).sums.n <= c.sums.n + 1
  {
  }

  lemma NextSound(c: Clock, e: Event)
    requires Sound(c)
    ensures Sound(Next(c, e))
  {
    hide RateSound, SumsSound, Concluded;
    assert SumsSound(NO_SUMS) by { NoSumsSound(); }
    match e
    case Sample(us) =>
      StampedSound(c, us);
      ConcludedSound(Stamped(c, us).sums, c.rate);
    case Dropped =>
    case Window =>
      ConcludedSound(c.sums, c.rate);
  }

  lemma NoSumsSound()
    ensures SumsSound(NO_SUMS)
  {
  }

  lemma {:induction false} RunSound(es: seq<Event>)
    ensures Sound(Run(START, es))
  {
    if es != [] {
      RunSound(es[..|es| - 1]);
      hide Sound;
      NextSound(Run(START, es[..|es| - 1]), es[|es| - 1]);
    }
  }

  // ---- What the measurement means -------------------------------------------------------

  /** The wrapping clock at the i-th sample of a steady sampler. */
  function Tick(first: int, period: int, i: nat): int { (first + i * period) % WRAP }

  /** Samples every `period` microseconds, the clock never reading 0. */
  ghost predicate Periodic(es: seq<Event>, first: int, period: int) {
    forall i :: 0 <= i < |es| ==> es[i] == Sample(Tick(first, period, i)) && Tick(first, period, i) != 0
  }

  /** Wrap-around is harmless: the difference of two wrapped stamps is the true interval. */
  lemma ElapsedIsPeriod(first: int, period: int, i: nat)
    requires 0 <= period < WRAP && i > 0
    ensures Elapsed(Tick(first, period, i - 1), Tick(first, period, i)) == period
  {
    var a := first + (i - 1) * period;
    assert first + i * period == a + period;
    WrappedDifference(a, period);
  }

  lemma WrappedDifference(a: int, d: int)
    requires 0 <= d < WRAP
    ensures Elapsed(a % WRAP, (a + d) % WRAP) == d
  {
  }

  /** The intervals in the current window after k periodic samples from a fresh start. */
  function Intervals(k: nat): nat
    requires k > 0
  {
    if k < MOTION_WIN then k - 1 else k % MOTION_WIN
  }

  function SumsOf(n: nat, period: int): Sums { Sums(n, n * period, n * Abs(period - NOMINAL)) }

  ghost predicate Steady(c: Clock, k: nat, us: int, period: int)
    requires k > 0 && period > 0
  {
    && c.since == k % MOTION_WIN
    && c.previous == At(us)
    && c.sums == SumsOf(Intervals(k), period)
    && (k >= MOTION_WIN ==> c.rate.fsQ8 == 256000000 / period)
  }

  /**
   A steady sampler's rate is measured exactly from the first full window on, at any usable
   period and any phase of the wrapping clock.
   */
  lemma {:induction false} SteadyRateMeasured(es: seq<Event>, first: int, period: int)
    requires Usable(period) && Periodic(es, first, period) && |es| > 0
    ensures Steady(Run(START, es), |es|, Tick(first, period, |es| - 1), period)
  {
    hide Tick, Elapsed, Steady, Next;
    var k := |es| - 1;
    var before := es[..k];
    assert es[k] == Sample(Tick(first, period, k));
    if k == 0 {
      assert before == [];
      SteadyStart(Tick(first, period, 0), period);
    } else {
      SteadyRateMeasured(before, first, period);
      ElapsedIsPeriod(first, period, k);
      SteadyStep(Run(START, before), k, Tick(first, period, k - 1), Tick(first, period, k), period);
    }
  }

  lemma SteadyStart(us: int, period: int)
    requires us != 0 && period > 0
    ensures Steady(Next(START, Sample(us)), 1, us, period)
  {
  }

  lemma SteadyStep(c: Clock, k: nat, us: int, us': int, period: int)
    requires Usable(period) && k > 0 && Steady(c, k, us, period) && us' != 0 && Elapsed(us, us') == period
    ensures Steady(Next(c, Sample(us')), k + 1, us', period)
  {
    StampAdds(c, us, us', Intervals(k), period);
    WindowPosition(k);
    hide Elapsed, Stamped, SumsOf, Intervals, Usable;
    if (k + 1) % MOTION_WIN == 0 {
      SteadyMean(Intervals(k) + 1, period, c.rate);
      NoneYet(period);
    }
    hide Concluded;
  }

  lemma StampAdds(c: Clock, us: int, us': int, n: nat, period: int)
    requires Usable(period) && us' != 0 && Elapsed(us, us') == period
    requires c.previous == At(us) && c.sums == SumsOf(n, period)
    ensures Stamped(c, us') == c.(previous := At(us'), sums := SumsOf(n + 1, period))
  {
    hide Elapsed;
    assert (n + 1) * period == n * period + period;
    assert (n + 1) * Abs(period - NOMINAL) == n * Abs(period - NOMINAL) + Abs(period - NOMINAL);
  }

  lemma WindowPosition(k: nat)
    requires k > 0
    ensures var last := k % MOTION_WIN == MOTION_WIN - 1;
            && (k + 1) % MOTION_WIN == (if last then 0 else k % MOTION_WIN + 1)
            && Intervals(k + 1) == (if last then 0 else Intervals(k) + 1)
            && (last ==> Intervals(k) >= 23)
            && (k + 1 == MOTION_WIN ==> last)
  {
  }

  lemma NoneYet(period: int)
    ensures SumsOf(0, period) == NO_SUMS
  {
  }

  lemma SteadyMean(n: nat, period: int, r: Rate)
    requires Usable(period) && n >= MOTION_WIN / 2
    ensures Concluded(SumsOf(n, period), r).fsQ8 == 256000000 / period
  {
    MeanBetween(n * period, n, period, period);
  }

  /** A sample after a drop adds no interval. */
  lemma DropAddsNothing(c: Clock, us: int)
    ensures Stamped(Next(c, Dropped), us).sums == c.sums
  {
  }

  // ---- The firmware's fields ---------------------------------------------------------------

  class TimebaseFields {
    var prevUs: int
    var prevValid: bool
    var sumUs: int
    var jitSumUs: int
    var n: nat
    var since: nat
    var fsQ8: int
    var fsX100: int
    var jitterPct: int
    var ok: bool

    function State(): Clock
      reads this
    {
      Clock(if prevValid then At(prevUs) else NoStamp, Sums(n, sumUs, jitSumUs), since,
            Rate(fsQ8, fsX100, jitterPct, ok))
    }

    constructor ()
      ensures State() == START
    {
      prevUs, prevValid, sumUs, jitSumUs, n := 0, false, 0, 0, 0;
      since, fsQ8, fsX100, jitterPct, ok := 0, NOMINAL_FS_Q8, 0, 0, true;
    }

    method Clear()
      modifies this
      ensures State() == START
    {
      prevUs, prevValid, sumUs, jitSumUs, n := 0, false, 0, 0, 0;
      since, fsQ8, fsX100, jitterPct, ok := 0, NOMINAL_FS_Q8, 0, 0, true;
    }

    method Push(us: int)
      requires IsU32(us)
      modifies this
      ensures State() == Stamped(old(State()), us)
    {
      if us != 0 {
        if prevValid {
          var dt := (us - prevUs) % WRAP;
          if NOMINAL / 4 <= dt && dt <= NOMINAL * 4 {
            var jit := if dt > NOMINAL then dt - NOMINAL else NOMINAL - dt;
            sumUs := sumUs + dt;
            jitSumUs := jitSumUs + jit;
            n := n + 1;
          }
        }
        prevUs := us;
        prevValid := true;
      }
    }

    method Drop()
      modifies this
      ensures State() == Next(old(State()), Dropped)
    {
      prevValid := false;
    }

    /** shUpdateTimebase; the zero mean and the uint16 clamps cannot be reached. */
    method Update()
      requires SumsSound(State().sums) && n <= MOTION_WIN
      modifies this
      ensures RateSound(State().rate) && State() == Processed(old(State()))
    {
      ConcludedSound(State().sums, State().rate);
      hide RateSound;
      if n >= MOTION_WIN / 2 {
        var mean, jit := sumUs / n, jitSumUs / n;
        if mean != 0 {
          var hz, q8 := 100000000 / mean, 256000000 / mean;
          fsX100 := if hz > 0xffff then 0xffff else hz;
          fsQ8 := if q8 > 0xffff then 0xffff else q8;
          jitterPct := if jit * 100 / mean > 255 then 255 else jit * 100 / mean;
          var err := if mean > NOMINAL then (mean - NOMINAL) * 100 / NOMINAL else (NOMINAL - mean) * 100 / NOMINAL;
          ok := err <= 25 && jitterPct <= 20;
        }
      } else {
        fsQ8, fsX100, jitterPct, ok := NOMINAL_FS_Q8, 0, 0, true;
      }
      sumUs, jitSumUs, n := 0, 0, 0;
    }

    /** One delivered sample: push, count, and process every 25th. */
    method OnSample(us: int)
      requires IsU32(us) && Sound(State())
      modifies this
      ensures Sound(State()) && State() == Next(old(State()), Sample(us))
    {
      NextSound(State(), Sample(us));
      StampedSound(State(), us);
      Push(us);
      hide SumsSound, RateSound, Concluded, Stamped;
      since := since + 1;
      if since >= MOTION_WIN {
        since := 0;
        Update();
      }
    }
  }
}
