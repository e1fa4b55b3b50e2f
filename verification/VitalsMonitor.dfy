/**
 The vitals module whole (smart_helmet_vitals.c: SmartHelmet_VitalsPushSensInMvAt, SmartHelmet_VitalsOnSensSample,
 SmartHelmet_VitalsProcess): the sample path, the pulse decision with the smoother reset of shHrDisturb, and
 the change detector, which active windows do not reach.
 */
module VitalsMonitor {
  import opened CArithmetic
  import opened HrDecision
  import opened VitalsPath
  import Butterfly
  import Cusum
  import FftBin
  import PeakPicker
  import SensRing
  import Timebase

  /** What the accelerometer and the edge counter contribute to a window. */
  datatype Motions = Motions(haveAccel: bool, step: nat, accelEnergy: nat, bandCount: nat, pirEvents: nat)

  // ---- What the detector is told ------------------------------------------------------------

  function Told(s: State): seq<Cusum.Reading> {
    if s.gate.active then []
    else [if s.pulse.valid then Cusum.Pulse(s.pulse.bpm) else Cusum.NoPulse]
  }

  /** The readings of a run of windows since an initialisation: active windows are skipped. */
  ghost function Readings(still: nat, ws: seq<Window>): seq<Cusum.Reading> {
    if ws == [] then [] else Readings(still, ws[..|ws| - 1]) + Told(HrDecision.Run(Initial(still), ws))
  }

  /** Every pulse the detector is told of is a rate in band, so its run-level guarantees apply. */
  lemma {:induction false} ReadingsInBand(still: nat, ws: seq<Window>)
    requires forall i :: 0 <= i < |ws| ==> ws[i].Valid()
    ensures Cusum.Confined(Readings(still, ws), BPM_MIN, BPM_MAX)
  {
    hide Window.Valid, Settled, Window.Signal, Window.Agree, HrDecision.Run;
    if ws != [] {
      var n := |ws| - 1;
      ReadingsInBand(still, ws[..n]);
      assert ws[..|ws|] == ws;
      HrValidExactly(still, ws, n);
    }
  }

  /** The detector's guarantees on the whole object: its sums are 0..23 and its baseline is 0 or a rate in band. */
  lemma DetectorKept(still: nat, ws: seq<Window>)
    requires forall i :: 0 <= i < |ws| ==> ws[i].Valid()
    ensures Cusum.Kept(Cusum.Run(Cusum.INITIAL, Readings(still, ws)), BPM_MIN, BPM_MAX)
  {
    ReadingsInBand(still, ws);
    hide Readings;
    Cusum.RunKeeps(Readings(still, ws), BPM_MIN, BPM_MAX);
  }

  // ---- How a window is gathered ----------------------------------------------------------------

  /** The estimators are asked in a calm, warmed-up window with the signal in band; a is the gate of that window. */
  predicate Asked(a: Gate, m: Window) { !a.active && Warm3(a, m) && m.Signal() == Fine }

  /** The smoother when they are asked: motion, a disturbance and warming up reset it. */
  function Primed(a: Gate, m: Window, before: FftBin.Smoother): FftBin.Smoother {
    if a.active || Disturbs(a, m) || !Warm3(a, m) then FftBin.Smoother(0, false) else before
  }

  /**
   w is the measured window m, completed by the estimates of the chunk x when the gate g, the warm-up and the signal let
   them be asked and by zeros otherwise; the smoother goes from `before` to `after`.
   */
  ghost predicate Completed(
    g: Gate, m: Window, w: Window, x: seq<int>, fsQ8: int, f: Butterfly.Frame, before: FftBin.Smoother, after: FftBin.Smoother,
    k: nat)
  {
    var a := Gated(g, m); var primed := Primed(a, m, before);
    && w == m.(peakBpm := w.peakBpm, fftBpm := w.fftBpm, peaks := w.peaks)
    && (!Asked(a, m) ==> w == m && after == primed)
    && (Asked(a, m) ==> Estimates(x, fsQ8, f, primed, after, k, w.peakBpm, w.peaks, w.fftBpm))
  }

  // ---- What a valid pulse says about the raw stream ------------------------------------------

  /**
   A pulse of `bpm` heard in the chunk of a raw stream: no sample beyond 4599, regular beats of rate p, a bin k dominating
   the spectrum f whose fractional index brings the smoother from `before` to `bin`, and the rates of the beats and of
   that bin within 20% of their average, which is `bpm`.
   */
  ghost predicate Heard(stream: seq<int>, fsQ8: int, f: Butterfly.Frame, before: FftBin.Smoother, bin: int, bpm: int) {
    var x := Chunk(stream);
    && SensRing.Within(x, -4599, 4599) && FftBin.Spectrum(x, f)
    && (exists k: nat :: Leads(f, before, bin, k))
    && exists p: int :: PeakPicker.Estimated(x, fsQ8, p) && Concord(p, FftBin.BinBpm(bin, fsQ8), bpm)
  }

  ghost predicate Leads(f: Butterfly.Frame, before: FftBin.Smoother, bin: int, k: nat) {
    FftBin.Dominant(f, k) && bin == FftBin.Smoothed(before, FftBin.FractionalBin(f, k)).bin
  }

  /** Two rates in band within 20% of their average, which is reported. */
  predicate Concord(p: int, q: int, bpm: int) {
    && BPM_MIN <= p <= BPM_MAX && BPM_MIN <= q <= BPM_MAX
    && Abs(p - q) * 100 <= (p + q) / 2 * AGREE_PCT && bpm == (p + q) / 2
  }

  // ---- One more window -------------------------------------------------------------------

  lemma WindowsSnoc(still: nat, ws: seq<Window>, w: Window)
    ensures var z := ws + [w]; var s := HrDecision.Run(Initial(still), ws);
            && z[..|ws|] == ws && z[..|ws| + 1] == z
            && HrDecision.Run(Initial(still), z) == Processed(s, w)
            && Readings(still, z) == Readings(still, ws) + Told(Processed(s, w))
  {
    hide Processed, Told;
    var z := ws + [w];
    assert z[..|ws|] == ws && z[..|ws| + 1] == z;
  }

  lemma ReadingsSnoc(rs: seq<Cusum.Reading>, t: seq<Cusum.Reading>)
    requires |t| <= 1
    ensures Cusum.Run(Cusum.INITIAL, rs + t) ==
            if t == [] then Cusum.Run(Cusum.INITIAL, rs) else Cusum.Next(Cusum.Run(Cusum.INITIAL, rs), t[0])
  {
    hide Cusum.Next;
    if t == [] {
      assert rs + t == rs;
    } else {
      assert (rs + t)[..|rs|] == rs;
    }
  }

  /** The motion gate decides before anything else, from the accelerometer alone. */
  lemma GateFirst(s: State, m: Window, w: Window)
    requires w == m.(peakBpm := w.peakBpm, fftBpm := w.fftBpm, peaks := w.peaks)
    ensures Gated(s.gate, w) == Gated(s.gate, m) && Processed(s, w).gate.active == Gated(s.gate, m).active
    ensures Gated(s.gate, m).active ==> !Processed(s, w).pulse.valid
  {
    assert w.Energy() == m.Energy();
    hide Window.Energy, CalmPulse, Disturbs, Warm3;
  }

  /** A valid pulse comes from an undisturbed window whose estimators were asked. */
  lemma ValidWasAsked(s: State, m: Window, w: Window)
    requires w == m.(peakBpm := w.peakBpm, fftBpm := w.fftBpm, peaks := w.peaks) && Processed(s, w).pulse.valid
    ensures var a := Gated(s.gate, m); Asked(a, m) && !Disturbs(a, m)
  {
    assert w.Energy() == m.Energy();
    hide Window.Energy;
    ProcessedVerdict(s, w);
    GateFirst(s, m, w);
    hide Processed;
  }

  lemma AgreeMeansConcord(w: Window)
    requires w.Valid() && w.Agree()
    ensures w.peakBpm != 0 && w.fftBpm != 0 && Concord(w.peakBpm, w.fftBpm, w.Average())
  {
  }

  lemma SilentWindow(w: Window)
    requires w.peakBpm == w.fftBpm == 0
    ensures w.Valid() && !w.Agree()
  {
  }

  lemma FineMeansTrusted(w: Window)
    ensures w.Signal() == Fine ==> w.timebaseOk && MIN_SENS_ABS <= w.sensAbs <= MAX_SENS_ABS
  {
    hide Window.Energy;
  }

  /** The estimates of a valid window make a pulse heard in the stream. */
  lemma HeardNow(
    s: State, m: Window, w: Window, stream: seq<int>, fsQ8: int, f: Butterfly.Frame, before: FftBin.Smoother,
    after: FftBin.Smoother, k: nat)
    requires Completed(s.gate, m, w, Chunk(stream), fsQ8, f, before, after, k)
    requires Processed(s, w).pulse.valid && w.Valid() && w.Agree()
    ensures Heard(stream, fsQ8, f, before, after.bin, w.Average())
  {
    ValidWasAsked(s, m, w);
    AgreeMeansConcord(w);
    var a := Gated(s.gate, m);
    assert Primed(a, m, before) == before;
    hide Processed, Gated, Asked, Disturbs, Warm3, Concord, Chunk, SensRing.Within, FftBin.Spectrum, FftBin.Dominant,
      PeakPicker.Estimated, FftBin.Smoothed, FftBin.FractionalBin, PeakPicker.PeakCount, Window.Valid, Window.Agree;
    var x := Chunk(stream);
    assert Estimates(x, fsQ8, f, before, after, k, w.peakBpm, w.peaks, w.fftBpm);
    VerdictLeads(f, before, after, k, fsQ8, w.fftBpm);
    assert PeakPicker.Estimated(x, fsQ8, w.peakBpm) && Concord(w.peakBpm, FftBin.BinBpm(after.bin, fsQ8), w.Average());
  }

  lemma VerdictLeads(
    f: Butterfly.Frame, before: FftBin.Smoother, after: FftBin.Smoother, k: nat, fsQ8: int, bpm: int)
    requires FftVerdict(f, before, after, k, fsQ8, bpm) && bpm != 0
    ensures k != 0 && Leads(f, before, after.bin, k) && bpm == FftBin.BinBpm(after.bin, fsQ8)
  {
    hide FftBin.Dominant, FftBin.Smoothed, FftBin.FractionalBin, FftBin.BinBpm;
  }

  class Monitor {
    const path: Vitals
    const hr: HrMachine
    const cusum: Cusum.Detector
    var sensMv: nat
    ghost var still: nat
    ghost var windows: seq<Window>
    ghost var ticks: seq<Timebase.Event>

    ghost predicate Valid()
      reads this, hr, cusum
      reads path, path.clock, path.filter, path.ring, path.ring.buf, path.resp, path.resp.ring, path.resp.ring.buf, path.fft
    {
      && path.Valid()
      && path.clock.State() == Timebase.Run(Timebase.START, ticks)
      && path.clock.n <= path.clock.since
      && History()
    }

    /** The decision and the detector are functions of the windows since the last initialisation. */
    ghost predicate History()
      reads this, hr, cusum
    {
      && (forall i :: 0 <= i < |windows| ==> windows[i].Valid())
      && hr.Abstract() == HrDecision.Run(Initial(still), windows)
      && cusum.Abstract() == Cusum.Run(Cusum.INITIAL, Readings(still, windows))
    }

    constructor ()
      ensures Valid() && windows == [] && path.stream == []
    {
      path := new Vitals();
      hr := new HrMachine();
      cusum := new Cusum.Detector();
      sensMv, still, windows, ticks := 0, 0, [], [];
    }

    /** SmartHelmet_VitalsInit, at power-on and at the module's RESTART_SENSOR: only the run of still samples survives. */
    method Init()
      requires Valid()
      modifies this, hr, cusum, path, path.clock, path.filter, path.ring, path.ring.buf, path.resp, path.resp.ring,
        path.resp.ring.buf, path.fft
      ensures Valid() && windows == [] && ticks == [] && path.stream == [] && sensMv == 0
      ensures hr.Abstract() == Initial(old(hr.stillRun)) && cusum.Abstract() == Cusum.INITIAL
      ensures path.fft.State() == FftBin.Smoother(0, false)
    {
      hide Vitals.Valid, Initial;
      path.Clear();
      still := hr.stillRun;
      hr.Init();
      cusum.Clear();
      sensMv, windows, ticks := 0, [], [];
    }

    /** SmartHelmet_VitalsNoteSensDropped: a tick the gas scan was in the way of. */
    method NoteDropped()
      requires Valid()
      modifies this`ticks, path.clock
      ensures Valid() && ticks == old(ticks) + [Timebase.Dropped] && path.stream == old(path.stream)
      ensures path.clock.State().sums == old(path.clock.State().sums) && path.clock.State().previous == Timebase.NoStamp
    {
      hide Vitals.Valid, HrDecision.Run, Readings, Cusum.Run, Window.Valid;
      TickOne(ticks, Timebase.Dropped);
      path.Drop();
      ticks := ticks + [Timebase.Dropped];
    }

    /** What the window measures, before any estimator is asked: levels of the ring, the clock's verdict and the motions. */
    ghost function Measured(mo: Motions): Window
      requires path.Valid()
      reads this, path, path.clock, path.filter, path.ring, path.ring.buf, path.resp, path.resp.ring, path.resp.ring.buf, path.fft
    {
      Window(mo.haveAccel, mo.step, mo.accelEnergy, mo.bandCount, path.EnergyLevel(), path.Level(), sensMv, path.ring.count,
             mo.pirEvents, path.clock.ok, 0, 0, 0)
    }

    method Measure(mo: Motions) returns (m: Window)
      requires path.Valid()
      ensures m == Measured(mo)
    {
      var sensAbs := path.SensAbs();
      var sensEnergy := path.SensEnergy();
      m := Window(mo.haveAccel, mo.step, mo.accelEnergy, mo.bandCount, sensEnergy, sensAbs, sensMv, path.ring.count,
                  mo.pirEvents, path.clock.ok, 0, 0, 0);
    }

    /** The spectrum last computed. */
    ghost function Bins(): Butterfly.Frame
      requires path.Valid()
      reads path, path.clock, path.filter, path.ring, path.ring.buf, path.resp, path.resp.ring, path.resp.ring.buf, path.fft
      reads path.fft.re, path.fft.im
    {
      Butterfly.Bins(path.fft.re, path.fft.im)
    }

    /** Resets the smoother where the firmware does, before any estimator is asked. */
    method Prime(m: Window, a: Gate)
      requires path.Valid()
      modifies path.fft
      ensures path.Valid() && path.fft.State() == Primed(a, m, old(path.fft.State()))
      ensures path.Level() == old(path.Level()) && path.EnergyLevel() == old(path.EnergyLevel())
    {
      hide Vitals.Valid, Disturbs, Warm3, MeanLevel, EnergyOf;
      if a.active {
        path.ResetSmoother();
        return;
      }
      if Disturbs(a, m) {
        path.ResetSmoother();
      }
      if !Warm3(a, m) {
        path.ResetSmoother();
      }
    }

    /** Asks both estimators. */
    method Estimated(m: Window) returns (w: Window, ghost k: nat)
      requires path.Valid() && m.sensAbs == path.Level() && MIN_SENS_ABS <= m.sensAbs <= MAX_SENS_ABS
      modifies path.ordered, path.fft, path.fft.re, path.fft.im
      ensures path.Valid() && path.stream == old(path.stream) && path.Level() == old(path.Level())
      ensures path.EnergyLevel() == old(path.EnergyLevel()) && w.Valid()
      ensures w == m.(peakBpm := w.peakBpm, fftBpm := w.fftBpm, peaks := w.peaks)
      ensures Estimates(Chunk(path.stream), path.clock.fsQ8, Bins(), old(path.fft.State()), path.fft.State(), k, w.peakBpm,
                        w.peaks, w.fftBpm)
    {
      hide Vitals.Valid, Estimates, Chunk, MeanLevel, EnergyOf;
      var p, n, q;
      p, n, q, k := path.Estimate(true);
      w := m.(peakBpm := p, fftBpm := q, peaks := n);
    }

    /** The measured window completed: the estimators are asked where the firmware asks them. */
    method Ask(m: Window, g: Gate) returns (w: Window, ghost k: nat)
      requires path.Valid() && m.peakBpm == m.fftBpm == m.peaks == 0 && m.sensAbs == path.Level()
      modifies path.ordered, path.fft, path.fft.re, path.fft.im
      ensures path.Valid() && path.stream == old(path.stream) && path.Level() == old(path.Level())
      ensures path.EnergyLevel() == old(path.EnergyLevel()) && w.Valid()
      ensures Completed(g, m, w, Chunk(path.stream), path.clock.fsQ8, Bins(), old(path.fft.State()), path.fft.State(), k)
    {
      hide Vitals.Valid, Window.Signal, Warm3, Gated, Estimates, Chunk, Vitals.Level, Vitals.EnergyLevel, Primed, Window.Valid;
      SilentWindow(m);
      FineMeansTrusted(m);
      k := 0;
      w := m;
      var a := Gated(g, m);
      Prime(m, a);
      if !a.active && Warm3(a, m) && m.Signal() == Fine {
        w, k := Estimated(m);
      }
    }

    /** The window as the decision sees it: the measured one, completed. */
    method Gather(mo: Motions) returns (w: Window, ghost k: nat)
      requires path.Valid()
      modifies path.ordered, path.fft, path.fft.re, path.fft.im
      ensures path.Valid() && path.stream == old(path.stream) && w.Valid()
      ensures Completed(hr.GateState(), Measured(mo), w, Chunk(path.stream), path.clock.fsQ8, Bins(), old(path.fft.State()),
                        path.fft.State(), k)
    {
      hide Vitals.Valid, Completed, Window.Valid, Vitals.Level, Vitals.EnergyLevel, Chunk;
      var m := Measure(mo);
      w, k := Ask(m, hr.GateState());
    }

    /** The decision takes the window, and the detector hears of it unless it is active. */
    method Record(w: Window)
      requires History() && w.Valid()
      modifies this`windows, hr, cusum
      ensures History() && windows == old(windows) + [w] && hr.Abstract() == Processed(old(hr.Abstract()), w)
      ensures var i := |old(windows)|; var p := After(still, windows, i).pulse;
              hr.hrValid <==> && Settled(windows, i) && w.Signal() == Fine && w.Agree()
                              && (p.lastHave ==> Abs(w.Average() - p.lastBpm) <= MAX_DELTA_BPM)
      ensures hr.hrValid ==> hr.hrBpm == w.Average()
      ensures hr.motionActive == Gated(old(hr.GateState()), w).active
      ensures hr.motionActive ==> cusum.Abstract() == old(cusum.Abstract()) && !hr.hrValid
    {
      hide Processed, Settled, Window.Signal, Window.Agree, Window.Valid, Gated, Told, Readings, HrDecision.Run, Cusum.Run,
        Cusum.Next;
      ghost var s, ws := hr.Abstract(), windows;
      GateFirst(s, w, w);
      hr.Process(w);
      windows := windows + [w];
      WindowsSnoc(still, ws, w);
      if !hr.motionActive {
        cusum.Update(hr.hrValid, hr.hrBpm);
      }
      ToldOne(hr.Abstract());
      ReadingsSnoc(Readings(still, ws), Told(hr.Abstract()));
      HrValidExactly(still, windows, |ws|);
    }

    /**
     What the last window, the i-th, concluded from the gate g and the smoother `before` it found. It is the measured window,
     completed by the estimates of the stream's chunk; hr_valid holds exactly for a settled history, a signal in band,
     agreeing estimates and no jump; a valid rate is then a pulse heard in the raw stream at a trusted sample
     rate. Active windows are not valid and leave the smoother reset.
     */
    ghost predicate Concluded(i: nat, mo: Motions, g: Gate, before: FftBin.Smoother)
      reads this, hr
      reads path, path.clock, path.filter, path.ring, path.ring.buf, path.resp, path.resp.ring, path.resp.ring.buf, path.fft
      reads path.fft.re, path.fft.im
    {
      && path.Valid() && i < |windows|
      && (exists k: nat :: Completed(g, Measured(mo), windows[i], Chunk(path.stream), path.clock.fsQ8, Bins(), before,
                                     path.fft.State(), k))
      && (var w, p := windows[i], After(still, windows, i).pulse;
          hr.hrValid <==> && Settled(windows, i) && w.Signal() == Fine && w.Agree()
                          && (p.lastHave ==> Abs(w.Average() - p.lastBpm) <= MAX_DELTA_BPM))
      && (hr.hrValid ==> Heard(path.stream, path.clock.fsQ8, Bins(), before, path.fft.bin, hr.hrBpm))
      && (hr.hrValid ==> 5079 <= path.clock.fsQ8 <= 7743)
      && hr.motionActive == Gated(g, Measured(mo)).active
      && (hr.motionActive ==> !hr.hrValid && path.fft.State() == FftBin.Smoother(0, false))
    }

    /** The decision of one window, once the clock has concluded it. */
    method Decide(mo: Motions)
      requires path.Valid() && History()
      modifies this`windows, hr, cusum, path.ordered, path.fft, path.fft.re, path.fft.im
      ensures path.Valid() && path.stream == old(path.stream) && History()
      ensures |windows| == |old(windows)| + 1 && windows[..|old(windows)|] == old(windows)
      ensures Concluded(|old(windows)|, mo, old(hr.GateState()), old(path.fft.State()))
      ensures hr.motionActive ==> cusum.Abstract() == old(cusum.Abstract())
    {
      hide History, Settled, Window.Signal, Window.Agree, Completed, Heard, Window.Valid, Gated, Vitals.Valid, After, Processed,
        Chunk, Vitals.Level, Vitals.EnergyLevel;
      TrustedRate(path);
      ghost var s, before := hr.Abstract(), path.fft.State();
      var w;
      ghost var k;
      w, k := Gather(mo);
      ghost var m := Measured(mo);
      Record(w);
      assert Measured(mo) == m;
      CompletedFacts(s.gate, m, w, Chunk(path.stream), path.clock.fsQ8, Bins(), before, path.fft.State(), k);
      GateFirst(s, m, w);
      FineMeansTrusted(w);
      if hr.hrValid {
        HeardNow(s, m, w, path.stream, path.clock.fsQ8, Bins(), before, path.fft.State(), k);
      }
    }

    /** SmartHelmet_VitalsProcess, called from outside the sample path. */
    method Process(mo: Motions)
      requires Valid()
      modifies this`windows, this`ticks, hr, cusum, path.clock, path.ordered, path.fft, path.fft.re, path.fft.im
      ensures Valid() && path.stream == old(path.stream) && ticks == old(ticks) + [Timebase.Window]
      ensures |windows| == |old(windows)| + 1
      ensures Concluded(|old(windows)|, mo, old(hr.GateState()), old(path.fft.State()))
      ensures hr.motionActive ==> cusum.Abstract() == old(cusum.Abstract())
    {
      hide Vitals.Valid, Concluded, Timebase.Processed, HrDecision.Run, Readings, Cusum.Run, Window.Valid;
      TickOne(ticks, Timebase.Window);
      path.ConcludeClock();
      ticks := ticks + [Timebase.Window];
      Decide(mo);
    }

    /** The sample enters the path; if it is the 25th the clock concludes the window. */
    method Take(mv: int, us: int) returns (due: bool)
      requires Valid() && IsU16(mv) && IsU32(us)
      modifies this`sensMv, this`ticks, path, path.clock, path.filter, path.ring, path.ring.buf, path.resp, path.resp.ring,
        path.resp.ring.buf
      ensures Valid() && path.stream == old(path.stream) + [mv] && ticks == old(ticks) + [Timebase.Sample(us)]
      ensures due == (old(path.clock.since) == 24) && sensMv == mv
    {
      hide Vitals.Valid, Timebase.Next, HrDecision.Run, Readings, Cusum.Run, Window.Valid;
      TickOne(ticks, Timebase.Sample(us));
      due := path.Take(mv, us);
      sensMv := mv;
      ticks := ticks + [Timebase.Sample(us)];
    }

    /** One delivered sample: every 25th concludes a window. */
    method OnSample(mv: int, us: int, mo: Motions)
      requires Valid() && IsU16(mv) && IsU32(us)
      modifies this, hr, cusum, path, path.clock, path.filter, path.ring, path.ring.buf, path.resp, path.resp.ring,
        path.resp.ring.buf, path.ordered, path.fft, path.fft.re, path.fft.im
      ensures Valid() && path.stream == old(path.stream) + [mv] && ticks == old(ticks) + [Timebase.Sample(us)] && sensMv == mv
      ensures |windows| == |old(windows)| + if old(path.clock.since) == 24 then 1 else 0
      ensures old(path.clock.since) == 24 ==> Concluded(|old(windows)|, mo, old(hr.GateState()), old(path.fft.State()))
    {
      hide Vitals.Valid, Concluded, HrDecision.Run, Readings, Cusum.Run, Window.Valid, Timebase.Run;
      var due := Take(mv, us);
      if due {
        Decide(mo);
      }
    }
  }

  lemma CompletedFacts(
    g: Gate, m: Window, w: Window, x: seq<int>, fsQ8: int, f: Butterfly.Frame, before: FftBin.Smoother, after: FftBin.Smoother,
    k: nat)
    requires Completed(g, m, w, x, fsQ8, f, before, after, k)
    ensures w == m.(peakBpm := w.peakBpm, fftBpm := w.fftBpm, peaks := w.peaks)
    ensures Gated(g, m).active ==> after == FftBin.Smoother(0, false)
  {
    hide Estimates, Gated, Disturbs, Warm3, Window.Signal;
  }

  lemma TickOne(ticks: seq<Timebase.Event>, e: Timebase.Event)
    ensures Timebase.Run(Timebase.START, ticks + [e]) == Timebase.Next(Timebase.Run(Timebase.START, ticks), e)
  {
    assert (ticks + [e])[..|ticks|] == ticks;
    hide Timebase.Next;
  }

  lemma TrustedRate(path: Vitals)
    requires path.Valid()
    ensures path.clock.ok ==> 5079 <= path.clock.fsQ8 <= 7743
  {
  }

  lemma ToldOne(s: State)
    ensures s.gate.active ==> Told(s) == []
    ensures !s.gate.active ==> Told(s) == [if s.pulse.valid then Cusum.Pulse(s.pulse.bpm) else Cusum.NoPulse]
  {
  }
}
