/**
 The per-window pulse decision of smart_helmet_vitals.c: motion gate, post-disturbance
 holdoff, peak/FFT fusion and the BPM jump guard (shHrDisturb, shHrSignalReason,
 shHrDisturbReason, shFuseHr, SmartHelmet_VitalsProcess).

 `HrMachine` is the firmware's set of counters. `Processed` is the same window as one
 function of the state, and the lemmas replace the counters by statements about the
 history of windows.
 */
module HrDecision {
  import opened CArithmetic

  const MOTION_MG := 40
  const STILL_SAMPLES := 3
  const CALM_MIN := 3
  const HOLDOFF := 5
  const MIN_ENERGY := 400
  const MAX_ENERGY := 3500
  const MIN_SENS_ABS := 12
  const MAX_SENS_ABS := 45
  const DC_SPIKE_MV := 120
  const AGREE_PCT := 20
  const PEAK_WEIGHT_Q8 := 192
  const MIN_PEAKS := 3
  const MAX_DELTA_BPM := 25
  const RESYNC_WINDOWS := 3
  const BPM_MIN := 40
  const BPM_MAX := 180

  /** Why the pulse is or is not reported in a window. */
  datatype Reason =
    | Fine | Warm | EnergyLow | EnergyHigh | ResidualLow | ResidualHigh | DcSpike | Holdoff
    | NoFft | Disagree | PeakOnly | FftOnly | Delta | NoEstimate | Motion | Timebase

  /**
   What one processing window measured. `peakBpm`, `fftBpm` and `peaks` are what the two
   estimators return when they are asked; 0 means no estimate.
   */
  datatype Window = Window(
    haveAccel: bool, step: nat, accelEnergy: nat, bandCount: nat,
    sensEnergy: nat, sensAbs: nat, sensMv: nat, sensCount: nat, pirEvents: nat,
    timebaseOk: bool, peakBpm: nat, fftBpm: nat, peaks: nat)
  {
    /** Estimates are 0 or inside the search band. */
    predicate Valid() {
      && (peakBpm == 0 || BPM_MIN <= peakBpm <= BPM_MAX)
      && (fftBpm == 0 || BPM_MIN <= fftBpm <= BPM_MAX)
    }

    predicate Moving() { haveAccel && step >= MOTION_MG }

    predicate Ready() { sensCount >= 25 || haveAccel }

    /** Broadband energy; both additions wrap at 16 bits. */
    function Energy(): (e: nat)
    {
      var base :=
        if sensCount > 25 then
          if haveAccel && bandCount > 25 then (sensEnergy + accelEnergy / 4) % 0x1_0000 else sensEnergy
        else if haveAccel then accelEnergy
        else 0;
      (base + pirEvents * 8) % 0x1_0000
    }

    function Signal(): Reason {
      if Energy() < MIN_ENERGY then EnergyLow
      else if Energy() > MAX_ENERGY then EnergyHigh
      else if sensAbs < MIN_SENS_ABS then ResidualLow
      else if sensAbs > MAX_SENS_ABS then ResidualHigh
      else if !timebaseOk then Timebase
      else Fine
    }

    /** Peak and FFT agree within 20% of their average. */
    predicate Agree() {
      && peakBpm > 0 && fftBpm > 0
      && Abs(peakBpm - fftBpm) * 100 <= Average() * AGREE_PCT
    }

    function Average(): nat { (peakBpm + fftBpm) / 2 }
  }

  /** The counters of the motion gate and the holdoff. */
  datatype Gate = Gate(
    active: bool, stillRun: nat, calm: nat, left: nat, prevMv: nat, prevMvValid: bool)

  /** The reference of the jump guard and the published result. */
  datatype Pulse = Pulse(
    lastBpm: nat, lastHave: bool, rejections: nat, valid: bool, bpm: nat, reason: Reason)

  datatype State = State(gate: Gate, pulse: Pulse)

  /** SmartHelmet_VitalsInit; `stillRun` is a function-local static and survives it. */
  function Initial(stillRun: nat): State {
    State(Gate(false, stillRun, 0, HOLDOFF, 0, false), Pulse(0, false, 0, false, 0, Fine))
  }

  /** shHrDisturb: the holdoff is armed again and the reference forgotten. */
  function Armed(left: nat): nat { Max(HOLDOFF, left) }

  function Dropped(p: Pulse): Pulse {
    p.(lastBpm := 0, lastHave := false, rejections := 0)
  }

  /** shHrDisturbReason: a calm window that still looks like motion or a contact glitch. */
  predicate Disturbs(g: Gate, w: Window) {
    || w.Energy() > MAX_ENERGY
    || w.sensAbs > MAX_SENS_ABS
    || (g.prevMvValid && Abs(w.sensMv - g.prevMv) >= DC_SPIKE_MV)
  }

  /** Fused BPM, agreement, and the reason when there is none. */
  function Estimate(peak: nat, fft: nat, peaks: nat, pre: Reason): (nat, bool, Reason) {
    if peak > 0 && fft > 0 then
      var avg := (peak + fft) / 2;
      if avg > 0 && Abs(peak - fft) * 100 <= avg * AGREE_PCT then (avg, true, pre)
      else ((peak * PEAK_WEIGHT_Q8 + fft * (256 - PEAK_WEIGHT_Q8)) / 256, false, Specific(pre, Disagree))
    else if peak > 0 && peaks >= MIN_PEAKS then (peak, false, Specific(pre, PeakOnly))
    else if fft > 0 then (fft, false, Specific(pre, FftOnly))
    else if peak > 0 then (peak, false, Specific(pre, NoFft))
    else (0, false, Specific(pre, NoEstimate))
  }

  function Specific(pre: Reason, why: Reason): Reason {
    if pre == Fine then why else pre
  }

  /** The jump guard and the publication of the result. */
  function Published(p: Pulse, fused: nat, ok: bool, why: Reason): Pulse {
    if ok && p.lastHave && Abs(fused - p.lastBpm) > MAX_DELTA_BPM then
      var r := Min(p.rejections + 1, 255);
      if r >= RESYNC_WINDOWS then Pulse(0, false, 0, false, fused, Delta)
      else Pulse(p.lastBpm, true, r, false, fused, Delta)
    else if ok then Pulse(fused, true, 0, true, fused, Fine)
    else Pulse(p.lastBpm, p.lastHave, p.rejections, false, fused, why)
  }

  function Fused(p: Pulse, left: nat, peak: nat, fft: nat, peaks: nat, allow: bool, pre: Reason): Pulse {
    var (fused, ok, why) := Estimate(peak, fft, peaks, pre);
    var why' := if allow then why else if pre != Fine then pre else if left > 0 then Holdoff else why;
    Published(p, fused, ok && allow, why')
  }

  /** The motion gate: active while moving and for the next two windows. */
  function Gated(g: Gate, w: Window): Gate {
    if w.Moving() then g.(active := true, stillRun := 0)
    else if g.active then
      var r := Min(g.stillRun + 1, 255);
      g.(active := r < STILL_SAMPLES, stillRun := r)
    else g.(stillRun := 0)
  }

  /** The third or later calm window in a row, with enough samples. */
  predicate Warm3(g: Gate, w: Window) {
    Min(g.calm + 1, 255) >= CALM_MIN && w.Ready()
  }

  /** A calm window on the counters. */
  function CalmGate(g: Gate, w: Window): Gate {
    var left := if Disturbs(g, w) then Armed(g.left) else g.left;
    g.(calm := Min(g.calm + 1, 255), prevMv := w.sensMv, prevMvValid := true,
       left := if !Warm3(g, w) then Armed(left) else if left > 0 then left - 1 else 0)
  }

  /** A calm window on the pulse. */
  function CalmPulse(g: Gate, p: Pulse, w: Window): Pulse {
    var disturbed := Disturbs(g, w);
    var p' := if disturbed then Dropped(p) else p;
    var left := if disturbed then Armed(g.left) else g.left;
    if !Warm3(g, w) then Fused(Dropped(p'), Armed(left), 0, 0, 0, false, Warm)
    else Judged(p', left, w)
  }

  /** A warmed-up calm window: during the holdoff nothing is allowed; then fuse if the signal is usable. */
  function Judged(p: Pulse, left: nat, w: Window): Pulse {
    var allow := left == 0;
    var pre := if allow then Fine else Holdoff;
    var left' := if allow then 0 else left - 1;
    if w.Signal() != Fine then Fused(p, left', 0, 0, 0, false, w.Signal())
    else
      var pre' := if w.peakBpm == 0 && w.fftBpm == 0 && pre != Holdoff then NoEstimate else pre;
      Fused(p, left', w.peakBpm, w.fftBpm, w.peaks, allow, pre')
  }

  /** SmartHelmet_VitalsProcess on one window. */
  function Processed(s: State, w: Window): State {
    State(NextGate(s.gate, w), NextPulse(s, w))
  }

  function NextGate(g: Gate, w: Window): Gate {
    var a := Gated(g, w);
    if a.active then a.(calm := 0, prevMvValid := false, left := Armed(g.left)) else CalmGate(a, w)
  }

  function NextPulse(s: State, w: Window): Pulse {
    var a := Gated(s.gate, w);
    if a.active then Dropped(s.pulse).(valid := false, bpm := 0, reason := Motion)
    else CalmPulse(a, s.pulse, w)
  }

  /** The state after all windows of a run. */
  function Run(s: State, ws: seq<Window>): State {
    if ws == [] then s else Processed(Run(s, ws[..|ws| - 1]), ws[|ws| - 1])
  }

  // ---- The firmware's counters ----------------------------------------------

  class HrMachine {
    var motionActive: bool
    var stillRun: nat
    var calmWindows: nat
    var winLeft: nat
    var prevSensMv: nat
    var prevSensMvValid: bool
    var lastValidBpm: nat
    var lastValidHave: bool
    var deltaRej: nat
    var hrValid: bool
    var hrBpm: nat
    var hrReason: Reason

    function GateState(): Gate
      reads this
    {
      Gate(motionActive, stillRun, calmWindows, winLeft, prevSensMv, prevSensMvValid)
    }

    function PulseState(): Pulse
      reads this
    {
      Pulse(lastValidBpm, lastValidHave, deltaRej, hrValid, hrBpm, hrReason)
    }

    function Abstract(): State
      reads this
    {
      State(GateState(), PulseState())
    }

    constructor ()
      ensures Abstract() == Initial(0)
    {
      stillRun := 0;
      new;
      Init();
    }

    method Init()
      modifies this
      ensures Abstract() == Initial(old(stillRun))
    {
      motionActive, calmWindows, winLeft := false, 0, HOLDOFF;
      prevSensMv, prevSensMvValid := 0, false;
      lastValidBpm, lastValidHave, deltaRej := 0, false, 0;
      hrValid, hrBpm, hrReason := false, 0, Fine;
    }

    method Disturb()
      modifies `winLeft, `lastValidHave, `lastValidBpm, `deltaRej
      ensures winLeft == Armed(old(winLeft)) && PulseState() == Dropped(old(PulseState()))
    {
      if HOLDOFF > winLeft {
        winLeft := HOLDOFF;
      }
      lastValidHave := false;
      lastValidBpm := 0;
      deltaRej := 0;
    }

    /** Fusion of the two estimates (the first half of shFuseHr). */
    method EstimateHr(peak: nat, fft: nat, peaks: nat, pre: Reason) returns (fused: nat, ok: bool, why: Reason)
      ensures (fused, ok, why) == Estimate(peak, fft, peaks, pre)
    {
      fused, ok, why := 0, false, pre;
      if peak > 0 && fft > 0 {
        var diff := if peak > fft then peak - fft else fft - peak;
        var avg := (peak + fft) / 2;
        fused := (peak * PEAK_WEIGHT_Q8 + fft * (256 - PEAK_WEIGHT_Q8)) / 256;
        if avg > 0 && diff * 100 <= avg * AGREE_PCT {
          fused := avg;
          ok := true;
        } else if why == Fine {
          why := Disagree;
        }
      } else if peak > 0 && peaks >= MIN_PEAKS {
        fused := peak;
        if why == Fine { why := PeakOnly; }
      } else if fft > 0 {
        fused := fft;
        if why == Fine { why := FftOnly; }
      } else if peak > 0 {
        fused := peak;
        if why == Fine { why := NoFft; }
      } else if why == Fine {
        why := NoEstimate;
      }
    }

    /** The jump guard and publication (the second half of shFuseHr). */
    method Publish(fused: nat, agreed: bool, reason: Reason)
      modifies `lastValidHave, `lastValidBpm, `deltaRej, `hrBpm, `hrValid, `hrReason
      ensures PulseState() == Published(old(PulseState()), fused, agreed, reason)
    {
      var ok, why := agreed, reason;
      if ok && lastValidHave {
        var d := if fused >= lastValidBpm then fused - lastValidBpm else lastValidBpm - fused;
        if d > MAX_DELTA_BPM {
          ok := false;
          why := Delta;
          deltaRej := if deltaRej < 255 then deltaRej + 1 else 255;
          if deltaRej >= RESYNC_WINDOWS {
            lastValidHave := false;
            lastValidBpm := 0;
            deltaRej := 0;
          }
        }
      }
      if ok {
        why := Fine;
        lastValidBpm := fused;
        lastValidHave := true;
        deltaRej := 0;
      }
      hrBpm, hrValid, hrReason := fused, ok, why;
    }

    method Fuse(peak: nat, fft: nat, peaks: nat, allow: bool, pre: Reason)
      modifies `lastValidHave, `lastValidBpm, `deltaRej, `hrBpm, `hrValid, `hrReason
      ensures PulseState() == Fused(old(PulseState()), winLeft, peak, fft, peaks, allow, pre)
    {
      hide Estimate, Published;
      var fused, ok, why := EstimateHr(peak, fft, peaks, pre);
      if !allow {
        ok := false;
        if pre != Fine {
          why := pre;
        } else if winLeft > 0 || pre == Holdoff {
          why := Holdoff;
        }
      }
      Publish(fused, ok, why);
    }

    /** The motion gate with its run of still samples. */
    method GateMotion(w: Window) returns (active: bool)
      modifies `stillRun, `motionActive
      ensures GateState() == Gated(old(GateState()), w) && active == motionActive
    {
      active := false;
      if w.haveAccel && w.step >= MOTION_MG {
        stillRun := 0;
        active := true;
      } else if motionActive {
        stillRun := if stillRun < 255 then stillRun + 1 else 255;
        if stillRun < STILL_SAMPLES {
          active := true;
        }
      } else {
        stillRun := 0;
      }
      motionActive := active;
    }

    /** A warmed-up calm window. */
    method Judge(w: Window)
      modifies `winLeft, `lastValidHave, `lastValidBpm, `deltaRej, `hrBpm, `hrValid, `hrReason
      ensures winLeft == (if old(winLeft) > 0 then old(winLeft) - 1 else 0)
      ensures PulseState() == Judged(old(PulseState()), old(winLeft), w)
    {
      hide Fused, Window.Energy, Window.Signal;
      var allow := winLeft == 0;
      var pre := Fine;
      if winLeft > 0 {
        pre := Holdoff;
        winLeft := winLeft - 1;
      }
      var sig := w.Signal();
      if sig != Fine {
        Fuse(0, 0, 0, false, sig);
      } else {
        if w.peakBpm == 0 && w.fftBpm == 0 {
          pre := if pre == Holdoff then pre else NoEstimate;
        }
        Fuse(w.peakBpm, w.fftBpm, w.peaks, allow, pre);
      }
    }

    /** Motion-like residual while the gate is calm, or a DC spike. */
    method NoteDisturbance(w: Window)
      modifies `winLeft, `lastValidHave, `lastValidBpm, `deltaRej
      ensures var d := Disturbs(old(GateState()), w);
              && winLeft == (if d then Armed(old(winLeft)) else old(winLeft))
              && PulseState() == if d then Dropped(old(PulseState())) else old(PulseState())
    {
      hide Window.Energy;
      var energy := w.Energy();
      if energy > MAX_ENERGY || w.sensAbs > MAX_SENS_ABS ||
         (prevSensMvValid && Abs(w.sensMv - prevSensMv) >= DC_SPIKE_MV) {
        Disturb();
      }
    }

    /** Warming up, or a window that may be judged. */
    method Conclude(w: Window, warm: bool)
      modifies `winLeft, `lastValidHave, `lastValidBpm, `deltaRej, `hrBpm, `hrValid, `hrReason
      ensures winLeft == if !warm then Armed(old(winLeft)) else if old(winLeft) > 0 then old(winLeft) - 1 else 0
      ensures PulseState() == if !warm then Fused(Dropped(old(PulseState())), Armed(old(winLeft)), 0, 0, 0, false, Warm)
                              else Judged(old(PulseState()), old(winLeft), w)
    {
      hide Fused, Judged, Armed, Dropped;
      if !warm {
        Disturb();
        Fuse(0, 0, 0, false, Warm);
      } else {
        Judge(w);
      }
    }

    method ProcessCalm(w: Window)
      modifies this
      ensures GateState() == CalmGate(old(GateState()), w)
      ensures PulseState() == CalmPulse(old(GateState()), old(PulseState()), w)
    {
      hide Fused, Judged, Armed, Dropped, Disturbs, Window.Ready;
      NoteDisturbance(w);
      calmWindows := if calmWindows < 255 then calmWindows + 1 else 255;
      var warm := calmWindows >= CALM_MIN && w.Ready();
      assert warm == Warm3(old(GateState()), w);
      hide Warm3;
      Conclude(w, warm);
      prevSensMv := w.sensMv;
      prevSensMvValid := true;
    }

    method Process(w: Window)
      modifies this
      ensures Abstract() == Processed(old(Abstract()), w)
    {
      hide CalmGate, CalmPulse, Gated, Armed, Dropped;
      var active := GateMotion(w);
      if active {
        calmWindows := 0;
        Disturb();
        prevSensMvValid := false;
        hrValid, hrBpm, hrReason := false, 0, Motion;
      } else {
        ProcessCalm(w);
      }
    }

    /** A whole run of windows since initialisation. */
    method ProcessAll(ws: seq<Window>)
      modifies this
      ensures Abstract() == Run(old(Abstract()), ws)
    {
      hide Processed;
      ghost var s0 := Abstract();
      for i := 0 to |ws|
        invariant Abstract() == Run(s0, ws[..i])
      {
        Process(ws[i]);
        assert ws[..i + 1][..i] == ws[..i];
      }
      assert ws[..|ws|] == ws;
    }
  }

  // ---- Reason and validity ---------------------------------------------------

  /** After every processed window the pulse is valid exactly when the reason says so. */
  lemma ValidIffReasonFine(s: State, w: Window)
    ensures Processed(s, w).pulse.valid <==> Processed(s, w).pulse.reason == Fine
  {
    hide Window.Energy, Window.Signal, Window.Ready, Window.Moving, Disturbs, Warm3, Gated;
  }

  /** Right after initialisation the reason already reads "fine" although nothing is valid. */
  lemma InitialReasonIsFine(stillRun: nat)
    ensures !Initial(stillRun).pulse.valid && Initial(stillRun).pulse.reason == Fine
  {
  }

  // ---- The counters as statements about the history ---------------------------

  /** Window `i` is gated as active: some window among the last three was moving. */
  ghost predicate Active(ws: seq<Window>, i: nat)
    requires i < |ws|
  {
    ws[i].Moving() || (i >= 1 && ws[i - 1].Moving()) || (i >= 2 && ws[i - 2].Moving())
  }

  /** Window `i` is calm but its energy, residual or DC level jumped. */
  ghost predicate Disturbing(ws: seq<Window>, i: nat)
    requires i < |ws|
  {
    || ws[i].Energy() > MAX_ENERGY
    || ws[i].sensAbs > MAX_SENS_ABS
    || (i > 0 && !Active(ws, i - 1) && Abs(ws[i].sensMv - ws[i - 1].sensMv) >= DC_SPIKE_MV)
  }

  /** The third or later calm window in a row, with enough samples. */
  ghost predicate WarmedUp(ws: seq<Window>, i: nat)
    requires i < |ws|
  {
    && i >= 2 && !Active(ws, i - 2) && !Active(ws, i - 1) && !Active(ws, i)
    && ws[i].Ready()
  }

  /** The history that lets window `i` report: the holdoff counter is not mentioned. */
  ghost predicate Settled(ws: seq<Window>, i: nat)
    requires i < |ws|
  {
    && i >= 7
    && (forall k :: i - 7 <= k <= i ==> !Active(ws, k))
    && (forall k :: i - 5 <= k <= i ==> ws[k].Ready())
    && (forall k :: i - 4 <= k <= i ==> !Disturbing(ws, k))
  }

  /** The last `j` windows before `n` all counted the holdoff down. */
  ghost predicate CountedDown(ws: seq<Window>, n: nat, j: nat)
    requires n <= |ws|
  {
    && j <= n
    && (forall k :: n - j <= k < n ==> WarmedUp(ws, k))
    && (forall k :: n - j < k < n ==> !Disturbing(ws, k))
  }

  /** What every run keeps: each counter is determined by the history. */
  ghost predicate Tracks(g: Gate, ws: seq<Window>)
  {
    var n := |ws|;
    && g.active == (n > 0 && Active(ws, n - 1))
    && (g.active ==> if ws[n - 1].Moving() then g.stillRun == 0
                     else if n >= 2 && ws[n - 2].Moving() then g.stillRun == 1
                     else g.stillRun == 2)
    && (g.prevMvValid == (n > 0 && !Active(ws, n - 1)))
    && (g.prevMvValid ==> g.prevMv == ws[n - 1].sensMv)
    && (g.calm >= 1 <==> n >= 1 && !Active(ws, n - 1))
    && (g.calm >= 2 <==> n >= 2 && !Active(ws, n - 1) && !Active(ws, n - 2))
    && g.left <= HOLDOFF
    && (forall j :: 1 <= j <= HOLDOFF ==> (g.left <= HOLDOFF - j <==> CountedDown(ws, n, j)))
  }

  /** The window reaches the jump guard: warmed up, undisturbed, holdoff over, agreeing estimates in band. */
  ghost predicate ReachesGuard(g: Gate, w: Window) {
    Counts(g, w) && !Disturbs(g, w) && g.left == 0 && w.Signal() == Fine && w.Agree()
  }

  /** A calm, warmed-up window. */
  ghost predicate Counts(g: Gate, w: Window) {
    !Gated(g, w).active && Warm3(g, w)
  }

  ghost predicate Jumps(p: Pulse, w: Window) {
    p.lastHave && Abs(w.Average() - p.lastBpm) > MAX_DELTA_BPM
  }

  /** What one window does to the published result and to the reference of the jump guard. */
  ghost predicate Verdict(reaches: bool, drops: bool, p: Pulse, w: Window, t: Pulse) {
    && (t.valid <==> reaches && !Jumps(p, w))
    && (t.reason == Delta <==> reaches && Jumps(p, w))
    && (t.valid ==> t.bpm == w.Average() == t.lastBpm && t.lastHave && t.rejections == 0)
    && (t.reason == Delta && p.rejections < 2 ==>
          t.lastHave && t.lastBpm == p.lastBpm && t.rejections == p.rejections + 1)
    && (t.reason == Delta && p.rejections >= 2 ==> !t.lastHave && t.rejections == 0)
    && (drops ==> !t.lastHave && t.rejections == 0)
    && (!drops && !reaches ==> t.lastHave == p.lastHave && t.lastBpm == p.lastBpm && t.rejections == p.rejections)
  }

  lemma JudgedVerdict(p: Pulse, left: nat, w: Window)
    ensures Verdict(left == 0 && w.Signal() == Fine && w.Agree(), false, p, w, Judged(p, left, w))
  {
    assert w.Signal() != Delta;
    hide Window.Energy, Window.Signal;
  }

  lemma ProcessedVerdict(s: State, w: Window)
    ensures Verdict(ReachesGuard(s.gate, w), !Counts(s.gate, w) || Disturbs(s.gate, w), s.pulse, w, NextPulse(s, w))
  {
    hide Window.Energy, Window.Signal, Window.Ready, Window.Moving, Warm3, Judged;
    var a := Gated(s.gate, w);
    assert Disturbs(a, w) == Disturbs(s.gate, w) && Warm3(a, w) == Warm3(s.gate, w) by {
      SameReadiness(s.gate, w);
    }
    if !a.active && Warm3(a, w) {
      var d := Disturbs(a, w);
      JudgedVerdict(if d then Dropped(s.pulse) else s.pulse, if d then Armed(a.left) else a.left, w);
    }
  }

  lemma SameReadiness(g: Gate, w: Window)
    ensures Warm3(Gated(g, w), w) == Warm3(g, w)
  {
  }

  lemma {:induction false} RunTracks(stillRun: nat, ws: seq<Window>)
    ensures Tracks(Run(Initial(stillRun), ws).gate, ws)
  {
    if ws != [] {
      var n := |ws| - 1;
      RunTracks(stillRun, ws[..n]);
      StepTracks(Run(Initial(stillRun), ws[..n]).gate, ws);
      hide Tracks, NextGate, NextPulse;
    }
  }

  /** Activity, warm-up and disturbance of earlier windows do not depend on later ones. */
  lemma PrefixHistory(ws: seq<Window>, n: nat, k: nat)
    requires k < n <= |ws|
    ensures Active(ws[..n], k) == Active(ws, k)
    ensures WarmedUp(ws[..n], k) == WarmedUp(ws, k)
    ensures Disturbing(ws[..n], k) == Disturbing(ws, k)
  {
    hide Window.Energy, Window.Ready, Window.Moving;
  }

  lemma PrefixCount(ws: seq<Window>, n: nat, j: nat)
    requires n <= |ws|
    ensures CountedDown(ws[..n], n, j) == CountedDown(ws, n, j)
  {
    hide WarmedUp, Disturbing;
    forall k | 0 <= k < n
      ensures WarmedUp(ws[..n], k) == WarmedUp(ws, k) && Disturbing(ws[..n], k) == Disturbing(ws, k)
    {
      PrefixHistory(ws, n, k);
    }
  }

  /** The next window in the terms of the history it is appended to. */
  lemma NextWindow(g: Gate, ws: seq<Window>)
    requires |ws| > 0 && Tracks(g, ws[..|ws| - 1])
    ensures var n := |ws| - 1;
            && Gated(g, ws[n]).active == Active(ws, n)
            && (WarmedUp(ws, n) <==> Counts(g, ws[n]))
            && Disturbing(ws, n) == Disturbs(g, ws[n])
  {
    hide Window.Energy, Window.Ready, CountedDown;
    var n := |ws| - 1;
    if n >= 1 {
      PrefixHistory(ws, n, n - 1);
    }
    if n >= 2 {
      PrefixHistory(ws, n, n - 2);
    }
  }

  lemma StepTracks(g: Gate, ws: seq<Window>)
    requires |ws| > 0 && Tracks(g, ws[..|ws| - 1])
    ensures Tracks(NextGate(g, ws[|ws| - 1]), ws)
  {
    var n := |ws| - 1;
    var t := NextGate(g, ws[n]);
    StepCounters(g, ws);
    hide NextGate, Active, WarmedUp, Disturbing;
    forall j | 1 <= j <= HOLDOFF
      ensures t.left <= HOLDOFF - j <==> CountedDown(ws, |ws|, j)
    {
      StepCountdown(g, ws, j);
    }
  }

  lemma StepCounters(g: Gate, ws: seq<Window>)
    requires |ws| > 0 && Tracks(g, ws[..|ws| - 1])
    ensures var n := |ws|;
            var t := NextGate(g, ws[n - 1]);
            && t.active == Active(ws, n - 1)
            && (t.active ==> if ws[n - 1].Moving() then t.stillRun == 0
                             else if n >= 2 && ws[n - 2].Moving() then t.stillRun == 1
                             else t.stillRun == 2)
            && t.prevMvValid == !Active(ws, n - 1)
            && (t.prevMvValid ==> t.prevMv == ws[n - 1].sensMv)
            && (t.calm >= 1 <==> !Active(ws, n - 1))
            && (t.calm >= 2 <==> n >= 2 && !Active(ws, n - 1) && !Active(ws, n - 2))
            && t.left <= HOLDOFF
  {
    var n := |ws| - 1;
    NextWindow(g, ws);
    if n >= 1 {
      PrefixHistory(ws, n, n - 1);
    }
    hide Disturbs, Warm3, CountedDown;
  }

  /** The holdoff counter as a countdown over the last windows. */
  lemma StepCountdown(g: Gate, ws: seq<Window>, j: int)
    requires |ws| > 0 && Tracks(g, ws[..|ws| - 1]) && 1 <= j <= HOLDOFF
    ensures NextGate(g, ws[|ws| - 1]).left <= HOLDOFF - j <==> CountedDown(ws, |ws|, j)
  {
    var n := |ws| - 1;
    NextWindow(g, ws);
    CountStep(ws, n, j);
    hide Gated, Disturbs, Warm3, Active, WarmedUp, Disturbing;
    if j > 1 {
      assert g.left <= HOLDOFF - (j - 1) <==> CountedDown(ws[..n], n, j - 1);
    }
  }

  /** One more window extends a countdown, and only an undisturbed warmed-up one does. */
  lemma CountStep(ws: seq<Window>, n: nat, j: nat)
    requires |ws| == n + 1 && j >= 1
    ensures CountedDown(ws, n + 1, 1) <==> WarmedUp(ws, n)
    ensures j >= 2 ==> (CountedDown(ws, n + 1, j) <==>
                        WarmedUp(ws, n) && !Disturbing(ws, n) && CountedDown(ws[..n], n, j - 1))
  {
    hide WarmedUp, Disturbing;
    if j >= 2 {
      PrefixCount(ws, n, j - 1);
    }
  }

  /** The estimates may be reported in window `i` exactly when the history has settled. */
  lemma AllowedIffSettled(ws: seq<Window>, i: nat)
    requires i < |ws|
    ensures Settled(ws, i) <==> WarmedUp(ws, i) && !Disturbing(ws, i) && CountedDown(ws, i, 5)
  {
    if WarmedUp(ws, i) && !Disturbing(ws, i) && CountedDown(ws, i, 5) {
      assert WarmedUp(ws, i - 5) && WarmedUp(ws, i - 4) && WarmedUp(ws, i - 3);
      assert WarmedUp(ws, i - 2) && WarmedUp(ws, i - 1);
    }
  }

  /** The window at `i` reaches the jump guard exactly when its history is settled. */
  lemma GuardReached(stillRun: nat, ws: seq<Window>, i: nat)
    requires i < |ws|
    ensures ReachesGuard(After(stillRun, ws, i).gate, ws[i]) <==> Reportable(ws, i)
    ensures DropsReference(ws, i) <==>
              (var g := After(stillRun, ws, i).gate; !Counts(g, ws[i]) || Disturbs(g, ws[i]))
  {
    var g := After(stillRun, ws, i).gate;
    RunTracks(stillRun, ws[..i]);
    var p := ws[..i + 1];
    assert p[..i] == ws[..i];
    NextWindow(g, p);
    PrefixHistory(ws, i + 1, i);
    PrefixCount(ws, i, 5);
    AllowedIffSettled(ws, i);
    assert g.left <= HOLDOFF - 5 <==> CountedDown(ws[..i], i, 5);
    hide Counts, Disturbs, WarmedUp, Disturbing, Settled, CountedDown, Run;
  }

  /** The state before window `i` and the one after it. */
  lemma OneStep(stillRun: nat, ws: seq<Window>, i: nat)
    requires i < |ws|
    ensures After(stillRun, ws, i + 1) == Processed(After(stillRun, ws, i), ws[i])
  {
    hide NextGate, NextPulse;
    assert ws[..i + 1][..i] == ws[..i];
  }

  /**
   hr_valid exactly: eight calm windows, six ready ones and five undisturbed ones behind it, a
   signal in band on a sound time base, peak and FFT in agreement, and no jump of more than
   25 BPM from the reference.
   */
  lemma HrValidExactly(stillRun: nat, ws: seq<Window>, i: nat)
    requires i < |ws| && ws[i].Valid()
    ensures var p := After(stillRun, ws, i).pulse;
            var t := After(stillRun, ws, i + 1).pulse;
            && (t.valid <==>
                && Settled(ws, i) && ws[i].Signal() == Fine && ws[i].Agree()
                && (p.lastHave ==> Abs(ws[i].Average() - p.lastBpm) <= MAX_DELTA_BPM))
            && (t.valid ==> t.bpm == ws[i].Average() && BPM_MIN <= t.bpm <= BPM_MAX)
  {
    OneStep(stillRun, ws, i);
    ProcessedVerdict(After(stillRun, ws, i), ws[i]);
    GuardReached(stillRun, ws, i);
    hide NextGate, NextPulse, ReachesGuard, Settled, After, Window.Signal;
  }

  // ---- The jump guard over runs ----------------------------------------------

  /** Window `i` drops the reference: it is active, not warmed up, or disturbed. */
  ghost predicate DropsReference(ws: seq<Window>, i: nat)
    requires i < |ws|
  {
    !WarmedUp(ws, i) || Disturbing(ws, i)
  }

  /** Window `i` would be reported but for the jump guard. */
  ghost predicate Reportable(ws: seq<Window>, i: nat)
    requires i < |ws|
  {
    Settled(ws, i) && ws[i].Signal() == Fine && ws[i].Agree()
  }

  function After(stillRun: nat, ws: seq<Window>, i: nat): State
    requires i <= |ws|
  {
    Run(Initial(stillRun), ws[..i])
  }

  /** Window `i` of the run reported a pulse, or was rejected by the jump guard. */
  predicate Reports(stillRun: nat, ws: seq<Window>, i: nat)
    requires i < |ws|
  {
    After(stillRun, ws, i + 1).pulse.valid
  }

  predicate Rejects(stillRun: nat, ws: seq<Window>, i: nat)
    requires i < |ws|
  {
    After(stillRun, ws, i + 1).pulse.reason == Delta
  }

  /** The BPM reported in window `i`. */
  function Bpm(stillRun: nat, ws: seq<Window>, i: nat): nat
    requires i < |ws|
  {
    After(stillRun, ws, i + 1).pulse.bpm
  }

  /** How many windows in a..b were rejected by the jump guard. */
  ghost function Rejections(stillRun: nat, ws: seq<Window>, a: nat, b: nat): nat
    requires a <= b <= |ws|
    decreases b
  {
    if a == b then 0
    else Rejections(stillRun, ws, a, b - 1) + if Rejects(stillRun, ws, b - 1) then 1 else 0
  }

  /** The reference of the jump guard across one window of a run. */
  lemma ReferenceStep(stillRun: nat, ws: seq<Window>, i: nat)
    requires i < |ws|
    ensures var s, t := After(stillRun, ws, i).pulse, After(stillRun, ws, i + 1).pulse;
            && (Reports(stillRun, ws, i) ==> t.lastHave && t.lastBpm == t.bpm && t.rejections == 0)
            && (Reports(stillRun, ws, i) && s.lastHave ==> Abs(t.bpm - s.lastBpm) <= MAX_DELTA_BPM)
            && (Rejects(stillRun, ws, i) ==> s.lastHave)
            && (Rejects(stillRun, ws, i) && s.rejections < 2 ==>
                  t.lastHave && t.lastBpm == s.lastBpm && t.rejections == s.rejections + 1)
            && (Rejects(stillRun, ws, i) && s.rejections >= 2 ==> !t.lastHave && t.rejections == 0)
            && (DropsReference(ws, i) ==> !t.lastHave && t.rejections == 0)
            && (Reportable(ws, i) <==> Reports(stillRun, ws, i) || Rejects(stillRun, ws, i))
            && (!DropsReference(ws, i) && !Reportable(ws, i) ==>
                  t.lastHave == s.lastHave && t.lastBpm == s.lastBpm && t.rejections == s.rejections)
  {
    OneStep(stillRun, ws, i);
    ProcessedVerdict(After(stillRun, ws, i), ws[i]);
    GuardReached(stillRun, ws, i);
    hide NextGate, NextPulse, ReachesGuard, Settled, After, DropsReference, Reportable, Counts, Disturbs;
  }

  /** Between a valid window and the next one the reference survives or a cause is on record. */
  lemma {:induction false} ReferenceKept(stillRun: nat, ws: seq<Window>, a: nat, b: nat)
    requires a < b <= |ws| && Reports(stillRun, ws, a)
    requires forall k :: a < k < b ==> !Reports(stillRun, ws, k) && !DropsReference(ws, k)
    requires Rejections(stillRun, ws, a + 1, b) < RESYNC_WINDOWS
    ensures var s := After(stillRun, ws, b).pulse;
            && s.lastHave && s.lastBpm == Bpm(stillRun, ws, a)
            && s.rejections == Rejections(stillRun, ws, a + 1, b)
    decreases b
  {
    hide After, Reports, Rejects, DropsReference, Reportable;
    ReferenceStep(stillRun, ws, b - 1);
    if b > a + 1 {
      ReferenceKept(stillRun, ws, a, b - 1);
    }
  }

  /**
   Jump guard: two successive valid windows differ by more than 25 BPM only if the reference was
   dropped between them or at least three windows were rejected for the jump.
   */
  lemma JumpNeedsCause(stillRun: nat, ws: seq<Window>, a: nat, b: nat)
    requires a < b < |ws| && Reports(stillRun, ws, a) && Reports(stillRun, ws, b)
    requires forall k :: a < k < b ==> !Reports(stillRun, ws, k)
    requires Abs(Bpm(stillRun, ws, b) - Bpm(stillRun, ws, a)) > MAX_DELTA_BPM
    ensures || (exists k :: a < k < b && DropsReference(ws, k))
            || Rejections(stillRun, ws, a + 1, b) >= RESYNC_WINDOWS
  {
    hide After, Reports, DropsReference, Reportable, Rejects;
    if (forall k :: a < k < b ==> !DropsReference(ws, k)) && Rejections(stillRun, ws, a + 1, b) < RESYNC_WINDOWS {
      ReferenceKept(stillRun, ws, a, b);
      ReferenceStep(stillRun, ws, b);
      assert false;
    }
  }

  ghost function Reportables(ws: seq<Window>, a: nat, b: nat): nat
    requires a <= b <= |ws|
    decreases b
  {
    if a == b then 0 else Reportables(ws, a, b - 1) + if Reportable(ws, b - 1) then 1 else 0
  }

  /** The rejections left before the guard gives in. */
  ghost function Patience(s: Pulse): int {
    if s.lastHave then RESYNC_WINDOWS - s.rejections else 0
  }

  lemma {:induction false} RejectionsBounded(stillRun: nat, ws: seq<Window>, i: nat)
    requires i <= |ws|
    ensures After(stillRun, ws, i).pulse.rejections < RESYNC_WINDOWS
  {
    if i > 0 {
      RejectionsBounded(stillRun, ws, i - 1);
      ReferenceStep(stillRun, ws, i - 1);
      hide After, Reports, Rejects, DropsReference, Reportable;
    }
  }

  lemma {:induction false} PatienceSpent(stillRun: nat, ws: seq<Window>, a: nat, b: nat)
    requires a <= b <= |ws|
    requires forall k :: a <= k < b ==> !Reports(stillRun, ws, k) && !DropsReference(ws, k)
    ensures Reportables(ws, a, b) + Patience(After(stillRun, ws, b).pulse) <= Patience(After(stillRun, ws, a).pulse)
    decreases b
  {
    hide After, Reports, Rejects, DropsReference, Reportable;
    if a < b {
      PatienceSpent(stillRun, ws, a, b - 1);
      RejectionsBounded(stillRun, ws, b - 1);
      ReferenceStep(stillRun, ws, b - 1);
    }
  }

  /**
   No lock-out: among any four reportable windows with no drop of the reference around them at
   least one is accepted, however far the rate moved.
   */
  lemma NeverLockedOut(stillRun: nat, ws: seq<Window>, a: nat, b: nat)
    requires a <= b <= |ws|
    requires forall k :: a <= k < b ==> !DropsReference(ws, k)
    requires Reportables(ws, a, b) >= 4
    ensures exists k :: a <= k < b && Reports(stillRun, ws, k)
  {
    hide After, Reports, DropsReference, Reportable;
    if forall k :: a <= k < b ==> !Reports(stillRun, ws, k) {
      PatienceSpent(stillRun, ws, a, b);
      RejectionsBounded(stillRun, ws, a);
      RejectionsBounded(stillRun, ws, b);
      assert false;
    }
  }
}
