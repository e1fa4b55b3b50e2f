/**
 The ADC sequencer (smart_helmet_adc.c): one converter shared by the one-second gas scan and the
 40 ms SENS_IN samples of the vitals. Conversions are asynchronous; the driver answers them in
 the order they were requested, so the outstanding ones form a FIFO.
 */
module AdcSequencer {
  import opened CArithmetic

  const CHANNELS: nat := 4

  datatype Source = Vref | SensIn | Co | Nh3 | No2

  /** sh_adc_sources. */
  function Channel(i: nat): (s: Source)
    requires i < CHANNELS
    ensures s != Vref && (s == SensIn <==> i == 0)
  {
    if i == 0 then SensIn else if i == 1 then Co else if i == 2 then Nh3 else No2
  }

  /** Who asked for a conversion. The driver's answer does not say; only the order tells. */
  datatype Client = Gas | Vitals

  datatype Conversion = Conversion(source: Source, owner: Client)

  /** A value handed to the vitals, with the client its conversion was requested for. */
  datatype Sample = Sample(mv: nat, owner: Client)

  datatype Mode = Idle | Full | Sens

  /**
   What the rest of the system sees: SENS ticks taken, samples fed to the vitals, ticks reported
   as dropped, ticks abandoned by a stop or restart, and the channels the gas scan wrote.
   */
  datatype Ledger = Ledger(ticks: nat, fed: seq<Sample>, dropped: nat, abandoned: nat, writes: seq<nat>)

  datatype Adc = Adc(mode: Mode, index: nat, vref: nat, mv: seq<nat>, fifo: seq<Conversion>, ledger: Ledger)

  /** Millivolts against the 1200 mV reference; an unread reference leaves the raw reading. */
  function Scale(reading: nat, vref: nat): nat {
    if vref != 0 then (reading * 1200 / vref) % 0x1_0000 else reading
  }

  /** A reference conversion and the channel behind it, both for one client. */
  function PairOf(s: Source, c: Client): seq<Conversion> { [Conversion(Vref, c), Conversion(s, c)] }

  function Requested(a: Adc, s: Source, c: Client): Adc { a.(fifo := a.fifo + PairOf(s, c)) }

  /** shAdcRequestNextFull */
  function NextFull(a: Adc): Adc {
    if a.index >= CHANNELS then a.(mode := Idle) else Requested(a, Channel(a.index), Gas)
  }

  /** SmartHelmet_AdcRequestScan */
  function RequestScan(a: Adc): Adc {
    if a.mode != Idle then a else NextFull(a.(mode := Full, index := 0))
  }

  /** SmartHelmet_AdcRequestSensIn: a tick that cannot be served is dropped, never deferred. */
  function RequestSens(a: Adc): Adc {
    var l := a.ledger.(ticks := a.ledger.ticks + 1);
    if a.mode != Idle then a.(ledger := l.(dropped := l.dropped + 1))
    else Requested(a.(mode := Sens, index := 0, ledger := l), SensIn, Vitals)
  }

  /** One conversion result, the oldest outstanding one. */
  function Deliver(a: Adc, reading: nat): Adc
    requires a.fifo != [] && |a.mv| == CHANNELS
  {
    var s := a.fifo[0].source;
    var b := a.(fifo := a.fifo[1..]);
    var x := Scale(reading, a.vref);
    if s == Vref then b.(vref := reading)
    else if a.mode == Sens then
      if s != SensIn then b
      else b.(mv := a.mv[0 := x], mode := Idle, ledger := a.ledger.(fed := a.ledger.fed + [Sample(x, a.fifo[0].owner)]))
    else if a.mode == Full && a.index < CHANNELS && s == Channel(a.index) then
      NextFull(b.(mv := a.mv[a.index := x], index := a.index + 1,
                  ledger := a.ledger.(writes := a.ledger.writes + [a.index])))
    else b
  }

  function Abandoned(a: Adc): Ledger {
    if a.mode == Sens then a.ledger.(abandoned := a.ledger.abandoned + 1) else a.ledger
  }

  /** SmartHelmet_AdcStop: conversions already requested stay outstanding. */
  function Stop(a: Adc): Adc { a.(mode := Idle, ledger := Abandoned(a)) }

  /** SmartHelmet_AdcInit */
  function Restart(a: Adc): Adc {
    a.(mode := Idle, index := 0, vref := 0, mv := [0, 0, 0, 0], ledger := Abandoned(a))
  }

  const FRESH := Adc(Idle, 0, 0, [0, 0, 0, 0], [], Ledger(0, [], 0, 0, []))

  datatype Event = ScanTick | SensTick | Result(reading: nat) | Halt | Begin

  predicate Enabled(a: Adc, e: Event) { e.Result? ==> a.fifo != [] }

  function Next(a: Adc, e: Event): (b: Adc)
    requires |a.mv| == CHANNELS && Enabled(a, e)
    ensures |b.mv| == CHANNELS
  {
    match e
    case ScanTick => RequestScan(a)
    case SensTick => RequestSens(a)
    case Result(reading) => Deliver(a, reading)
    case Halt => Stop(a)
    case Begin => Restart(a)
  }

  // ---- The firmware's variables -------------------------------------------------

  class Sequencer {
    var mode: Mode
    var index: nat
    var vref: nat
    var mv: seq<nat>
    var fifo: seq<Conversion>
    var fed: seq<Sample>
    var dropped: nat
    ghost var ticks: nat
    ghost var abandoned: nat
    ghost var writes: seq<nat>

    ghost function Abstract(): Adc
      reads this
    {
      Adc(mode, index, vref, mv, fifo, Ledger(ticks, fed, dropped, abandoned, writes))
    }

    constructor ()
      ensures Abstract() == FRESH
    {
      mode, index, vref, mv, fifo, fed, dropped := Idle, 0, 0, [0, 0, 0, 0], [], [], 0;
      ticks, abandoned, writes := 0, 0, [];
    }

    method ReadRequest(s: Source, c: Client)
      modifies `fifo
      ensures fifo == old(fifo) + [Conversion(s, c)]
    {
      fifo := fifo + [Conversion(s, c)];
    }

    method RequestNextFull()
      modifies `mode, `fifo
      ensures Abstract() == NextFull(old(Abstract()))
    {
      if index >= CHANNELS {
        mode := Idle;
        return;
      }
      ReadRequest(Vref, Gas);
      ReadRequest(Channel(index), Gas);
      assert fifo == old(fifo) + PairOf(Channel(index), Gas);
    }

    method Scan()
      modifies `mode, `index, `fifo
      ensures Abstract() == RequestScan(old(Abstract()))
    {
      if mode != Idle {
        return;
      }
      mode := Full;
      index := 0;
      RequestNextFull();
    }

    method SampleSens()
      modifies this
      ensures Abstract() == RequestSens(old(Abstract()))
    {
      ticks := ticks + 1;
      if mode != Idle {
        dropped := dropped + 1;
        return;
      }
      mode := Sens;
      index := 0;
      ReadRequest(Vref, Vitals);
      ReadRequest(SensIn, Vitals);
      assert fifo == old(fifo) + PairOf(SensIn, Vitals);
    }

    method HandleResult(reading: nat) returns (consumed: bool)
      requires fifo != [] && |mv| == CHANNELS
      modifies this
      ensures Abstract() == Deliver(old(Abstract()), reading)
      ensures consumed <==> || old(fifo[0]).source == Vref
                            || (old(mode) == Sens && old(fifo[0]).source == SensIn)
                            || (old(mode) == Full && old(index) < CHANNELS && old(fifo[0]).source == Channel(old(index)))
    {
      hide NextFull;
      var source, owner := fifo[0].source, fifo[0].owner;
      fifo := fifo[1..];
      if source == Vref {
        vref := reading;
        return true;
      }
      var scaled := if vref != 0 then reading * 1200 / vref else reading;
      var stored := if vref != 0 then scaled % 0x1_0000 else scaled;
      if mode == Sens {
        if source != SensIn {
          return false;
        }
        mv := mv[0 := stored];
        mode := Idle;
        fed := fed + [Sample(stored, owner)];
        return true;
      }
      if mode == Full && index < CHANNELS && source == Channel(index) {
        mv := mv[index := stored];
        writes := writes + [index];
        index := index + 1;
        RequestNextFull();
        return true;
      }
      return false;
    }

    method Halted()
      modifies this
      ensures Abstract() == Stop(old(Abstract()))
    {
      if mode == Sens {
        abandoned := abandoned + 1;
      }
      mode := Idle;
    }

    method Init()
      modifies this
      ensures Abstract() == Restart(old(Abstract()))
    {
      if mode == Sens {
        abandoned := abandoned + 1;
      }
      index, mode, vref, mv := 0, Idle, 0, [0, 0, 0, 0];
    }
  }

  // ---- Every run, stops and restarts included ---------------------------------------

  /** The source whose result would move the sequencer on. */
  function Awaited(a: Adc): Source
    requires a.mode != Idle && a.index < CHANNELS
  {
    if a.mode == Sens then SensIn else Channel(a.index)
  }

  /** Some outstanding conversion reads source s. */
  ghost predicate Outstanding(fifo: seq<Conversion>, s: Source) {
    exists i :: 0 <= i < |fifo| && fifo[i].source == s
  }

  ghost predicate Sound(a: Adc) {
    && |a.mv| == CHANNELS
    && (a.mode != Idle ==> a.index < CHANNELS && Outstanding(a.fifo, Awaited(a)))
    && a.ledger.ticks ==
       |a.ledger.fed| + a.ledger.dropped + a.ledger.abandoned + if a.mode == Sens then 1 else 0
  }

  lemma OutstandingAfter(fifo: seq<Conversion>, s: Source)
    requires fifo != [] && Outstanding(fifo, s) && fifo[0].source != s
    ensures Outstanding(fifo[1..], s)
  {
    var i :| 0 <= i < |fifo| && fifo[i].source == s;
    assert fifo[1..][i - 1] == fifo[i];
  }

  lemma OutstandingRequested(fifo: seq<Conversion>, s: Source, c: Client)
    ensures Outstanding(fifo + PairOf(s, c), s)
  {
    assert (fifo + PairOf(s, c))[|fifo| + 1].source == s;
  }

  lemma NextSound(a: Adc, e: Event)
    requires Sound(a) && Enabled(a, e)
    ensures Sound(Next(a, e))
  {
    match e
    case Result(_) =>
      if a.mode != Idle && a.fifo[0].source != Awaited(a) {
        OutstandingAfter(a.fifo, Awaited(a));
      } else if a.mode == Full && a.index < 3 {
        OutstandingRequested(a.fifo[1..], Channel(a.index + 1), Gas);
      }
    case ScanTick => OutstandingRequested(a.fifo, SensIn, Gas);
    case SensTick => OutstandingRequested(a.fifo, SensIn, Vitals);
    case _ =>
  }

  /** A run of events, each of which is possible when it happens. */
  ghost predicate Possible(a: Adc, es: seq<Event>)
    requires |a.mv| == CHANNELS
    decreases es
  {
    es == [] || (Enabled(a, es[0]) && Possible(Next(a, es[0]), es[1..]))
  }

  ghost function Run(a: Adc, es: seq<Event>): (b: Adc)
    requires |a.mv| == CHANNELS && Possible(a, es)
    ensures |b.mv| == CHANNELS
    decreases es
  {
    if es == [] then a else Run(Next(a, es[0]), es[1..])
  }

  /**
   Every run: while the sequencer is busy the conversion it waits for is outstanding, and every
   SENS tick is accounted for once - fed to the vitals, dropped, abandoned or in flight. The
   account does not say whose conversion was fed; see `StaleSampleFed`.
   */
  lemma {:induction false} RunSound(a: Adc, es: seq<Event>)
    requires Sound(a) && Possible(a, es)
    ensures Sound(Run(a, es))
    decreases es
  {
    if es != [] {
      NextSound(a, es[0]);
      RunSound(Next(a, es[0]), es[1..]);
    }
  }

  /** The results that are still to come before the sequencer is idle with nothing outstanding. */
  function Due(a: Adc): int {
    |a.fifo| + if a.mode == Full then 2 * (CHANNELS - 1 - a.index) else 0
  }

  /** Each result brings that state exactly one nearer: the sequencer cannot hang. */
  lemma DueStep(a: Adc, reading: nat)
    requires Sound(a) && a.fifo != []
    ensures Sound(Deliver(a, reading)) && Due(Deliver(a, reading)) == Due(a) - 1
    ensures a.mode == Idle ==> Deliver(a, reading).mode == Idle && Deliver(a, reading).ledger == a.ledger
  {
    NextSound(a, Result(reading));
    hide Scale, Sound;
  }

  function Results(rs: seq<nat>): (es: seq<Event>)
    ensures |es| == |rs|
  {
    seq(|rs|, i requires 0 <= i < |rs| => Result(rs[i]))
  }

  /**
   What draining restores: from any reachable state, whatever was stopped on the way, exactly Due(a)
   results lead to an idle sequencer with an empty queue; if it was idle they feed and write nothing.
   */
  lemma {:induction false} Drained(a: Adc, rs: seq<nat>)
    requires Sound(a) && |rs| == Due(a)
    ensures Possible(a, Results(rs))
    ensures var z := Run(a, Results(rs)); Exact(z) && z.mode == Idle && (a.mode == Idle ==> z.ledger == a.ledger)
    decreases |rs|
  {
    if rs == [] {
      assert Results(rs) == [];
    } else {
      BusyMeansDue(a);
      DueStep(a, rs[0]);
      assert Results(rs)[0] == Result(rs[0]) && Results(rs)[1..] == Results(rs[1..]);
      hide Sound, Due, Exact;
      Drained(Deliver(a, rs[0]), rs[1..]);
    }
  }

  lemma BusyMeansDue(a: Adc)
    requires Sound(a)
    ensures Due(a) >= 0 && (Due(a) == 0 <==> a.fifo == []) && (Due(a) == 0 ==> a.mode == Idle)
  {
  }

  // ---- Whose conversion is it? -----------------------------------------------------------

  /** The outstanding conversions are exactly the current operation's own, in order. */
  ghost predicate Exact(a: Adc) {
    && Sound(a)
    && match a.mode
       case Idle => a.fifo == []
       case Sens => a.fifo == PairOf(SensIn, Vitals) || a.fifo == PairOf(SensIn, Vitals)[1..]
       case Full => a.fifo == PairOf(Channel(a.index), Gas) || a.fifo == PairOf(Channel(a.index), Gas)[1..]
  }

  /**
   A stop leaves requested conversions outstanding, and the next operation takes them for its own. A
   restart during the gas scan's first channel, which SmartHelmet_Init performs without a scan of its own, feeds
   that scan's SENS_IN conversion to the vitals at the next SENS tick.
   */
  lemma StaleSampleFed(v: nat, x: nat)
    ensures var es := [ScanTick, Begin, SensTick, Result(v), Result(x)];
            && Possible(FRESH, es)
            && Run(FRESH, es).ledger.fed == [Sample(Scale(x, v), Gas)]
            && Sound(Run(FRESH, es)) && !Exact(Run(FRESH, es))
  {
    hide Scale;
    var a1 := Next(FRESH, ScanTick);
    var a2 := Next(a1, Begin);
    var a3 := Next(a2, SensTick);
    var a4 := Next(a3, Result(v));
    assert a4.fifo == [Conversion(SensIn, Gas)] + PairOf(SensIn, Vitals);
    var a5 := Next(a4, Result(x));
    RunOne(a4, Result(x), []);
    RunOne(a3, Result(v), [Result(x)]);
    RunOne(a2, SensTick, [Result(v), Result(x)]);
    RunOne(a1, Begin, [SensTick, Result(v), Result(x)]);
    RunOne(FRESH, ScanTick, [Begin, SensTick, Result(v), Result(x)]);
    assert [ScanTick] + [Begin, SensTick, Result(v), Result(x)] == [ScanTick, Begin, SensTick, Result(v), Result(x)];
    assert [Begin] + [SensTick, Result(v), Result(x)] == [Begin, SensTick, Result(v), Result(x)];
    assert [SensTick] + [Result(v), Result(x)] == [SensTick, Result(v), Result(x)];
    assert [Result(v)] + [Result(x)] == [Result(v), Result(x)] && [Result(x)] + [] == [Result(x)];
  }

  lemma RunOne(a: Adc, e: Event, es: seq<Event>)
    requires |a.mv| == CHANNELS && Enabled(a, e) && Possible(Next(a, e), es)
    ensures Possible(a, [e] + es) && Run(a, [e] + es) == Run(Next(a, e), es)
  {
    assert ([e] + es)[1..] == es;
  }

  predicate Stopping(e: Event) { e.Halt? || e.Begin? }

  /** Every stop and restart of the run finds the sequencer idle. */
  ghost predicate StopsWhenIdle(a: Adc, es: seq<Event>)
    requires |a.mv| == CHANNELS && Possible(a, es)
    decreases es
  {
    es == [] || ((Stopping(es[0]) ==> a.mode == Idle) && StopsWhenIdle(Next(a, es[0]), es[1..]))
  }

  /** The queue is exact before, during and after the run. */
  ghost predicate ExactThroughout(a: Adc, es: seq<Event>)
    requires |a.mv| == CHANNELS && Possible(a, es)
    decreases es
  {
    Exact(a) && (es == [] || ExactThroughout(Next(a, es[0]), es[1..]))
  }

  ghost predicate InOrder(writes: seq<nat>) {
    forall i :: 0 <= i < |writes| ==> writes[i] == i % CHANNELS
  }

  lemma WriteInOrder(writes: seq<nat>, index: nat)
    requires InOrder(writes) && |writes| % CHANNELS == index < CHANNELS
    ensures InOrder(writes + [index])
    ensures |writes + [index]| % CHANNELS == if index == 3 then 0 else index + 1
  {
  }

  /** What happened after the ledger read l0: channels 0, 1, 2, 3, 0, ... written, own samples fed, nothing abandoned. */
  ghost predicate Proper(l0: Ledger, a: Adc) {
    && l0.writes <= a.ledger.writes && l0.fed <= a.ledger.fed
    && InOrder(a.ledger.writes[|l0.writes|..])
    && (|a.ledger.writes| - |l0.writes|) % CHANNELS == (if a.mode == Full then a.index else 0)
    && (forall i :: |l0.fed| <= i < |a.ledger.fed| ==> a.ledger.fed[i].owner == Vitals)
    && a.ledger.abandoned == l0.abandoned
  }

  /** One step is exact again exactly when it does not stop a busy sequencer. */
  lemma NextExact(a: Adc, e: Event)
    requires Exact(a) && Enabled(a, e)
    ensures Exact(Next(a, e)) <==> (Stopping(e) ==> a.mode == Idle)
  {
    NextSound(a, e);
    hide Scale, Sound;
  }

  lemma NextProper(l0: Ledger, a: Adc, e: Event)
    requires Exact(a) && Proper(l0, a) && Enabled(a, e) && (Stopping(e) ==> a.mode == Idle)
    ensures Proper(l0, Next(a, e))
  {
    if a.mode == Full {
      var w, k := a.ledger.writes, |l0.writes|;
      WriteInOrder(w[k..], a.index);
      assert (w + [a.index])[k..] == w[k..] + [a.index];
    }
    hide Scale, InOrder, Sound;
  }

  /**
   Over every run, stops and restarts included: the queue is exact at every point if and only if each stop
   and restart finds the sequencer idle. Then every sample fed was requested for the vitals, every
   scan wrote the four channels in order, and no tick was abandoned.
   */
  lemma {:induction false} ExactExactly(l0: Ledger, a: Adc, es: seq<Event>)
    requires Exact(a) && Proper(l0, a) && Possible(a, es)
    ensures ExactThroughout(a, es) <==> StopsWhenIdle(a, es)
    ensures StopsWhenIdle(a, es) ==> Exact(Run(a, es)) && Proper(l0, Run(a, es))
    decreases es
  {
    if es != [] {
      NextExact(a, es[0]);
      if Stopping(es[0]) ==> a.mode == Idle {
        NextProper(l0, a, es[0]);
        hide Exact, Proper, Next, Stopping;
        ExactExactly(l0, Next(a, es[0]), es[1..]);
      } else {
        hide Exact, Proper, Next;
        NotExactNow(Next(a, es[0]), es[1..]);
      }
    }
  }

  lemma NotExactNow(a: Adc, es: seq<Event>)
    requires |a.mv| == CHANNELS && Possible(a, es) && !Exact(a)
    ensures !ExactThroughout(a, es)
  {
  }

  /**
   From power-up: exactness at every point is the same as stopping only when idle, and then every SENS tick is
   delivered, dropped or in flight, with no conversion of the gas scan ever fed to the vitals.
   */
  lemma ProtocolExact(es: seq<Event>)
    requires Possible(FRESH, es)
    ensures ExactThroughout(FRESH, es) <==> StopsWhenIdle(FRESH, es)
    ensures var a := Run(FRESH, es);
            StopsWhenIdle(FRESH, es) ==>
              && Exact(a) && InOrder(a.ledger.writes)
              && (forall i :: 0 <= i < |a.ledger.fed| ==> a.ledger.fed[i].owner == Vitals)
              && a.ledger.ticks == |a.ledger.fed| + a.ledger.dropped + if a.mode == Sens then 1 else 0
  {
    ExactExactly(FRESH.ledger, FRESH, es);
    var a := Run(FRESH, es);
    assert a.ledger.writes[0..] == a.ledger.writes;
  }

  /** After any run, draining makes the next one exact: what it feeds from then on is the vitals' own. */
  lemma ExactAfterDraining(a: Adc, rs: seq<nat>, es: seq<Event>)
    requires Sound(a) && |rs| == Due(a)
    ensures Possible(a, Results(rs))
    ensures var z := Run(a, Results(rs));
            Possible(z, es) ==>
              && (ExactThroughout(z, es) <==> StopsWhenIdle(z, es))
              && (StopsWhenIdle(z, es) ==> Proper(z.ledger, Run(z, es)))
  {
    Drained(a, rs);
    var z := Run(a, Results(rs));
    ProperNow(z);
    hide Exact, Proper;
    if Possible(z, es) {
      ExactExactly(z.ledger, z, es);
    }
  }

  lemma ProperNow(z: Adc)
    requires z.mode == Idle
    ensures Proper(z.ledger, z)
  {
  }

  /** A whole scan: eight results later each channel holds its own reading on its own reference. */
  lemma ScanCompletes(a: Adc, r: seq<nat>)
    requires Exact(a) && a.mode == Idle && |r| == 8
    ensures var b := Pair(Pair(Pair(Pair(RequestScan(a), r[0], r[1]), r[2], r[3]), r[4], r[5]), r[6], r[7]);
            && b.mode == Idle && b.fifo == []
            && b.mv == [Scale(r[1], r[0]), Scale(r[3], r[2]), Scale(r[5], r[4]), Scale(r[7], r[6])]
            && b.ledger.fed == a.ledger.fed
  {
    hide Scale, Pair, Deliver, Sound;
    var s0 := RequestScan(a);
    assert s0.fifo == PairOf(Channel(0), Gas) && s0.mode == Full && s0.index == 0 && s0.mv == a.mv;
    assert |a.mv| == CHANNELS by { ExactHasFour(a); }
    hide RequestScan, Exact, PairOf;
    PairStep(s0, r[0], r[1]);
    var s1 := Pair(s0, r[0], r[1]);
    PairStep(s1, r[2], r[3]);
    var s2 := Pair(s1, r[2], r[3]);
    PairStep(s2, r[4], r[5]);
    var s3 := Pair(s2, r[4], r[5]);
    PairStep(s3, r[6], r[7]);
    FourUpdates(a.mv, Scale(r[1], r[0]), Scale(r[3], r[2]), Scale(r[5], r[4]), Scale(r[7], r[6]));
  }

  lemma ExactHasFour(a: Adc)
    requires Exact(a)
    ensures |a.mv| == CHANNELS
  {
  }

  lemma FourUpdates(mv: seq<nat>, p: nat, q: nat, r: nat, s: nat)
    requires |mv| == CHANNELS
    ensures mv[0 := p][1 := q][2 := r][3 := s] == [p, q, r, s]
  {
  }

  /** A reference result and the channel result behind it. */
  function Pair(a: Adc, ref: nat, reading: nat): (b: Adc)
    requires |a.mv| == CHANNELS
    ensures |b.mv| == CHANNELS
  {
    if |a.fifo| >= 2 then Deliver(Deliver(a, ref), reading) else a
  }

  lemma PairStep(a: Adc, ref: nat, reading: nat)
    requires |a.mv| == CHANNELS && a.mode == Full && a.index < CHANNELS && a.fifo == PairOf(Channel(a.index), Gas)
    ensures var b := Pair(a, ref, reading);
            && b.mv == a.mv[a.index := Scale(reading, ref)] && b.ledger.fed == a.ledger.fed
            && (a.index < 3 ==> b.mode == Full && b.index == a.index + 1 && b.fifo == PairOf(Channel(b.index), Gas))
            && (a.index == 3 ==> b.mode == Idle && b.fifo == [])
  {
    hide Scale;
  }
}
