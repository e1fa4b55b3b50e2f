/**
 Power and timer discipline across the application state machine (headset_sm.c), the helmet
 module (smart_helmet.c), its sensor probe (smart_helmet_sensors.c), its ADC timers
 (smart_helmet_adc.c) and the Wi-SUN link (smart_helmet_uart.c). What the services around them
 answer at each step is given by `Env`.
 */
module PowerTimers {
  import opened WisunLink

  datatype State = Null | FactoryReset | Limbo | PoweringOn | Pairing | Idle | Busy | Terminating | PoweringOff

  datatype ChargerEvent = Attached | Detached | Disabled | Completed | ChargingOk | ChargingLow

  /** The charge indication in LIMBO: last event, LED shown, hysteresis. */
  datatype Charge = Charge(event: ChargerEvent, led: nat, high: bool)

  /** What the last step asked of the system: nothing, a power-off, or cutting the power. */
  datatype Request = Nothing | PowerOffMessage | CutPower

  datatype App = App(state: State, idleTimer: bool, limboTimer: bool, charge: Charge, halted: bool, request: Request)

  /**
   The helmet module. `stale` records that the module was initialised after the last
   refresh, `scanning` that the ADC timers were started by an initialisation.
   */
  datatype Helmet = Helmet(
    ready: bool, powered: bool, stale: bool, scanning: bool,
    motion: bool, probe: bool, probeTask: bool, adc: bool, link: Link)

  datatype World = World(app: App, helmet: Helmet)

  /** `free`: nothing outside this model keeps the headset awake while it is idle. */
  datatype Env = Env(free: bool, soc: nat, cable: bool, sensorsReady: bool, uartOk: bool, sendOk: bool, now: nat)

  const START: World :=
    World(App(Null, false, false, Charge(Detached, 0, false), false, Nothing),
          Helmet(false, false, false, false, false, false, false, false, AT_REST))

  /** The states in which the helmet is meant to be up. */
  predicate Awake(s: State) { s == PoweringOn || s == Pairing || s == State.Idle || s == Busy }

  predicate BrOnline(l: Link) { l.status.online && !l.join.rejoining }

  // ---- The helmet module ---------------------------------------------------------------

  function ReportStopped(l: Link): Link { l.(timers := l.timers.(report := false)) }

  function HelmetOn(h: Helmet, env: Env): Helmet {
    if !h.ready || h.powered then h
    else
      var l := Report(StartVerify(Open(h.link, env.uartOk)), env.sensorsReady, env.sendOk, env.now);
      h.(powered := true, adc := true, probeTask := true, probe := h.probe || !env.sensorsReady, motion := true, link := l)
  }

  function HelmetOff(h: Helmet): Helmet {
    if !h.powered then h
    else
      h.(powered := false, motion := false, probe := false, probeTask := false, adc := false, scanning := false,
         link := Sleep(ReportStopped(h.link)))
  }

  function Closed(h: Helmet): Helmet {
    h.(ready := false, powered := false, motion := false, probe := false, probeTask := false, adc := false,
       scanning := false, link := Close(ReportStopped(h.link)))
  }

  /** SmartHelmet_Init: run at start-up and again by every system power-on. */
  function Initialised(h: Helmet, ok: bool): Helmet {
    var h' := (if h.ready then Closed(h) else h).(stale := true);
    if ok then h'.(adc := true, scanning := true, ready := true) else h'
  }

  function Refreshed(h: Helmet, s: State, env: Env): Helmet {
    (if Awake(s) then HelmetOn(h, env) else HelmetOff(h)).(stale := false)
  }

  // ---- The charge indication ------------------------------------------------------------

  predicate ChargeEvent(e: ChargerEvent) { e == Completed || e == Attached || e == ChargingOk || e == ChargingLow }

  /** headsetSmLimboChargeLedChoice: the choice and what it changes. */
  function LedChoice(c: Charge, env: Env): (nat, Charge) {
    var event :=
      if env.soc >= 99 && (c.event == ChargingOk || c.event == ChargingLow || c.event == Attached) then Disabled
      else c.event;
    var d := c.(event := event);
    if event == Completed || (event == Disabled && env.cable) then
      if env.soc <= 90 then (1, d.(high := false)) else (2, d.(high := true))
    else if event == ChargingOk || event == ChargingLow then
      var high := if env.soc >= 95 then true else if env.soc <= 92 then false else c.high;
      (if high then 2 else 1, d.(high := high))
    else if event == Attached then (3, d)
    else (0, d.(high := false))
  }

  function LedApplied(w: World, env: Env): World {
    if w.app.state != Limbo then w
    else
      var (choice, c) := LedChoice(w.app.charge, env);
      var h := if choice != 0 || env.cable || ChargeEvent(c.event) then Refreshed(w.helmet, Limbo, env) else w.helmet;
      var app := w.app.(charge := c);
      if choice == 3 || choice == c.led then World(app, h)
      else
        var cable := choice != 0 || env.cable || c.event == Completed || c.event == Attached;
        World(app.(charge := c.(led := choice), limboTimer := !cable), h)
  }

  // ---- The application state machine ----------------------------------------------------

  predicate NeedsIdleTimer(w: World, env: Env) { env.free && w.app.state == State.Idle && !BrOnline(w.helmet.link) }

  function IdleStarted(w: World, env: Env): World {
    if NeedsIdleTimer(w, env) then w.(app := w.app.(idleTimer := true)) else w
  }

  function IdleStopped(w: World): World { w.(app := w.app.(idleTimer := false)) }

  function Left(a: App): App {
    match a.state
    case Limbo => a.(limboTimer := false, charge := a.charge.(led := 0))
    case Idle => a.(idleTimer := false)
    case _ => a
  }

  function Entered(w: World, env: Env): World {
    match w.app.state
    case Limbo => LedApplied(w.(app := w.app.(limboTimer := true)), env)
    case PoweringOn => w.(helmet := HelmetOn(w.helmet, env))
    case PoweringOff => w.(helmet := HelmetOff(w.helmet))
    case Idle => IdleStarted(w, env)
    case _ => w
  }

  /** headsetSetState: exit, new state, refresh, entry. Leaving FACTORY_RESET panics. */
  function SetState(w: World, s: State, env: Env): World {
    if w.app.state == FactoryReset then w.(app := w.app.(halted := true))
    else Entered(World(Left(w.app).(state := s), Refreshed(w.helmet, s, env)), env)
  }

  datatype Event =
    | Init(ok: bool)
    | StartedUp | SystemPoweringOn | PoweredOn(wired: bool, paired: bool) | SystemPoweringOff | TopologyStopped
    | PairConfirm | PairFailed | PairHandset(paused: bool)
    | HandsetConnected | HandsetDisconnected | AncChanged(on: bool) | LeakthroughChanged(on: bool)
    | AudioChanged(busy: bool) | WiredConnected | WiredDisconnected
    | Charger(event: ChargerEvent) | SocUpdate | ShutdownPrepare | FactoryResetRequest
    | IdleTimeout(handset: bool) | LimboTimeout
    | LinkEvent(e: WisunLink.Event) | MotionPoll | ProbeRetry(again: bool) | AdcTick

  /** A timer event needs its timer pending; a stray service event may come at any time. */
  predicate Enabled(w: World, e: Event) {
    match e
    case IdleTimeout(_) => w.app.idleTimer
    case LimboTimeout => w.app.limboTimer
    case LinkEvent(le) => WisunLink.Enabled(w.helmet.link, le)
    case MotionPoll => w.helmet.motion
    case ProbeRetry(_) => w.helmet.probe
    case AdcTick => w.helmet.adc
    case _ => true
  }

  function OnPoweredOn(w: World, wired: bool, paired: bool, env: Env): World {
    if !wired then SetState(w, if paired then State.Idle else Pairing, env)
    else if w.app.state == PoweringOn then SetState(w, State.Idle, env)
    else w
  }

  function OnCharger(w: World, event: ChargerEvent, env: Env): World {
    var w' := if (event == Attached || event == ChargingOk || event == ChargingLow) && w.app.state == PoweringOff
              then SetState(w, Limbo, env) else w;
    LedApplied(w'.(app := w'.app.(charge := w'.app.charge.(event := event))), env)
  }

  function OnIdleTimeout(w: World, handset: bool): World {
    var w' := IdleStopped(w);
    if w.app.state == State.Idle && !handset then
      if BrOnline(w.helmet.link) then w'.(app := w'.app.(idleTimer := true))
      else w'.(app := w'.app.(request := PowerOffMessage))
    else w'
  }

  function OnLimboTimeout(w: World, env: Env): World {
    var w' := w.(app := w.app.(limboTimer := false));
    if w.app.state == Limbo && !env.cable && !ChargeEvent(w.app.charge.event) then
      World(w'.app.(request := CutPower), HelmetOff(w'.helmet))
    else w'
  }

  /** A change of `online` is passed on, except where a timeout clears it silently. */
  function OnLink(w: World, e: WisunLink.Event, env: Env): World {
    var l := WisunLink.Next(w.helmet.link, e);
    var w' := w.(helmet := w.helmet.(link := l));
    if e.Timeout? || l.status.online == w.helmet.link.status.online then w'
    else if l.status.online then IdleStopped(w')
    else IdleStarted(w', env)
  }

  function OnProbe(h: Helmet, again: bool, env: Env): Helmet {
    var h' := h.(probe := again && h.probeTask);
    if env.sensorsReady && h.link.passthrough then
      h'.(link := Report(h.link, env.sensorsReady, env.sendOk, env.now))
    else h'
  }

  function OnProbeRetry(w: World, again: bool, env: Env): World {
    var h := OnProbe(w.helmet, again, env);
    var w' := w.(helmet := h);
    if h.link.status.online == w.helmet.link.status.online then w' else IdleStarted(w', env)
  }

  function OnHandsetConnected(w: World, env: Env): World {
    if w.app.state == State.Idle then IdleStopped(w).(helmet := Refreshed(w.helmet, State.Idle, env)) else w
  }

  function OnAncOff(w: World, env: Env): World {
    var w' := IdleStarted(w, env);
    if w.app.state == State.Idle then w'.(helmet := Refreshed(w'.helmet, State.Idle, env)) else w'
  }

  predicate AboveLimboOrOn(s: State) {
    s == Pairing || s == State.Idle || s == Busy || s == Terminating || s == PoweringOff
  }

  function Handled(w: World, e: Event, env: Env): World {
    match e
    case Init(ok) => w.(helmet := Initialised(w.helmet, ok))
    case StartedUp => if w.app.state == Null then SetState(w, Limbo, env) else w.(app := w.app.(halted := true))
    case SystemPoweringOn => SetState(w, PoweringOn, env)
    case PoweredOn(wired, paired) => OnPoweredOn(w, wired, paired, env)
    case SystemPoweringOff => SetState(w, PoweringOff, env)
    case TopologyStopped =>
      if w.app.state == PoweringOff then
        var w' := SetState(w, Limbo, env);
        w'.(app := w'.app.(request := CutPower))
      else w
    case PairConfirm => if w.app.state == Pairing then SetState(w, State.Idle, env) else w
    case PairFailed => if w.app.state == Pairing then SetState(w, State.Idle, env) else w
    case PairHandset(paused) => if w.app.state == State.Idle || paused then SetState(w, Pairing, env) else w
    case HandsetConnected => OnHandsetConnected(w, env)
    case HandsetDisconnected => IdleStarted(w, env)
    case AncChanged(on) => if on then IdleStopped(w) else OnAncOff(w, env)
    case LeakthroughChanged(on) => if on then IdleStopped(w) else IdleStarted(w, env)
    case AudioChanged(busy) =>
      if w.app.state == State.Idle || w.app.state == Busy then SetState(w, if busy then Busy else State.Idle, env) else w
    case WiredConnected =>
      if w.app.state == PoweringOn || w.app.state == State.Idle || w.app.state == Busy then SetState(w, Busy, env) else w
    case WiredDisconnected => if w.app.state == Busy then SetState(w, State.Idle, env) else w
    case Charger(event) => OnCharger(w, event, env)
    case SocUpdate => LedApplied(w, env)
    case ShutdownPrepare => if w.app.state == Limbo then w else SetState(w, Terminating, env)
    case FactoryResetRequest => if AboveLimboOrOn(w.app.state) then SetState(w, FactoryReset, env) else w
    case IdleTimeout(handset) => OnIdleTimeout(w, handset)
    case LimboTimeout => OnLimboTimeout(w, env)
    case LinkEvent(le) => OnLink(w, le, env)
    case MotionPoll => w.(helmet := w.helmet.(motion := w.helmet.powered))
    case ProbeRetry(again) => OnProbeRetry(w, again, env)
    case AdcTick => w
  }

  function Next(w: World, e: Event, env: Env): World {
    if w.app.halted then w else Handled(w.(app := w.app.(request := Nothing)), e, env)
  }

  // ---- What every step keeps ---------------------------------------------------------------

  ghost predicate AppInv(a: App) {
    (a.idleTimer ==> a.state == State.Idle) && (a.limboTimer ==> a.state == Limbo)
  }

  /** Nothing of an unpowered helmet is pending, except ADC timers an initialisation started. */
  ghost predicate HelmetInv(h: Helmet) {
    && WisunLink.Inv(h.link)
    && (h.powered ==> h.ready)
    && (!h.powered ==> Asleep(h) && (h.adc ==> h.scanning))
  }

  predicate Asleep(h: Helmet) {
    !h.motion && !h.probe && !h.link.timers.report && !h.link.timers.link && !h.link.timers.rxPoll && !h.link.port.open
  }

  ghost predicate PowerInv(h: Helmet, s: State) { h.powered <==> h.ready && Awake(s) && !h.stale }

  ghost predicate Inv(w: World) { AppInv(w.app) && HelmetInv(w.helmet) && PowerInv(w.helmet, w.app.state) }

  /** No ADC timer runs unpowered. */
  predicate AdcOk(h: Helmet) { h.powered || !h.adc }

  lemma OpenKeeps(l: Link, ok: bool)
    requires WisunLink.Inv(l)
    ensures WisunLink.Inv(Open(l, ok))
  {
  }

  lemma SleepKeeps(l: Link)
    requires WisunLink.Inv(l)
    ensures WisunLink.Inv(Sleep(ReportStopped(l))) && WisunLink.Inv(Close(ReportStopped(l)))
  {
  }

  lemma OnKeeps(h: Helmet, env: Env)
    requires HelmetInv(h)
    ensures HelmetInv(HelmetOn(h, env)) && HelmetOn(h, env).powered == h.ready
    ensures HelmetOn(h, env).ready == h.ready && HelmetOn(h, env).stale == h.stale
    ensures AdcOk(h) ==> AdcOk(HelmetOn(h, env))
  {
    if h.ready && !h.powered {
      OpenKeeps(h.link, env.uartOk);
      BuffersFit(h.link);
      hide WisunLink.Inv, Report, StartVerify;
      var l := Open(h.link, env.uartOk);
      StartKeeps(l);
      ReportKeeps(StartVerify(l), env.sensorsReady, env.sendOk, env.now);
    }
  }

  lemma OffKeeps(h: Helmet)
    requires HelmetInv(h)
    ensures HelmetInv(HelmetOff(h)) && !HelmetOff(h).powered && HelmetOff(h).ready == h.ready
    ensures HelmetOff(h).stale == h.stale && (AdcOk(h) ==> AdcOk(HelmetOff(h)))
  {
    SleepKeeps(h.link);
    hide WisunLink.Inv;
  }

  lemma InitKeeps(h: Helmet, ok: bool)
    requires HelmetInv(h)
    ensures HelmetInv(Initialised(h, ok)) && !Initialised(h, ok).powered && Initialised(h, ok).stale
    ensures Initialised(h, ok).ready == ok && (ok ==> Initialised(h, ok).adc)
  {
    SleepKeeps(h.link);
    hide WisunLink.Inv;
  }

  /** The heart of the discipline: a refresh makes power follow the state, whatever it was. */
  lemma RefreshKeeps(h: Helmet, s: State, env: Env)
    requires HelmetInv(h)
    ensures HelmetInv(Refreshed(h, s, env)) && PowerInv(Refreshed(h, s, env), s) && !Refreshed(h, s, env).stale
    ensures Refreshed(h, s, env).ready == h.ready && (AdcOk(h) ==> AdcOk(Refreshed(h, s, env)))
  {
    hide WisunLink.Inv;
    if Awake(s) {
      OnKeeps(h, env);
    } else {
      OffKeeps(h);
    }
    hide HelmetOn, HelmetOff;
  }

  lemma LedKeeps(w: World, env: Env)
    requires Inv(w)
    ensures Inv(LedApplied(w, env)) && LedApplied(w, env).app.state == w.app.state
    ensures !w.helmet.stale ==> !LedApplied(w, env).helmet.stale
    ensures AdcOk(w.helmet) ==> AdcOk(LedApplied(w, env).helmet)
    ensures LedApplied(w, env).helmet.ready == w.helmet.ready && LedApplied(w, env).app.halted == w.app.halted
  {
    hide HelmetInv, Refreshed, LedChoice;
    if w.app.state == Limbo {
      RefreshKeeps(w.helmet, Limbo, env);
    }
  }

  /** z is what entering state s from w must look like. */
  predicate Arrived(w: World, z: World, s: State) {
    && z.app.state == s && !z.helmet.stale
    && z.helmet.ready == w.helmet.ready && z.app.halted == w.app.halted
    && (AdcOk(w.helmet) ==> AdcOk(z.helmet))
  }

  lemma EnteredKeeps(w: World, env: Env)
    requires Inv(w) && !w.helmet.stale
    ensures Inv(Entered(w, env)) && Arrived(w, Entered(w, env), w.app.state)
  {
    match w.app.state
    case Limbo =>
      hide HelmetInv, LedApplied;
      LedKeeps(w.(app := w.app.(limboTimer := true)), env);
    case PoweringOn =>
      OnKeeps(w.helmet, env);
      hide HelmetInv, HelmetOn;
    case PoweringOff =>
      OffKeeps(w.helmet);
      hide HelmetInv, HelmetOff;
    case _ =>
      hide HelmetInv;
  }

  lemma SetStateKeeps(w: World, s: State, env: Env)
    requires Inv(w)
    ensures Inv(SetState(w, s, env))
    ensures w.app.state != FactoryReset ==> Arrived(w, SetState(w, s, env), s)
    ensures w.app.state == FactoryReset ==> SetState(w, s, env) == w.(app := w.app.(halted := true))
  {
    hide HelmetInv, Refreshed, Entered;
    if w.app.state != FactoryReset {
      RefreshKeeps(w.helmet, s, env);
      EnteredKeeps(World(Left(w.app).(state := s), Refreshed(w.helmet, s, env)), env);
    }
  }

  /** z differs from w in no power field. */
  predicate SamePower(w: World, z: World) {
    && z.app.state == w.app.state && z.helmet.stale == w.helmet.stale
    && z.helmet.powered == w.helmet.powered && z.helmet.adc == w.helmet.adc && z.helmet.ready == w.helmet.ready
  }

  /** The link has nothing to do while the helmet is unpowered. */
  lemma EnabledMeansPowered(h: Helmet, e: WisunLink.Event)
    requires HelmetInv(h) && WisunLink.Enabled(h.link, e)
    ensures h.powered
  {
    hide WisunLink.Inv;
  }

  lemma NoticeKeeps(w: World, env: Env)
    requires Inv(w)
    ensures Inv(IdleStarted(w, env)) && SamePower(w, IdleStarted(w, env))
    ensures Inv(IdleStopped(w)) && SamePower(w, IdleStopped(w))
  {
    hide HelmetInv;
  }

  lemma LinkStepKeeps(w: World, e: WisunLink.Event, env: Env)
    requires Inv(w) && WisunLink.Enabled(w.helmet.link, e)
    ensures Inv(OnLink(w, e, env)) && SamePower(w, OnLink(w, e, env))
  {
    WisunLink.NextKeeps(w.helmet.link, e);
    EnabledMeansPowered(w.helmet, e);
    hide WisunLink.Inv, WisunLink.Next, WisunLink.Enabled;
    var w' := w.(helmet := w.helmet.(link := WisunLink.Next(w.helmet.link, e)));
    assert Inv(w');
    hide Inv, IdleStarted, IdleStopped;
    NoticeKeeps(w', env);
  }

  lemma ProbeKeeps(w: World, again: bool, env: Env)
    requires Inv(w) && w.helmet.probe
    ensures Inv(OnProbeRetry(w, again, env)) && SamePower(w, OnProbeRetry(w, again, env))
  {
    ReportKeeps(w.helmet.link, env.sensorsReady, env.sendOk, env.now);
    hide WisunLink.Inv, Report;
    var w' := w.(helmet := OnProbe(w.helmet, again, env));
    assert Inv(w') && SamePower(w, w');
    hide Inv, IdleStarted;
    NoticeKeeps(w', env);
  }

  lemma ChargerKeeps(w: World, event: ChargerEvent, env: Env)
    requires Inv(w)
    ensures Kept(w, OnCharger(w, event, env))
  {
    hide SetState, LedApplied, HelmetInv;
    SetStateKeeps(w, Limbo, env);
    var w' := if (event == Attached || event == ChargingOk || event == ChargingLow) && w.app.state == PoweringOff
              then SetState(w, Limbo, env) else w;
    LedKeeps(w'.(app := w'.app.(charge := w'.app.charge.(event := event))), env);
  }

  /** What every step but an initialisation promises. */
  ghost predicate Kept(w: World, z: World) {
    && Inv(z)
    && (z.app.state != w.app.state ==> !z.helmet.stale)
    && (z.helmet.stale ==> w.helmet.stale)
    && z.helmet.ready == w.helmet.ready
    && (AdcOk(w.helmet) ==> AdcOk(z.helmet))
  }

  /** Every step keeps the invariant; a step that changes the state leaves the helmet refreshed. */
  lemma NextKeeps(w: World, e: Event, env: Env)
    requires Inv(w) && Enabled(w, e)
    ensures Inv(Next(w, e, env))
    ensures Next(w, e, env).app.state != w.app.state ==> !Next(w, e, env).helmet.stale
    ensures !e.Init? ==> Kept(w, Next(w, e, env))
  {
    if !w.app.halted {
      var w' := w.(app := w.app.(request := Nothing));
      if e.Init? {
        InitKeeps(w.helmet, e.ok);
        hide HelmetInv, Initialised;
      } else {
        hide HelmetInv;
        assert Inv(w') && Enabled(w', e);
        hide Inv, Handled;
        StepKeeps(w', e, env);
      }
    }
  }

  lemma MoveKeeps(w: World, s: State, env: Env)
    requires Inv(w)
    ensures Kept(w, SetState(w, s, env))
  {
    hide HelmetInv, SetState;
    SetStateKeeps(w, s, env);
  }

  /** Handlers that touch no more than a timer, the request or the halted flag. */
  lemma SmallStepsKeep(w: World, env: Env)
    requires Inv(w)
    ensures Kept(w, w) && Kept(w, IdleStarted(w, env)) && Kept(w, IdleStopped(w))
    ensures Kept(w, w.(app := w.app.(halted := true)))
    ensures forall handset :: Kept(w, OnIdleTimeout(w, handset))
    ensures w.helmet.motion ==> Kept(w, w.(helmet := w.helmet.(motion := w.helmet.powered)))
  {
    hide WisunLink.Inv;
    NoticeKeeps(w, env);
  }

  lemma RefreshStepsKeep(w: World, env: Env)
    requires Inv(w)
    ensures Kept(w, OnHandsetConnected(w, env)) && Kept(w, OnAncOff(w, env))
  {
    hide HelmetInv, Refreshed;
    RefreshKeeps(w.helmet, State.Idle, env);
  }

  lemma LimboTimeoutKeeps(w: World, env: Env)
    requires Inv(w)
    ensures Kept(w, OnLimboTimeout(w, env))
  {
    OffKeeps(w.helmet);
    hide HelmetInv, HelmetOff;
  }

  lemma TopologyKeeps(w: World, env: Env)
    requires Inv(w)
    ensures var z := SetState(w, Limbo, env); Kept(w, z.(app := z.app.(request := CutPower)))
  {
    MoveKeeps(w, Limbo, env);
    hide HelmetInv, SetState;
  }

  predicate StateEvent(e: Event) {
    e.StartedUp? || e.SystemPoweringOn? || e.PoweredOn? || e.SystemPoweringOff? || e.PairConfirm? || e.PairFailed?
    || e.PairHandset? || e.AudioChanged? || e.WiredConnected? || e.WiredDisconnected? || e.ShutdownPrepare?
    || e.FactoryResetRequest?
  }

  /** Events that change the state, halt or do nothing. */
  lemma StateEventMoves(w: World, e: Event, env: Env)
    requires StateEvent(e)
    ensures var z := Handled(w, e, env);
            z == w || z == w.(app := w.app.(halted := true)) || exists s :: z == SetState(w, s, env)
  {
    hide SetState;
  }

  lemma StateEventKeeps(w: World, e: Event, env: Env)
    requires Inv(w) && StateEvent(e)
    ensures Kept(w, Handled(w, e, env))
  {
    SmallStepsKeep(w, env);
    StateEventMoves(w, e, env);
    hide StateEvent, Handled, SetState, Kept, Inv;
    forall s: State
      ensures Kept(w, SetState(w, s, env))
    {
      MoveKeeps(w, s, env);
    }
  }

  lemma StepKeeps(w: World, e: Event, env: Env)
    requires Inv(w) && Enabled(w, e) && !e.Init?
    ensures Kept(w, Handled(w, e, env))
  {
    hide SetState, OnCharger, LedApplied, OnLink, OnProbeRetry, IdleStarted, OnHandsetConnected, OnAncOff,
      OnLimboTimeout, OnIdleTimeout, Kept, Inv, WisunLink.Enabled;
    if StateEvent(e) {
      StateEventKeeps(w, e, env);
    } else {
      SmallStepsKeep(w, env);
      match e
      case HandsetConnected => RefreshStepsKeep(w, env);
      case AncChanged(on) => RefreshStepsKeep(w, env);
      case TopologyStopped => TopologyKeeps(w, env);
      case Charger(event) => ChargerKeeps(w, event, env);
      case SocUpdate => LedStepKeeps(w, env);
      case LimboTimeout => LimboTimeoutKeeps(w, env);
      case LinkEvent(le) => LinkKept(w, le, env);
      case ProbeRetry(again) => ProbeKept(w, again, env);
      case _ =>
    }
  }

  lemma LedStepKeeps(w: World, env: Env)
    requires Inv(w)
    ensures Kept(w, LedApplied(w, env))
  {
    LedKeeps(w, env);
    hide HelmetInv, LedApplied;
  }

  lemma LinkKept(w: World, e: WisunLink.Event, env: Env)
    requires Inv(w) && WisunLink.Enabled(w.helmet.link, e)
    ensures Kept(w, OnLink(w, e, env))
  {
    LinkStepKeeps(w, e, env);
    hide OnLink, Inv;
  }

  lemma ProbeKept(w: World, again: bool, env: Env)
    requires Inv(w) && w.helmet.probe
    ensures Kept(w, OnProbeRetry(w, again, env))
  {
    ProbeKeeps(w, again, env);
    hide OnProbeRetry, Inv;
  }

  // ---- Whole runs --------------------------------------------------------------------------

  datatype Occurrence = At(e: Event, env: Env)

  function Run(w: World, es: seq<Occurrence>): World {
    if es == [] then w
    else
      var o := es[|es| - 1];
      Next(Run(w, es[..|es| - 1]), o.e, o.env)
  }

  /** Timers fire only while pending. */
  ghost predicate Possible(w: World, es: seq<Occurrence>) {
    forall i :: 0 <= i < |es| ==> Enabled(Run(w, es[..i]), es[i].e)
  }

  lemma PossiblePrefix(w: World, es: seq<Occurrence>)
    requires es != [] && Possible(w, es)
    ensures Possible(w, es[..|es| - 1]) && Enabled(Run(w, es[..|es| - 1]), es[|es| - 1].e)
  {
    var m := |es| - 1;
    forall i | 0 <= i < m
      ensures Enabled(Run(w, es[..m][..i]), es[..m][i].e)
    {
      assert es[..m][..i] == es[..i];
    }
  }

  /**
   After every event of every run: the idle timeout is pending only in IDLE, the limbo timeout only in
   LIMBO, the helmet is powered exactly when it is ready, meant to be up and refreshed since its last
   initialisation, and an unpowered helmet has nothing pending but post-initialisation ADC timers.
   */
  lemma {:induction false} RunKeeps(es: seq<Occurrence>)
    requires Possible(START, es)
    ensures Inv(Run(START, es))
  {
    if es != [] {
      PossiblePrefix(START, es);
      RunKeeps(es[..|es| - 1]);
      hide Inv, Next, Enabled;
      NextKeeps(Run(START, es[..|es| - 1]), es[|es| - 1].e, es[|es| - 1].env);
    }
  }

  /** Power as the design has it: on exactly in the states the helmet is meant to be up in. */
  predicate FollowsState(w: World) { w.helmet.powered <==> w.helmet.ready && Awake(w.app.state) }

  /** A successful initialisation in one of these states; a failed one leaves nothing ready to power. */
  predicate Misplaced(w: World, e: Event) { e == Init(true) && Awake(w.app.state) && !w.app.halted }

  ghost predicate NoMisplaced(es: seq<Occurrence>) {
    forall i :: 0 <= i < |es| ==> !Misplaced(Run(START, es[..i]), es[i].e)
  }

  ghost predicate AlwaysFollows(es: seq<Occurrence>) {
    forall n :: 0 <= n <= |es| ==> FollowsState(Run(START, es[..n]))
  }

  /** The module was initialised since the last refresh only where it is not meant to be up. */
  predicate StaleAsleep(w: World) { w.helmet.stale && w.helmet.ready ==> !Awake(w.app.state) }

  lemma StaleStep(w: World, e: Event, env: Env)
    requires Inv(w) && Enabled(w, e) && StaleAsleep(w) && !Misplaced(w, e)
    ensures StaleAsleep(Next(w, e, env)) && Inv(Next(w, e, env)) && FollowsState(Next(w, e, env))
  {
    NextKeeps(w, e, env);
    if e.Init? && !w.app.halted {
      InitKeeps(w.helmet, e.ok);
      hide HelmetInv, Initialised;
    } else if e.Init? {
      hide HelmetInv, Initialised;
    } else {
      hide Next, HelmetInv;
    }
  }

  lemma {:induction false} RunFollows(es: seq<Occurrence>)
    requires Possible(START, es) && NoMisplaced(es)
    ensures Inv(Run(START, es)) && StaleAsleep(Run(START, es)) && FollowsState(Run(START, es))
  {
    if es == [] {
      StartKeepsInv();
    } else {
      var m := |es| - 1;
      PossiblePrefix(START, es);
      forall i | 0 <= i < m
        ensures !Misplaced(Run(START, es[..m][..i]), es[..m][i].e)
      {
        assert es[..m][..i] == es[..i];
      }
      RunFollows(es[..m]);
      hide Inv, Next, Enabled, StaleAsleep, FollowsState;
      StaleStep(Run(START, es[..m]), es[m].e, es[m].env);
    }
  }

  lemma PossibleUpTo(w: World, es: seq<Occurrence>, n: nat)
    requires Possible(w, es) && n <= |es|
    ensures Possible(w, es[..n])
  {
    forall i | 0 <= i < n
      ensures Enabled(Run(w, es[..n][..i]), es[..n][i].e)
    {
      assert es[..n][..i] == es[..i];
    }
  }

  /**
   Power follows the state after every message of a run if and only if no successful initialisation comes in a
   state the helmet is meant to be up in.
   */
  lemma PoweredExactly(es: seq<Occurrence>)
    requires Possible(START, es)
    ensures AlwaysFollows(es) <==> NoMisplaced(es)
  {
    hide Enabled, Next;
    if NoMisplaced(es) {
      forall n | 0 <= n <= |es|
        ensures FollowsState(Run(START, es[..n]))
      {
        PossibleUpTo(START, es, n);
        assert forall i :: 0 <= i < n ==> es[..n][..i] == es[..i];
        assert NoMisplaced(es[..n]);
        RunFollows(es[..n]);
      }
    } else {
      var i :| 0 <= i < |es| && Misplaced(Run(START, es[..i]), es[i].e);
      PossibleUpTo(START, es, i);
      RunKeeps(es[..i]);
      InitWhileUpPowersDown(Run(START, es[..i]), es[i].env);
      assert es[..i + 1][..i] == es[..i];
      assert !FollowsState(Run(START, es[..i + 1]));
    }
  }

  /**
   A successful initialisation leaves the helmet unpowered in whatever state it comes, with the ADC timers
   started: the two ways in which an unpowered helmet differs from a silent one.
   */
  lemma InitStartsAdc(w: World, env: Env)
    requires Inv(w) && !w.app.halted
    ensures var z := Next(w, Init(true), env);
            z.app.state == w.app.state && z.helmet.ready && !z.helmet.powered && z.helmet.adc && !Silent(z.helmet)
  {
    InitKeeps(w.helmet, true);
    hide Inv, HelmetInv, Initialised;
  }

  /** Where the helmet is meant to be up, that breaks the rule until the next refresh. */
  lemma InitWhileUpPowersDown(w: World, env: Env)
    requires Inv(w) && Awake(w.app.state) && !w.app.halted
    ensures var z := Next(w, Init(true), env);
            z.app.state == w.app.state && z.helmet.ready && !z.helmet.powered
  {
    InitStartsAdc(w, env);
    hide Next;
  }

  /** Such states are reachable: power-on follows start-up. */
  lemma UpIsReachable(env: Env)
    ensures var w := Run(START, [At(StartedUp, env), At(SystemPoweringOn, env)]);
            Inv(w) && w.app.state == PoweringOn && !w.app.halted
  {
    var es := [At(StartedUp, env), At(SystemPoweringOn, env)];
    assert es[..1] == [At(StartedUp, env)] && es[..1][..0] == [];
    StartKeepsInv();
    hide SetState, Inv;
    SetStateKeeps(START, Limbo, env);
    var b := SetState(START, Limbo, env);
    assert Run(START, []) == START;
    assert Run(START, es[..1]) == b;
    AfterRequest(b);
    SetStateKeeps(b.(app := b.app.(request := Nothing)), PoweringOn, env);
  }

  lemma StartKeepsInv()
    ensures Inv(START)
  {
  }

  lemma AfterRequest(w: World)
    requires Inv(w)
    ensures Inv(w.(app := w.app.(request := Nothing)))
  {
    hide HelmetInv;
  }

  // ---- Silence while off -----------------------------------------------------------------------

  /** Nothing of the helmet task is pending. */
  predicate Silent(h: Helmet) { Asleep(h) && !h.adc }

  /** The events of the helmet task's own messages. */
  predicate HelmetEvent(e: Event) { e.LinkEvent? || e.MotionPoll? || e.ProbeRetry? || e.AdcTick? }

  /** A silent helmet cannot act: none of its messages can be delivered. */
  lemma SilentMeansIdle(w: World, e: Event)
    requires Silent(w.helmet) && HelmetEvent(e)
    ensures !Enabled(w, e)
  {
  }

  /** Switching off silences the helmet, and it stays silent until it is switched on or initialised. */
  lemma SilentStep(w: World, e: Event, env: Env)
    requires Inv(w) && Enabled(w, e) && !e.Init?
    requires w.helmet.powered || Silent(w.helmet)
    ensures Next(w, e, env).helmet.powered || Silent(Next(w, e, env).helmet)
  {
    NextKeeps(w, e, env);
    hide Next, Enabled;
  }

  ghost predicate NoInit(es: seq<Occurrence>) {
    forall i :: 0 <= i < |es| ==> !es[i].e.Init?
  }

  /**
   From any power-off on, over any run without an initialisation: whenever the helmet is not
   powered, no report, motion, probe, link, receive-poll or ADC timer is pending.
   */
  lemma {:induction false} SilentWhileOff(w: World, es: seq<Occurrence>)
    requires Inv(w) && (w.helmet.powered || Silent(w.helmet))
    requires Possible(w, es) && NoInit(es)
    ensures var z := Run(w, es); Inv(z) && (z.helmet.powered || Silent(z.helmet))
  {
    if es != [] {
      var m := |es| - 1;
      PossiblePrefix(w, es);
      SilentWhileOff(w, es[..m]);
      hide Inv, Next, Enabled, Silent;
      NextKeeps(Run(w, es[..m]), es[m].e, es[m].env);
      SilentStep(Run(w, es[..m]), es[m].e, es[m].env);
    }
  }

  lemma {:induction false} RunSplits(w: World, es: seq<Occurrence>, k: nat)
    requires k <= |es|
    ensures Run(w, es) == Run(Run(w, es[..k]), es[k..])
  {
    if k == |es| {
      assert es[..k] == es && es[k..] == [];
    } else {
      var m := |es| - 1;
      RunSplits(w, es[..m], k);
      assert es[..m][..k] == es[..k] && es[..m][k..] == es[k..][..m - k];
      hide Next;
    }
  }

  lemma PossibleAfter(w: World, es: seq<Occurrence>, k: nat)
    requires Possible(w, es) && k <= |es|
    ensures Possible(Run(w, es[..k]), es[k..])
  {
    hide Enabled, Next;
    var t := es[k..];
    forall i | 0 <= i < |t|
      ensures Enabled(Run(Run(w, es[..k]), t[..i]), t[i].e)
    {
      RunSplits(w, es[..k + i], k);
      assert es[..k + i][..k] == es[..k] && es[..k + i][k..] == t[..i];
      assert Enabled(Run(w, es[..k + i]), es[k + i].e);
    }
  }

  /** The same seen from the end: a helmet that was up at some point, and was not initialised since, is up or silent. */
  lemma UpOrSilent(es: seq<Occurrence>, k: nat)
    requires Possible(START, es) && k <= |es| && Run(START, es[..k]).helmet.powered && NoInit(es[k..])
    ensures Run(START, es).helmet.powered || Silent(Run(START, es).helmet)
  {
    hide Enabled, Next;
    PossibleUpTo(START, es, k);
    RunKeeps(es[..k]);
    PossibleAfter(START, es, k);
    RunSplits(START, es, k);
    SilentWhileOff(Run(START, es[..k]), es[k..]);
  }

  // ---- Requests ----------------------------------------------------------------------------------

  /** An idle timeout without a handset is never lost: it is re-armed or asks for power-off, by the link. */
  lemma IdleTimeoutOutcome(w: World, handset: bool, env: Env)
    requires Inv(w) && Enabled(w, IdleTimeout(handset)) && !w.app.halted
    ensures var z := Next(w, IdleTimeout(handset), env);
            && w.app.state == State.Idle && z.app.state == State.Idle
            && (!handset ==> (z.app.idleTimer <==> BrOnline(w.helmet.link)))
            && (z.app.request == PowerOffMessage <==> !handset && !BrOnline(w.helmet.link))
            && (handset ==> !z.app.idleTimer)
  {
    hide HelmetInv;
  }

  /** In LIMBO the power is cut exactly when the timeout finds no cable and no charge event. */
  lemma LimboTimeoutOutcome(w: World, env: Env)
    requires Inv(w) && Enabled(w, LimboTimeout) && !w.app.halted
    ensures var z := Next(w, LimboTimeout, env);
            && w.app.state == Limbo && z.app.state == Limbo && !z.app.limboTimer
            && (z.app.request == CutPower <==> !env.cable && !ChargeEvent(w.app.charge.event))
            && !z.helmet.powered
  {
    hide HelmetInv;
  }
}
