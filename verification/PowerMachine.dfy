/**
 The helmet module and the application state machine as objects updated handler by handler
 (smart_helmet.c, headset_sm.c), each handler proved against its function in `PowerTimers`.
 */
module PowerMachine {
  import opened PowerTimers
  import WisunLink
  import opened WisunMachine

  class HelmetModule {
    const lm: LinkMachine
    var ready: bool
    var powered: bool
    var motion: bool
    var probe: bool
    var probeTask: bool
    var adc: bool
    ghost var stale: bool
    ghost var scanning: bool

    ghost function View(): Helmet
      reads this, lm
    {
      Helmet(ready, powered, stale, scanning, motion, probe, probeTask, adc, lm.Abstract())
    }

    constructor ()
      ensures fresh(lm) && View() == START.helmet
    {
      lm := new LinkMachine();
      ready, powered, motion, probe, probeTask, adc := false, false, false, false, false, false;
      stale, scanning := false, false;
    }

    method StopReport()
      modifies lm
      ensures lm.Abstract() == ReportStopped(old(lm.Abstract()))
    {
      lm.timers := lm.timers.(report := false);
    }

    /** SmartHelmet_PowerOn. */
    method PowerOn(env: Env)
      modifies this, lm
      ensures View() == HelmetOn(old(View()), env)
    {
      hide WisunLink.Open, WisunLink.StartVerify, WisunLink.Report;
      if !ready || powered {
        return;
      }
      powered := true;
      adc := true;
      probeTask := true;
      if !env.sensorsReady {
        probe := true;
      }
      lm.OpenUart(env.uartOk);
      lm.Start();
      lm.StartReport(env.sensorsReady, env.sendOk, env.now);
      motion := true;
    }

    /** SmartHelmet_PowerOff, which SmartHelmet_PowerSave also runs. */
    method PowerOff()
      modifies this, lm
      ensures View() == HelmetOff(old(View()))
    {
      hide WisunLink.Sleep, ReportStopped;
      if !powered {
        return;
      }
      powered := false;
      StopReport();
      motion := false;
      probe := false;
      probeTask := false;
      lm.SleepUart();
      adc := false;
      scanning := false;
    }

    /** SmartHelmet_Close. */
    method Close()
      modifies this, lm
      ensures View() == Closed(old(View()))
    {
      hide WisunLink.Close, ReportStopped;
      probe := false;
      probeTask := false;
      StopReport();
      motion := false;
      adc := false;
      scanning := false;
      lm.CloseUart();
      ready := false;
      powered := false;
    }

    /** SmartHelmet_Init. */
    method Init(ok: bool)
      modifies this, lm
      ensures View() == Initialised(old(View()), ok)
    {
      hide WisunLink.Close, ReportStopped;
      if ready {
        Close();
      }
      stale := true;
      if !ok {
        return;
      }
      adc := true;
      scanning := true;
      ready := true;
    }

    /** SmartHelmet_UiRefresh. */
    method Refresh(s: State, env: Env)
      modifies this, lm
      ensures View() == Refreshed(old(View()), s, env)
    {
      hide HelmetOn, HelmetOff;
      if s == PoweringOn || s == Pairing || s == State.Idle || s == Busy {
        PowerOn(env);
      } else {
        PowerOff();
      }
      stale := false;
    }

    /** The probe retry message and the report it may start. */
    method Probe(again: bool, env: Env)
      modifies this, lm
      ensures View() == OnProbe(old(View()), again, env)
    {
      hide WisunLink.Report;
      probe := again && probeTask;
      if env.sensorsReady && lm.passthrough {
        lm.StartReport(env.sensorsReady, env.sendOk, env.now);
      }
    }

    method Link(e: WisunLink.Event)
      modifies lm
      ensures lm.Abstract() == WisunLink.Next(old(lm.Abstract()), e)
    {
      lm.Handle(e);
    }
  }

  class Headset {
    const m: HelmetModule
    var state: State
    var idleTimer: bool
    var limboTimer: bool
    var charge: Charge
    var halted: bool
    var request: Request

    ghost function View(): World
      reads this, m, m.lm
    {
      World(App(state, idleTimer, limboTimer, charge, halted, request), m.View())
    }

    constructor ()
      ensures fresh(m) && fresh(m.lm) && View() == START
    {
      m := new HelmetModule();
      state, idleTimer, limboTimer := Null, false, false;
      charge, halted, request := Charge(Detached, 0, false), false, Nothing;
    }

    method StartIdleTimer(env: Env)
      modifies `idleTimer
      ensures View() == IdleStarted(old(View()), env)
    {
      if env.free && state == State.Idle && !(m.lm.status.online && !m.lm.join.rejoining) {
        idleTimer := true;
      }
    }

    method StopIdleTimer()
      modifies `idleTimer
      ensures View() == IdleStopped(old(View()))
    {
      idleTimer := false;
    }

    /** headsetSmApplyLimboChargeLed. */
    method ApplyLed(env: Env)
      modifies this, m, m.lm
      ensures View() == LedApplied(old(View()), env)
    {
      hide Refreshed, LedChoice, HelmetModule.View;
      if state != Limbo {
        return;
      }
      var picked := LedChoice(charge, env);
      var choice := picked.0;
      charge := picked.1;
      if choice == 1 || choice == 2 || choice == 3 || env.cable || ChargeEvent(charge.event) {
        ChoiceRange(old(charge), env);
        m.Refresh(Limbo, env);
      } else {
        ChoiceRange(old(charge), env);
      }
      if choice == 3 || choice == charge.led {
        return;
      }
      charge := charge.(led := choice);
      if choice == 1 || choice == 2 {
        limboTimer := false;
      } else if env.cable || charge.event == Completed || charge.event == Attached {
        limboTimer := false;
      } else {
        limboTimer := true;
      }
    }

    /** The exit actions of the state being left. */
    method Leave()
      modifies `limboTimer, `idleTimer, `charge
      ensures View() == old(View()).(app := Left(old(View()).app))
    {
      match state {
        case Limbo =>
          limboTimer := false;
          charge := charge.(led := 0);
        case Idle => idleTimer := false;
        case _ =>
      }
    }

    /** The entry actions of the state just set. */
    method Enter(env: Env)
      modifies this, m, m.lm
      ensures View() == Entered(old(View()), env)
    {
      hide LedApplied, HelmetOn, HelmetOff, IdleStarted, HelmetModule.View;
      match state {
        case Limbo =>
          limboTimer := true;
          ApplyLed(env);
        case PoweringOn => m.PowerOn(env);
        case PoweringOff => m.PowerOff();
        case Idle => StartIdleTimer(env);
        case _ =>
      }
    }

    /** headsetSetState. */
    method Go(s: State, env: Env)
      modifies this, m, m.lm
      ensures View() == SetState(old(View()), s, env)
    {
      hide Refreshed, Entered, Left, HelmetModule.View;
      if state == FactoryReset {
        halted := true;
        return;
      }
      Leave();
      state := s;
      m.Refresh(s, env);
      Enter(env);
    }

    method GoIf(b: bool, s: State, env: Env)
      modifies this, m, m.lm
      ensures View() == if b then SetState(old(View()), s, env) else old(View())
    {
      hide SetState, HelmetModule.View;
      if b {
        Go(s, env);
      }
    }

    /** Messages that only move the state machine. */
    method HandleState(e: Event, env: Env)
      requires StateEvent(e)
      modifies this, m, m.lm
      ensures View() == Handled(old(View()), e, env)
    {
      hide SetState, HelmetModule.View;
      match e {
        case StartedUp =>
          if state == Null {
            Go(Limbo, env);
          } else {
            halted := true;
          }
        case SystemPoweringOn => Go(PoweringOn, env);
        case PoweredOn(wired, paired) =>
          if !wired {
            Go(if paired then State.Idle else Pairing, env);
          } else {
            GoIf(state == PoweringOn, State.Idle, env);
          }
        case SystemPoweringOff => Go(PoweringOff, env);
        case PairConfirm => GoIf(state == Pairing, State.Idle, env);
        case PairFailed => GoIf(state == Pairing, State.Idle, env);
        case PairHandset(paused) => GoIf(state == State.Idle || paused, Pairing, env);
        case AudioChanged(busy) => GoIf(state == State.Idle || state == Busy, if busy then Busy else State.Idle, env);
        case WiredConnected => GoIf(state == PoweringOn || state == State.Idle || state == Busy, Busy, env);
        case WiredDisconnected => GoIf(state == Busy, State.Idle, env);
        case ShutdownPrepare => GoIf(state != Limbo, Terminating, env);
        case FactoryResetRequest => GoIf(AboveLimboOrOn(state), FactoryReset, env);
        case _ =>
      }
    }

    method HandleCharger(event: ChargerEvent, env: Env)
      modifies this, m, m.lm
      ensures View() == OnCharger(old(View()), event, env)
    {
      hide SetState, LedApplied, HelmetModule.View;
      if (event == Attached || event == ChargingOk || event == ChargingLow) && state == PoweringOff {
        Go(Limbo, env);
      }
      charge := charge.(event := event);
      ApplyLed(env);
    }

    method HandleIdleTimeout(handset: bool)
      modifies `idleTimer, `request
      ensures View() == OnIdleTimeout(old(View()), handset)
    {
      idleTimer := false;
      if state == State.Idle && !handset {
        if m.lm.status.online && !m.lm.join.rejoining {
          idleTimer := true;
        } else {
          request := PowerOffMessage;
        }
      }
    }

    method HandleLimboTimeout(env: Env)
      modifies this, m, m.lm
      ensures View() == OnLimboTimeout(old(View()), env)
    {
      hide HelmetOff, HelmetModule.View;
      limboTimer := false;
      if state == Limbo && !env.cable && !ChargeEvent(charge.event) {
        m.PowerOff();
        request := CutPower;
      }
    }

    method HandleLink(e: WisunLink.Event, env: Env)
      modifies this, m.lm
      ensures View() == OnLink(old(View()), e, env)
    {
      hide WisunLink.Next, IdleStarted;
      var was := m.lm.status.online;
      m.Link(e);
      if !e.Timeout? && m.lm.status.online != was {
        if m.lm.status.online {
          StopIdleTimer();
        } else {
          StartIdleTimer(env);
        }
      }
    }

    method HandleProbe(again: bool, env: Env)
      modifies this, m, m.lm
      ensures View() == OnProbeRetry(old(View()), again, env)
    {
      hide IdleStarted, OnProbe;
      var was := m.lm.status.online;
      m.Probe(again, env);
      if m.lm.status.online != was {
        StartIdleTimer(env);
      }
    }

    method HandleConnected(env: Env)
      modifies this, m, m.lm
      ensures View() == OnHandsetConnected(old(View()), env)
    {
      hide Refreshed, HelmetModule.View;
      if state == State.Idle {
        idleTimer := false;
        m.Refresh(state, env);
      }
    }

    method HandleAncOff(env: Env)
      modifies this, m, m.lm
      ensures View() == OnAncOff(old(View()), env)
    {
      hide Refreshed, HelmetModule.View, IdleStarted;
      StartIdleTimer(env);
      if state == State.Idle {
        m.Refresh(state, env);
      }
    }

    /** headsetSmHandleMessage and the helmet task's handler. */
    method Handle(e: Event, env: Env)
      requires PowerTimers.Inv(View()) && Enabled(View(), e)
      modifies this, m, m.lm
      ensures View() == PowerTimers.Next(old(View()), e, env) && PowerTimers.Inv(View())
    {
      PowerTimers.NextKeeps(View(), e, env);
      hide PowerTimers.Inv;
      if halted {
        return;
      }
      request := Nothing;
      hide Enabled;
      Dispatch(e, env);
    }

    /**
     Everything that happens since the device was reset, in any order the pending timers allow. Afterwards the idle timeout is
     pending only in IDLE and the limbo timeout only in LIMBO; the helmet is powered exactly in the states it is meant
     to be up in, if no initialisation was misplaced; and if it was up at some point, was not initialised since and
     is not powered now, no timer of its task is pending and its port is closed.
     */
    method Operate(es: seq<Occurrence>)
      requires View() == START && PowerTimers.Possible(START, es)
      modifies this, m, m.lm
      ensures View() == PowerTimers.Run(START, es) && PowerTimers.Inv(View())
      ensures (idleTimer ==> state == State.Idle) && (limboTimer ==> state == Limbo)
      ensures NoMisplaced(es) ==> (m.powered <==> m.ready && Awake(state))
      ensures forall k :: 0 <= k <= |es| && PowerTimers.Run(START, es[..k]).helmet.powered && NoInit(es[k..]) && !m.powered ==>
                && !m.motion && !m.probe && !m.adc && !m.lm.timers.report && !m.lm.timers.link && !m.lm.timers.rxPoll
                && !m.lm.port.open
    {
      HandleAll(es);
      hide PowerTimers.Next, Enabled, NoMisplaced, NoInit, PowerTimers.Run, PowerTimers.Possible, WisunLink.Inv;
      forall k | 0 <= k <= |es| && PowerTimers.Run(START, es[..k]).helmet.powered && NoInit(es[k..])
        ensures View().helmet.powered || Silent(View().helmet)
      {
        UpOrSilent(es, k);
      }
      if NoMisplaced(es) {
        RunFollows(es);
      }
    }

    method HandleAll(es: seq<Occurrence>)
      requires View() == START && PowerTimers.Possible(START, es)
      modifies this, m, m.lm
      ensures View() == PowerTimers.Run(START, es) && PowerTimers.Inv(View())
    {
      hide PowerTimers.Next, Enabled, PowerTimers.Inv, View, HelmetModule.View;
      PowerTimers.StartKeepsInv();
      for i := 0 to |es|
        invariant View() == PowerTimers.Run(START, es[..i]) && PowerTimers.Inv(View())
      {
        assert Enabled(PowerTimers.Run(START, es[..i]), es[i].e);
        Handle(es[i].e, es[i].env);
        assert es[..i + 1][..i] == es[..i];
      }
      assert es[..|es|] == es;
    }

    method Dispatch(e: Event, env: Env)
      modifies this, m, m.lm
      ensures View() == Handled(old(View()), e, env)
    {
      hide SetState, HelmetModule.View, OnPoweredOn, OnCharger, LedApplied, OnIdleTimeout, OnLimboTimeout, OnLink,
        OnProbeRetry, OnHandsetConnected, OnAncOff, IdleStarted, Initialised;
      if StateEvent(e) {
        HandleState(e, env);
        return;
      }
      match e {
        case Init(ok) => m.Init(ok);
        case TopologyStopped =>
          if state == PoweringOff {
            Go(Limbo, env);
            request := CutPower;
          }
        case HandsetConnected => HandleConnected(env);
        case HandsetDisconnected => StartIdleTimer(env);
        case AncChanged(on) =>
          if on {
            StopIdleTimer();
          } else {
            HandleAncOff(env);
          }
        case LeakthroughChanged(on) =>
          if on {
            StopIdleTimer();
          } else {
            StartIdleTimer(env);
          }
        case Charger(event) => HandleCharger(event, env);
        case SocUpdate => ApplyLed(env);
        case IdleTimeout(handset) => HandleIdleTimeout(handset);
        case LimboTimeout => HandleLimboTimeout(env);
        case LinkEvent(le) => HandleLink(le, env);
        case MotionPoll => Motion();
        case ProbeRetry(again) => HandleProbe(again, env);
        case AdcTick =>
        case _ =>
      }
    }

    method Motion()
      modifies m
      ensures View() == old(View()).(helmet := old(View()).helmet.(motion := old(View()).helmet.powered))
    {
      m.motion := m.powered;
    }
  }

  lemma ChoiceRange(c: Charge, env: Env)
    ensures LedChoice(c, env).0 <= 3
  {
  }
}
