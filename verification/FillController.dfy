// The flow, fill and shutoff part of dashboard.py as it works: module globals
// that the tick and the button handlers assign. Each method is proved against
// the function of FillMachine of the same handler.
module FillController {
  import opened Octets
  import opened FillMachine

  class Dashboard {
    var lastFlowRate: real
    var lastTotalizerLiters: Volume
    var previousTotalizerLiters: Volume
    var wasFlowing: bool
    var lastAlertTriggered: bool
    var autoShutoffLatched: bool
    var overrideMode: bool
    var requestedGallons: real
    var pendingGallons: real
    var pendingRequested: real
    var pendingAuto: bool
    var dailyTotal: real
    var seasonTotal: real
    var lastLoadsGallons: seq<real>
    var fillHistory: seq<Fill>
    var flowResetScheduled: bool
    var flowResetCycleId: Option<nat>
    var flowCycleCounter: nat
    const gpioAvailable: bool
    ghost var log: seq<FillAct>

    // A pending fill is one of more than nothing.
    ghost function Pending(): Option<Fill>
      reads this
    {
      if pendingGallons > 0.0 then Some(Fill(pendingGallons, pendingRequested, pendingAuto)) else None
    }

    ghost function Abs(): Dash
      reads this
    {
      Dash(lastFlowRate, lastTotalizerLiters, previousTotalizerLiters, wasFlowing, lastAlertTriggered, autoShutoffLatched,
           overrideMode, requestedGallons, Pending(), dailyTotal, seasonTotal, lastLoadsGallons, fillHistory,
           flowResetScheduled, flowResetCycleId, flowCycleCounter, gpioAvailable, log)
    }

    constructor (requested: real, gpio: bool)
      ensures FillInv(Abs()) && log == []
    {
      lastFlowRate, lastTotalizerLiters, previousTotalizerLiters := 0.0, 0.0, 0.0;
      wasFlowing, lastAlertTriggered, autoShutoffLatched, overrideMode := false, false, false, false;
      requestedGallons := requested;
      pendingGallons, pendingRequested, pendingAuto := 0.0, 0.0, false;
      dailyTotal, seasonTotal := 0.0, 0.0;
      lastLoadsGallons, fillHistory := [], [];
      flowResetScheduled, flowResetCycleId, flowCycleCounter := false, None, 0;
      gpioAvailable := gpio;
      log := [];
    }

    // flow_is_active
    predicate FlowIsActive()
      reads this
    {
      lastFlowRate >= FLOW_STOPPED_THRESHOLD
    }

    // clear_auto_shutoff_state
    method ClearAutoShutoffState()
      modifies this`lastAlertTriggered, this`autoShutoffLatched
      ensures Abs() == ClearShutoff(old(Abs()))
    {
      lastAlertTriggered := false;
      autoShutoffLatched := false;
    }

    method ClearPending()
      modifies this`pendingGallons, this`pendingRequested, this`pendingAuto
      ensures Abs() == old(Abs()).(pending := None)
    {
      pendingGallons, pendingRequested, pendingAuto := 0.0, 0.0, false;
    }

    // detect_totalizer_reset
    method DetectTotalizerReset(liters: Volume)
      modifies this
      ensures Abs() == DetectReset(old(Abs()), liters)
    {
      hide Gallons;
      var resetDetected := Gallons(previousTotalizerLiters) > 0.25 && Gallons(liters) < 0.05;
      previousTotalizerLiters := liters;
      if resetDetected {
        flowCycleCounter := flowCycleCounter + 1;
        ClearAutoShutoffState();
        log := log + [TotalizerReset];
      }
    }

    // read_flow_meter
    method ReadFlowMeter(r: Option<Reading>)
      modifies this
      ensures Abs() == ReadMeter(old(Abs()), r)
    {
      hide DetectReset;
      if r.Some? {
        DetectTotalizerReset(r.value.liters);
        lastTotalizerLiters := r.value.liters;
        lastFlowRate := r.value.rate;
      }
    }

    // Flow has just stopped.
    method FlowStops(calibrating: bool)
      modifies this`pendingGallons, this`pendingRequested, this`pendingAuto, this`log
      ensures Abs() == OnStop(old(Abs()), calibrating)
    {
      hide Gallons;
      if calibrating {
        ClearPending();
        log := log + [StoppedForCalibration];
      } else {
        pendingGallons := Gallons(lastTotalizerLiters);
        pendingRequested := requestedGallons;
        pendingAuto := autoShutoffLatched;
        log := log + [Stopped(Fill(pendingGallons, pendingRequested, pendingAuto))];
      }
    }

    // Flow has just started.
    method FlowStarts()
      modifies this`flowCycleCounter, this`lastAlertTriggered, this`autoShutoffLatched,
        this`pendingGallons, this`pendingRequested, this`pendingAuto, this`log
      ensures Abs() == OnStart(old(Abs()))
    {
      flowCycleCounter := flowCycleCounter + 1;
      ClearAutoShutoffState();
      ClearPending();
      log := log + [FlowStarted];
    }

    // The flow edges of update_dashboard.
    method FlowEdges(calibrating: bool)
      modifies this
      ensures Abs() == OnEdges(old(Abs()), calibrating)
    {
      hide OnStop, OnStart;
      var isFlowing := FlowIsActive();
      if wasFlowing && !isFlowing {
        FlowStops(calibrating);
      }
      if !wasFlowing && isFlowing {
        FlowStarts();
      }
      wasFlowing := isFlowing;
    }

    // The automatic stop of update_dashboard.
    method AutoShutoff(threshold: real, disconnected: bool)
      modifies this`lastAlertTriggered, this`autoShutoffLatched, this`log
      ensures Abs() == OnAlert(old(Abs()), threshold, disconnected)
    {
      hide Gallons;
      if FlowIsActive() && !overrideMode && !disconnected
         && Gallons(lastTotalizerLiters) >= requestedGallons - threshold && !lastAlertTriggered {
        lastAlertTriggered := true;
        autoShutoffLatched := true;
        log := log + [Fired];
      }
    }

    // update_dashboard
    method UpdateDashboard(r: Option<Reading>, calibrating: bool, threshold: real, disconnected: bool, overrideExpires: bool)
      modifies this
      ensures Abs() == Tick(old(Abs()), r, calibrating, threshold, disconnected, overrideExpires)
    {
      hide ReadMeter, OnEdges, OnAlert;
      ReadFlowMeter(r);
      FlowEdges(calibrating);
      if overrideMode && !disconnected && !FlowIsActive() && overrideExpires {
        overrideMode := false;
      }
      AutoShutoff(threshold, disconnected);
    }

    // add_to_totals
    method AddToTotals(gallons: real)
      modifies this`dailyTotal, this`seasonTotal
      ensures Abs() == old(Abs()).(daily := old(dailyTotal) + gallons, season := old(seasonTotal) + gallons)
    {
      dailyTotal := dailyTotal + gallons;
      seasonTotal := seasonTotal + gallons;
    }

    // The newest of three cached loads.
    method PushLoad(gallons: real)
      modifies this`lastLoadsGallons
      ensures Abs() == old(Abs()).(lastLoads := [gallons] + (if |old(lastLoadsGallons)| <= 2 then old(lastLoadsGallons)
                                                             else old(lastLoadsGallons)[..2]))
    {
      lastLoadsGallons := [gallons] + (if |lastLoadsGallons| <= 2 then lastLoadsGallons else lastLoadsGallons[..2]);
    }

    // record_pending_fill
    method RecordPendingFill()
      modifies this
      ensures Abs() == RecordPending(old(Abs()))
    {
      if pendingGallons > 0.0 {
        var f := Fill(pendingGallons, pendingRequested, pendingAuto);
        fillHistory := fillHistory + [f];
        AddToTotals(pendingGallons);
        PushLoad(pendingGallons);
        log := log + [Recorded(f, lastFlowRate)];
        ClearPending();
      }
    }

    // schedule_flow_reset
    method ScheduleFlowReset()
      modifies this`flowResetScheduled, this`flowResetCycleId, this`log
      ensures Abs() == Schedule(old(Abs()))
    {
      if !flowResetScheduled && !FlowIsActive() {
        flowResetScheduled := true;
        flowResetCycleId := Some(flowCycleCounter);
        log := log + [PulseScheduled];
      }
    }

    // handle_thumbs_up_press
    method HandleThumbsUpPress(calibrationMode: bool, shows: bool)
      modifies this
      ensures Abs() == ThumbsUp(old(Abs()), calibrationMode, shows)
    {
      hide Schedule, RecordPending;
      if calibrationMode || FlowIsActive() {
        return;
      }
      if shows {
        ScheduleFlowReset();
      }
      RecordPendingFill();
    }

    // pulse_flow_reset
    method PulseFlowReset()
      modifies this`flowResetScheduled, this`flowResetCycleId, this`log
      ensures Abs() == Pulse(old(Abs()))
    {
      if gpioAvailable && flowResetCycleId == Some(flowCycleCounter) && !FlowIsActive() {
        log := log + [Pulsed(lastFlowRate)];
      }
      flowResetScheduled := false;
      flowResetCycleId := None;
    }

    // force_flow_reset
    method ForceFlowReset()
      modifies this
      ensures Abs() == ForceReset(old(Abs()))
    {
      if gpioAvailable {
        ClearAutoShutoffState();
        log := log + [ForcedReset];
        log := log + [ForcedPulse];
      }
      flowResetScheduled := false;
      flowResetCycleId := None;
    }

    // change_colors_to_green, and the indicator going down
    method ChangeColors(green: bool)
      modifies this`flowResetScheduled, this`flowResetCycleId, this`log
      ensures Abs() == DashStep(old(Abs()), TurnGreen(green))
    {
      hide Schedule;
      if green {
        ScheduleFlowReset();
      }
    }

    // reset_daily_total
    method ResetDailyTotal()
      modifies this`dailyTotal, this`log
      ensures Abs() == DashStep(old(Abs()), ResetDaily)
    {
      dailyTotal := 0.0;
      log := log + [DailyCleared];
    }

    // reset_season_total
    method ResetSeasonTotal()
      modifies this`seasonTotal, this`log
      ensures Abs() == DashStep(old(Abs()), ResetSeason)
    {
      seasonTotal := 0.0;
      log := log + [SeasonCleared];
    }

    method Handle(e: DashEvent)
      modifies this
      ensures Abs() == DashStep(old(Abs()), e)
    {
      hide Tick, ReadMeter, ThumbsUp, Schedule, Pulse, ForceReset;
      match e {
        case TickEvent(r, c, t, d, o) => UpdateDashboard(r, c, t, d, o);
        case SelfTestRead(r) => ReadFlowMeter(r);
        case ThumbsUpEvent(m, shows) => HandleThumbsUpPress(m, shows);
        case TurnGreen(green) => ChangeColors(green);
        case PulseEvent => PulseFlowReset();
        case ForceEvent => ForceFlowReset();
        case ResetDaily => ResetDailyTotal();
        case ResetSeason => ResetSeasonTotal();
        case SetRequested(g) => requestedGallons := g;
        case SetOverride(on) => overrideMode := on;
      }
    }

    // Any series of ticks, presses and commands.
    method Serve(es: seq<DashEvent>)
      requires FillInv(Abs())
      modifies this
      ensures FillInv(Abs()) && Abs() == DashRun(old(Abs()), es)
    {
      hide DashStep, FillInv;
      ghost var was := Abs();
      assert es[..0] == [];
      for k := 0 to |es|
        invariant Abs() == DashRun(was, es[..k])
      {
        assert es[..k + 1][..k] == es[..k];
        Handle(es[k]);
      }
      assert es[..|es|] == es;
      RunKeeps(was, es);
    }
  }
}
