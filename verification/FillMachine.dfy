// The fill cycle of dashboard.py: flow edges, the pending fill and its
// confirmation, the automatic pump stop and the flow meter reset. One function
// per tick, button press or command; quantities are real numbers.
module FillMachine {
  import opened Octets

  const FLOW_STOPPED_THRESHOLD := 0.001
  const LITERS_TO_GALLONS := 0.264172

  type Volume = v: real | v >= 0.0 witness 0.0

  function Gallons(liters: Volume): (g: Volume) { liters * LITERS_TO_GALLONS }

  // One line of the fill history.
  datatype Fill = Fill(gallons: real, requested: real, auto: bool)

  // What happened, in order.
  datatype FillAct =
    | FlowStarted
    | TotalizerReset
    | ForcedReset
    | Fired
    | Stopped(fill: Fill)
    | StoppedForCalibration
    | Recorded(entry: Fill, flowThen: real)
    | DailyCleared
    | SeasonCleared
    | PulseScheduled
    | Pulsed(flow: real)
    | ForcedPulse

  datatype Reading = Reading(liters: Volume, rate: real)

  datatype Dash = Dash(
    flow: real,
    liters: Volume,
    previousLiters: Volume,
    wasFlowing: bool,
    lastAlert: bool,
    latched: bool,
    overridden: bool,
    requested: real,
    pending: Option<Fill>,
    daily: real,
    season: real,
    lastLoads: seq<real>,
    history: seq<Fill>,
    scheduled: bool,
    resetCycle: Option<nat>,
    cycle: nat,
    gpio: bool,
    log: seq<FillAct>)

  function Did(s: Dash, a: FillAct): Dash { s.(log := s.log + [a]) }

  predicate Flowing(s: Dash) { s.flow >= FLOW_STOPPED_THRESHOLD }

  // clear_auto_shutoff_state
  function ClearShutoff(s: Dash): Dash { s.(lastAlert := false, latched := false) }

  // detect_totalizer_reset
  function DetectReset(s: Dash, liters: Volume): Dash {
    var t := s.(previousLiters := liters);
    if Gallons(s.previousLiters) > 0.25 && Gallons(liters) < 0.05
    then Did(ClearShutoff(t.(cycle := t.cycle + 1)), TotalizerReset) else t
  }

  // read_flow_meter; a failed read leaves the last values.
  function ReadMeter(s: Dash, r: Option<Reading>): Dash {
    match r
    case None => s
    case Some(v) => DetectReset(s, v.liters).(liters := v.liters, flow := v.rate)
  }

  // Flow has just stopped.
  function OnStop(s: Dash, calibrating: bool): Dash {
    if calibrating then Did(s.(pending := None), StoppedForCalibration)
    else
      var f := Fill(Gallons(s.liters), s.requested, s.latched);
      Did(s.(pending := if f.gallons > 0.0 then Some(f) else None), Stopped(f))
  }

  // Flow has just started.
  function OnStart(s: Dash): Dash {
    Did(ClearShutoff(s.(cycle := s.cycle + 1, pending := None)), FlowStarted)
  }

  function OnEdges(s: Dash, calibrating: bool): Dash {
    var t :=
      if s.wasFlowing && !Flowing(s) then OnStop(s, calibrating)
      else if !s.wasFlowing && Flowing(s) then OnStart(s)
      else s;
    t.(wasFlowing := Flowing(s))
  }

  // The automatic pump stop, at most once until the next boundary.
  function OnAlert(s: Dash, threshold: real, disconnected: bool): Dash {
    if Flowing(s) && !s.overridden && !disconnected && Gallons(s.liters) >= s.requested - threshold && !s.lastAlert
    then Did(s.(lastAlert := true, latched := true), Fired) else s
  }

  // update_dashboard
  function Tick(s: Dash, r: Option<Reading>, calibrating: bool, threshold: real, disconnected: bool, overrideExpires: bool): Dash {
    var t := OnEdges(ReadMeter(s, r), calibrating);
    var u := if t.overridden && !disconnected && !Flowing(t) && overrideExpires then t.(overridden := false) else t;
    OnAlert(u, threshold, disconnected)
  }

  // record_pending_fill
  function RecordPending(s: Dash): Dash {
    match s.pending
    case None => s
    case Some(f) =>
      Did(s.(history := s.history + [f],
             daily := s.daily + f.gallons,
             season := s.season + f.gallons,
             lastLoads := [f.gallons] + (if |s.lastLoads| <= 2 then s.lastLoads else s.lastLoads[..2]),
             pending := None),
          Recorded(f, s.flow))
  }

  // schedule_flow_reset
  function Schedule(s: Dash): Dash {
    if s.scheduled || Flowing(s) then s
    else Did(s.(scheduled := true, resetCycle := Some(s.cycle)), PulseScheduled)
  }

  // handle_thumbs_up_press; `shows` says whether the indicator is put up, which
  // is when the reset is scheduled.
  function ThumbsUp(s: Dash, calibrationMode: bool, shows: bool): Dash {
    if calibrationMode || Flowing(s) then s
    else RecordPending(if shows then Schedule(s) else s)
  }

  function Unschedule(s: Dash): Dash { s.(scheduled := false, resetCycle := None) }

  // pulse_flow_reset
  function Pulse(s: Dash): Dash {
    if !s.gpio || s.resetCycle != Some(s.cycle) || Flowing(s) then Unschedule(s)
    else Unschedule(Did(s, Pulsed(s.flow)))
  }

  // force_flow_reset
  function ForceReset(s: Dash): Dash {
    if !s.gpio then Unschedule(s)
    else Unschedule(Did(Did(ClearShutoff(s), ForcedReset), ForcedPulse))
  }

  datatype DashEvent =
    | TickEvent(reading: Option<Reading>, calibrating: bool, threshold: real, disconnected: bool, overrideExpires: bool)
    | SelfTestRead(read: Option<Reading>)
    | ThumbsUpEvent(calibrationMode: bool, shows: bool)
    | TurnGreen(green: bool)
    | PulseEvent
    | ForceEvent
    | ResetDaily
    | ResetSeason
    | SetRequested(gallons: real)
    | SetOverride(on: bool)

  function DashStep(s: Dash, e: DashEvent): Dash {
    match e
    case TickEvent(r, c, t, d, o) => Tick(s, r, c, t, d, o)
    case SelfTestRead(r) => ReadMeter(s, r)
    case ThumbsUpEvent(m, shows) => ThumbsUp(s, m, shows)
    case TurnGreen(green) => if green then Schedule(s) else s
    case PulseEvent => Pulse(s)
    case ForceEvent => ForceReset(s)
    case ResetDaily => Did(s.(daily := 0.0), DailyCleared)
    case ResetSeason => Did(s.(season := 0.0), SeasonCleared)
    case SetRequested(g) => s.(requested := g)
    case SetOverride(on) => s.(overridden := on)
  }

  function DashRun(s: Dash, es: seq<DashEvent>): Dash {
    if es == [] then s else DashStep(DashRun(s, es[..|es| - 1]), es[|es| - 1])
  }

  // ---- what the log says ----

  predicate Boundary(a: FillAct) { a in {FlowStarted, TotalizerReset, ForcedReset} }

  // How often the relay was fired since the last boundary.
  function FiredSince(log: seq<FillAct>): (n: nat) {
    if log == [] then 0
    else
      var a := log[|log| - 1];
      if Boundary(a) then 0 else FiredSince(log[..|log| - 1]) + (if a == Fired then 1 else 0)
  }

  // Never twice in one cycle, and every finished fill is labelled by it.
  ghost predicate ShutoffsRight(log: seq<FillAct>) {
    log == [] ||
    var front := log[..|log| - 1]; var a := log[|log| - 1];
    && ShutoffsRight(front)
    && (a == Fired ==> FiredSince(front) == 0)
    && (a.Stopped? ==> (a.fill.auto <==> FiredSince(front) == 1))
  }

  // The fill that may be confirmed: the last one stopped, unless it has been
  // recorded or another one has started since.
  function Confirmable(log: seq<FillAct>): Option<Fill> {
    if log == [] then None
    else
      match log[|log| - 1]
      case Stopped(f) => if f.gallons > 0.0 then Some(f) else None
      case FlowStarted => None
      case StoppedForCalibration => None
      case Recorded(_, _) => None
      case _ => Confirmable(log[..|log| - 1])
  }

  // Every recorded fill was confirmable, so each stop is recorded once at most;
  // and it was recorded while flow was stopped.
  ghost predicate RecordsRight(log: seq<FillAct>) {
    log == [] ||
    var front := log[..|log| - 1]; var a := log[|log| - 1];
    RecordsRight(front) && (a.Recorded? ==> Confirmable(front) == Some(a.entry) && a.flowThen < FLOW_STOPPED_THRESHOLD)
  }

  // No new cycle has begun since a reset was last scheduled.
  predicate Undisturbed(log: seq<FillAct>) {
    log != [] &&
    match log[|log| - 1]
    case PulseScheduled => true
    case FlowStarted => false
    case TotalizerReset => false
    case _ => Undisturbed(log[..|log| - 1])
  }

  // Every pulse came with flow stopped, in the cycle that scheduled it, and no
  // schedule led to two.
  ghost predicate PulsesRight(log: seq<FillAct>) {
    log == [] ||
    var front := log[..|log| - 1]; var a := log[|log| - 1];
    && PulsesRight(front)
    && (a.Pulsed? ==> Undisturbed(front) && a.flow < FLOW_STOPPED_THRESHOLD && Pulses(front) < Schedules(front))
  }

  function Pulses(log: seq<FillAct>): (n: nat) {
    if log == [] then 0 else Pulses(log[..|log| - 1]) + (if log[|log| - 1].Pulsed? then 1 else 0)
  }

  function Schedules(log: seq<FillAct>): (n: nat) {
    if log == [] then 0 else Schedules(log[..|log| - 1]) + (if log[|log| - 1] == PulseScheduled then 1 else 0)
  }

  function SumSince(log: seq<FillAct>, clears: FillAct): (r: real) {
    if log == [] then 0.0
    else
      var a := log[|log| - 1];
      if a == clears then 0.0 else SumSince(log[..|log| - 1], clears) + (if a.Recorded? then a.entry.gallons else 0.0)
  }

  // The fills recorded, in order: what the history file holds.
  function RecordedFills(log: seq<FillAct>): (fills: seq<Fill>) {
    if log == [] then []
    else
      var a := log[|log| - 1];
      RecordedFills(log[..|log| - 1]) + (if a.Recorded? then [a.entry] else [])
  }

  // ---- the history file ----

  // A number as printed with three decimals, in thousandths.
  function Thousandths(x: real): (n: int)
    ensures -0.5 <= n as real - x * 1000.0 <= 0.5
  {
    (x * 1000.0 + 0.5).Floor
  }

  function Printed(x: real): real { Thousandths(x) as real / 1000.0 }

  // load_last_load: the last three lines, newest first.
  function LoadLastLoads(history: seq<Fill>): (loads: seq<real>)
    ensures |loads| == if |history| < 3 then |history| else 3
    ensures forall i :: 0 <= i < |loads| ==> loads[i] == Printed(history[|history| - 1 - i].gallons)
  {
    var n := if |history| < 3 then |history| else 3;
    seq(n, i requires 0 <= i < n => Printed(history[|history| - 1 - i].gallons))
  }

  // What is read back after a fill has been written: that fill, as printed,
  // before the two newest of those read back until then.
  lemma LoadsAfterFill(history: seq<Fill>, f: Fill)
    ensures var was := LoadLastLoads(history);
      LoadLastLoads(history + [f]) == [Printed(f.gallons)] + (if |was| <= 2 then was else was[..2])
  {
    hide Printed;
  }

  // The cached loads are those, up to what printing rounds off.
  ghost predicate LoadsMatch(cached: seq<real>, history: seq<Fill>) {
    var loaded := LoadLastLoads(history);
    && |cached| == |loaded|
    && forall i :: 0 <= i < |cached| ==> -0.0005 <= loaded[i] - cached[i] <= 0.0005
  }

  // ---- invariants ----

  // Both flags are set exactly while the relay has been fired in this cycle.
  ghost predicate ShutoffInv(s: Dash) {
    && s.lastAlert == s.latched && FiredSince(s.log) == (if s.latched then 1 else 0)
    && ShutoffsRight(s.log)
  }

  // The pending fill, the totals, the history and the cached loads are what the
  // log makes of them.
  ghost predicate AccountInv(s: Dash) {
    && RecordsRight(s.log) && s.pending == Confirmable(s.log)
    && s.daily == SumSince(s.log, DailyCleared) && s.season == SumSince(s.log, SeasonCleared)
    && s.history == RecordedFills(s.log)
    && LoadsMatch(s.lastLoads, s.history)
  }

  ghost predicate PulseInv(s: Dash) {
    && (s.scheduled <==> s.resetCycle.Some?) && (s.resetCycle.Some? ==> s.resetCycle.value <= s.cycle)
    && (s.resetCycle == Some(s.cycle) ==> Undisturbed(s.log))
    && PulsesRight(s.log) && Pulses(s.log) + (if s.scheduled then 1 else 0) <= Schedules(s.log)
  }

  ghost predicate FillInv(s: Dash) { ShutoffInv(s) && AccountInv(s) && PulseInv(s) }

  // ---- every step keeps them ----

  lemma {:induction false} LogNext(log: seq<FillAct>, a: FillAct)
    ensures FiredSince(log + [a]) == if Boundary(a) then 0 else FiredSince(log) + (if a == Fired then 1 else 0)
    ensures ShutoffsRight(log + [a]) == (
      && ShutoffsRight(log)
      && (a == Fired ==> FiredSince(log) == 0)
      && (a.Stopped? ==> (a.fill.auto <==> FiredSince(log) == 1)))
    ensures RecordsRight(log + [a]) == (
      && RecordsRight(log)
      && (a.Recorded? ==> Confirmable(log) == Some(a.entry) && a.flowThen < FLOW_STOPPED_THRESHOLD))
    ensures RecordedFills(log + [a]) == RecordedFills(log) + (if a.Recorded? then [a.entry] else [])
  {
    assert (log + [a])[..|log|] == log;
  }

  lemma {:induction false} LogNextSums(log: seq<FillAct>, a: FillAct)
    ensures forall c :: SumSince(log + [a], c) == if a == c then 0.0 else SumSince(log, c) + (if a.Recorded? then a.entry.gallons else 0.0)
    ensures Confirmable(log + [a]) == match a
      case Stopped(f) => if f.gallons > 0.0 then Some(f) else None
      case FlowStarted => None
      case StoppedForCalibration => None
      case Recorded(_, _) => None
      case _ => Confirmable(log)
  {
    assert (log + [a])[..|log|] == log;
  }

  lemma {:induction false} LogNextPulses(log: seq<FillAct>, a: FillAct)
    ensures Pulses(log + [a]) == Pulses(log) + (if a.Pulsed? then 1 else 0)
    ensures Schedules(log + [a]) == Schedules(log) + (if a == PulseScheduled then 1 else 0)
    ensures Undisturbed(log + [a]) <==> a == PulseScheduled || (a !in {FlowStarted, TotalizerReset} && Undisturbed(log))
    ensures PulsesRight(log + [a]) == (
      && PulsesRight(log)
      && (a.Pulsed? ==> Undisturbed(log) && a.flow < FLOW_STOPPED_THRESHOLD && Pulses(log) < Schedules(log)))
  {
    assert (log + [a])[..|log|] == log;
  }

  // One act that is no business of the shutoff, and one that is.
  lemma ShutoffStep(s: Dash, t: Dash, a: FillAct)
    requires ShutoffInv(s) && t.log == s.log + [a]
    requires if Boundary(a) then !t.lastAlert && !t.latched
      else if a == Fired then !s.lastAlert && t.lastAlert && t.latched
      else t.lastAlert == s.lastAlert && t.latched == s.latched
    requires a.Stopped? ==> a.fill.auto == s.latched
    ensures ShutoffInv(t)
  {
    LogNext(s.log, a);
  }

  lemma ShutoffRead(s: Dash, r: Option<Reading>)
    requires ShutoffInv(s)
    ensures ShutoffInv(ReadMeter(s, r))
  {
    hide ShutoffInv, Gallons;
    if r.Some? {
      var t := DetectReset(s, r.value.liters);
      if t.log != s.log { ShutoffStep(s, t, TotalizerReset); } else { ShutoffSame(s, t); }
      ShutoffSame(t, ReadMeter(s, r));
    }
  }

  lemma ShutoffEdges(s: Dash, calibrating: bool)
    requires ShutoffInv(s)
    ensures ShutoffInv(OnEdges(s, calibrating))
  {
    hide ShutoffInv, Gallons;
    var t := OnEdges(s, calibrating);
    if t.log != s.log { ShutoffStep(s, t, t.log[|s.log|]); } else { ShutoffSame(s, t); }
  }

  lemma ShutoffAlert(s: Dash, threshold: real, disconnected: bool)
    requires ShutoffInv(s)
    ensures ShutoffInv(OnAlert(s, threshold, disconnected))
  {
    hide ShutoffInv, Gallons;
    var t := OnAlert(s, threshold, disconnected);
    if t.log != s.log { ShutoffAgrees(s); ShutoffStep(s, t, Fired); } else { ShutoffSame(s, t); }
  }

  lemma ShutoffTick(s: Dash, r: Option<Reading>, calibrating: bool, threshold: real, disconnected: bool)
    requires ShutoffInv(s)
    ensures ShutoffInv(ReadMeter(s, r)) && ShutoffInv(OnEdges(s, calibrating)) && ShutoffInv(OnAlert(s, threshold, disconnected))
  {
    hide ShutoffInv, ReadMeter, OnEdges, OnAlert;
    ShutoffRead(s, r);
    ShutoffEdges(s, calibrating);
    ShutoffAlert(s, threshold, disconnected);
  }

  lemma ShutoffAgrees(s: Dash)
    requires ShutoffInv(s)
    ensures s.lastAlert == s.latched
  {
  }

  lemma ShutoffSame(s: Dash, t: Dash)
    requires ShutoffInv(s) && t.log == s.log && t.lastAlert == s.lastAlert && t.latched == s.latched
    ensures ShutoffInv(t)
  {
  }

  lemma ShutoffForce(s: Dash)
    requires ShutoffInv(s)
    ensures ShutoffInv(ForceReset(s))
  {
    hide ShutoffInv;
    var t := ForceReset(s);
    if s.gpio {
      var x := Did(ClearShutoff(s), ForcedReset);
      ShutoffStep(s, x, ForcedReset);
      ShutoffStep(x, t, ForcedPulse);
    } else {
      ShutoffSame(s, t);
    }
  }

  lemma ShutoffScheduled(s: Dash)
    requires ShutoffInv(s)
    ensures ShutoffInv(Schedule(s))
  {
    hide ShutoffInv;
    var t := Schedule(s);
    if t.log != s.log { ShutoffStep(s, t, PulseScheduled); } else { ShutoffSame(s, t); }
  }

  lemma ShutoffPulsed(s: Dash)
    requires ShutoffInv(s)
    ensures ShutoffInv(Pulse(s))
  {
    hide ShutoffInv;
    var t := Pulse(s);
    if t.log != s.log { ShutoffStep(s, t, Pulsed(s.flow)); } else { ShutoffSame(s, t); }
  }

  lemma ShutoffOthers(s: Dash)
    requires ShutoffInv(s)
    ensures ShutoffInv(RecordPending(s)) && ShutoffInv(Schedule(s)) && ShutoffInv(Pulse(s)) && ShutoffInv(ForceReset(s))
  {
    hide ShutoffInv, Schedule, Pulse, ForceReset;
    var t := RecordPending(s);
    if t.log != s.log { ShutoffStep(s, t, t.log[|s.log|]); } else { ShutoffSame(s, t); }
    ShutoffForce(s);
    ShutoffScheduled(s);
    ShutoffPulsed(s);
  }

  // The same for the accounts.
  lemma AccountStep(s: Dash, t: Dash, a: FillAct)
    requires AccountInv(s) && t.log == s.log + [a] && !a.Recorded?
    requires t.lastLoads == s.lastLoads && t.history == s.history
    requires t.daily == (if a == DailyCleared then 0.0 else s.daily) && t.season == (if a == SeasonCleared then 0.0 else s.season)
    requires t.pending == match a
      case Stopped(f) => if f.gallons > 0.0 then Some(f) else None
      case FlowStarted => None
      case StoppedForCalibration => None
      case _ => s.pending
    ensures AccountInv(t)
  {
    hide LoadsMatch, SumSince, Confirmable, RecordsRight, RecordedFills;
    LogNext(s.log, a);
    LogNextSums(s.log, a);
    assert s.history + [] == s.history;
  }

  lemma AccountSame(s: Dash, t: Dash)
    requires AccountInv(s) && t.log == s.log && t.pending == s.pending && t.daily == s.daily && t.season == s.season
    requires t.history == s.history && t.lastLoads == s.lastLoads
    ensures AccountInv(t)
  {
  }

  // Recording: one line more, both totals up by it, the loads moved on.
  lemma AccountRecord(s: Dash)
    requires AccountInv(s) && !Flowing(s)
    ensures AccountInv(RecordPending(s))
  {
    hide LoadsMatch, SumSince, Confirmable, RecordsRight, RecordedFills;
    if s.pending.Some? {
      var f := s.pending.value;
      LogNext(s.log, Recorded(f, s.flow));
      LogNextSums(s.log, Recorded(f, s.flow));
      LoadsMove(s.lastLoads, s.history, f);
    }
  }

  lemma LoadsMove(cached: seq<real>, history: seq<Fill>, f: Fill)
    requires LoadsMatch(cached, history)
    ensures LoadsMatch([f.gallons] + (if |cached| <= 2 then cached else cached[..2]), history + [f])
  {
    hide Thousandths;
    var next := [f.gallons] + (if |cached| <= 2 then cached else cached[..2]);
    var was := LoadLastLoads(history);
    var loaded := LoadLastLoads(history + [f]);
    assert |next| == |loaded|;
    forall i | 0 <= i < |next|
      ensures -0.0005 <= loaded[i] - next[i] <= 0.0005
    {
      if i == 0 {
        PrintedClose(f.gallons);
      } else {
        assert (history + [f])[|history| - i] == history[|history| - i];
        assert loaded[i] == was[i - 1] && next[i] == cached[i - 1];
      }
    }
  }

  lemma PrintedClose(x: real)
    ensures -0.0005 <= Printed(x) - x <= 0.0005
  {
    var n := Thousandths(x) as real;
    assert n / 1000.0 - x == (n - x * 1000.0) / 1000.0;
  }

  lemma AccountRead(s: Dash, r: Option<Reading>)
    requires AccountInv(s)
    ensures AccountInv(ReadMeter(s, r))
  {
    hide AccountInv, Gallons;
    if r.Some? {
      var t := DetectReset(s, r.value.liters);
      if t.log != s.log { AccountStep(s, t, TotalizerReset); } else { AccountSame(s, t); }
      AccountSame(t, ReadMeter(s, r));
    }
  }

  lemma AccountEdges(s: Dash, calibrating: bool)
    requires AccountInv(s)
    ensures AccountInv(OnEdges(s, calibrating))
  {
    hide AccountInv, Gallons;
    var t := OnEdges(s, calibrating);
    if t.log != s.log { AccountStep(s, t, t.log[|s.log|]); } else { AccountSame(s, t); }
  }

  lemma AccountAlert(s: Dash, threshold: real, disconnected: bool)
    requires AccountInv(s)
    ensures AccountInv(OnAlert(s, threshold, disconnected))
  {
    hide AccountInv, Gallons;
    var t := OnAlert(s, threshold, disconnected);
    if t.log != s.log { AccountStep(s, t, Fired); } else { AccountSame(s, t); }
  }

  lemma AccountTick(s: Dash, r: Option<Reading>, calibrating: bool, threshold: real, disconnected: bool)
    requires AccountInv(s)
    ensures AccountInv(ReadMeter(s, r)) && AccountInv(OnEdges(s, calibrating)) && AccountInv(OnAlert(s, threshold, disconnected))
  {
    hide AccountInv, ReadMeter, OnEdges, OnAlert;
    AccountRead(s, r);
    AccountEdges(s, calibrating);
    AccountAlert(s, threshold, disconnected);
  }

  lemma AccountForce(s: Dash)
    requires AccountInv(s)
    ensures AccountInv(ForceReset(s))
  {
    hide AccountInv;
    var t := ForceReset(s);
    if s.gpio {
      var x := Did(ClearShutoff(s), ForcedReset);
      AccountStep(s, x, ForcedReset);
      AccountStep(x, t, ForcedPulse);
    } else {
      AccountSame(s, t);
    }
  }

  lemma AccountScheduled(s: Dash)
    requires AccountInv(s)
    ensures AccountInv(Schedule(s))
  {
    hide AccountInv;
    var t := Schedule(s);
    if t.log != s.log { AccountStep(s, t, PulseScheduled); } else { AccountSame(s, t); }
  }

  lemma AccountPulsed(s: Dash)
    requires AccountInv(s)
    ensures AccountInv(Pulse(s))
  {
    hide AccountInv;
    var t := Pulse(s);
    if t.log != s.log { AccountStep(s, t, Pulsed(s.flow)); } else { AccountSame(s, t); }
  }

  lemma AccountOthers(s: Dash)
    requires AccountInv(s)
    ensures AccountInv(Schedule(s)) && AccountInv(Pulse(s)) && AccountInv(ForceReset(s))
    ensures AccountInv(DashStep(s, ResetDaily)) && AccountInv(DashStep(s, ResetSeason))
  {
    hide AccountInv, Schedule, Pulse, ForceReset;
    AccountForce(s);
    AccountScheduled(s);
    AccountPulsed(s);
    AccountStep(s, DashStep(s, ResetDaily), DailyCleared);
    AccountStep(s, DashStep(s, ResetSeason), SeasonCleared);
  }

  // And for the pulses.
  lemma PulseStep(s: Dash, t: Dash, a: FillAct)
    requires PulseInv(s) && t.log == s.log + [a] && !a.Pulsed? && a != PulseScheduled
    requires t.cycle == (if a in {FlowStarted, TotalizerReset} then s.cycle + 1 else s.cycle)
    requires (t.scheduled == s.scheduled && t.resetCycle == s.resetCycle) || (!t.scheduled && t.resetCycle == None)
    ensures PulseInv(t)
  {
    hide Undisturbed, PulsesRight, Pulses, Schedules;
    LogNextPulses(s.log, a);
  }

  lemma PulseSame(s: Dash, t: Dash)
    requires PulseInv(s) && t.log == s.log && t.cycle == s.cycle
    requires (t.scheduled == s.scheduled && t.resetCycle == s.resetCycle) || (!t.scheduled && t.resetCycle == None)
    ensures PulseInv(t)
  {
    hide Undisturbed, PulsesRight, Pulses, Schedules;
  }

  lemma PulseRead(s: Dash, r: Option<Reading>)
    requires PulseInv(s)
    ensures PulseInv(ReadMeter(s, r))
  {
    hide PulseInv, Gallons;
    if r.Some? {
      var t := DetectReset(s, r.value.liters);
      if t.log != s.log { PulseStep(s, t, TotalizerReset); } else { PulseSame(s, t); }
      PulseSame(t, ReadMeter(s, r));
    }
  }

  lemma PulseEdges(s: Dash, calibrating: bool)
    requires PulseInv(s)
    ensures PulseInv(OnEdges(s, calibrating))
  {
    hide PulseInv, Gallons;
    var t := OnEdges(s, calibrating);
    if t.log != s.log { PulseStep(s, t, t.log[|s.log|]); } else { PulseSame(s, t); }
  }

  lemma PulseAlert(s: Dash, threshold: real, disconnected: bool)
    requires PulseInv(s)
    ensures PulseInv(OnAlert(s, threshold, disconnected))
  {
    hide PulseInv, Gallons;
    var t := OnAlert(s, threshold, disconnected);
    if t.log != s.log { PulseStep(s, t, Fired); } else { PulseSame(s, t); }
  }

  lemma PulseTick(s: Dash, r: Option<Reading>, calibrating: bool, threshold: real, disconnected: bool)
    requires PulseInv(s)
    ensures PulseInv(ReadMeter(s, r)) && PulseInv(OnEdges(s, calibrating)) && PulseInv(OnAlert(s, threshold, disconnected))
  {
    hide PulseInv, ReadMeter, OnEdges, OnAlert;
    PulseRead(s, r);
    PulseEdges(s, calibrating);
    PulseAlert(s, threshold, disconnected);
  }

  lemma PulseRecord(s: Dash)
    requires PulseInv(s)
    ensures PulseInv(RecordPending(s))
  {
    hide PulseInv;
    var t := RecordPending(s);
    if t.log != s.log { PulseStep(s, t, t.log[|s.log|]); } else { PulseSame(s, t); }
  }

  lemma ScheduleKeepsPulses(s: Dash)
    requires PulseInv(s)
    ensures PulseInv(Schedule(s))
  {
    hide Undisturbed, PulsesRight, Pulses, Schedules;
    LogNextPulses(s.log, PulseScheduled);
  }

  lemma PulsePulsed(s: Dash)
    requires PulseInv(s)
    ensures PulseInv(Pulse(s))
  {
    hide Undisturbed, PulsesRight, Pulses, Schedules;
    LogNextPulses(s.log, Pulsed(s.flow));
  }

  lemma PulseForced(s: Dash)
    requires PulseInv(s)
    ensures PulseInv(ForceReset(s))
  {
    hide PulseInv;
    if s.gpio {
      var t := Did(ClearShutoff(s), ForcedReset);
      PulseStep(s, t, ForcedReset);
      PulseStep(t, ForceReset(s), ForcedPulse);
    } else {
      PulseSame(s, ForceReset(s));
    }
  }

  lemma PulseOthers(s: Dash)
    requires PulseInv(s)
    ensures PulseInv(RecordPending(s)) && PulseInv(Schedule(s)) && PulseInv(Pulse(s)) && PulseInv(ForceReset(s))
  {
    hide PulseInv, RecordPending, Schedule, Pulse, ForceReset;
    PulseRecord(s);
    ScheduleKeepsPulses(s);
    PulsePulsed(s);
    PulseForced(s);
  }

  // The fill cycle over whole runs, whatever ticks, presses and commands come:
  // the relay is fired at most once between cycle boundaries and labels the
  // fill; a stopped fill enters history and totals at most once, with flow
  // stopped and before the next start; totals and cached loads are what the
  // records say; and a reset pulse comes only with flow stopped, in the cycle
  // that scheduled it, once for each schedule.
  lemma StepKeeps(s: Dash, e: DashEvent)
    requires FillInv(s)
    ensures FillInv(DashStep(s, e))
  {
    hide ShutoffInv, AccountInv, PulseInv, ReadMeter, OnEdges, OnAlert, RecordPending, Schedule, Pulse, ForceReset, Gallons;
    match e {
      case TickEvent(r, c, t, d, o) => TickKeeps(s, r, c, t, d, o);
      case SelfTestRead(r) => PartsKeep(s, r, false, 0.0, false);
      case ThumbsUpEvent(m, shows) =>
        if !m && !Flowing(s) {
          OthersKeep(s);
          var t := if shows then Schedule(s) else s;
          ScheduleStill(s);
          OthersKeep(t);
          AccountRecord(t);
        }
      case TurnGreen(green) => OthersKeep(s);
      case PulseEvent => OthersKeep(s);
      case ForceEvent => OthersKeep(s);
      case ResetDaily => OthersKeep(s);
      case ResetSeason => OthersKeep(s);
      case SetRequested(g) => Untouched(s, DashStep(s, e));
      case SetOverride(on) => Untouched(s, DashStep(s, e));
    }
  }

  lemma ScheduleStill(s: Dash)
    ensures Flowing(Schedule(s)) == Flowing(s)
  {
  }

  lemma Untouched(s: Dash, t: Dash)
    requires FillInv(s) && t == s.(requested := t.requested, overridden := t.overridden)
    ensures FillInv(t)
  {
    hide ShutoffInv, AccountInv, PulseInv;
    ShutoffSame(s, t);
    AccountSame(s, t);
    PulseSame(s, t);
  }

  lemma PartsKeep(s: Dash, r: Option<Reading>, calibrating: bool, threshold: real, disconnected: bool)
    requires FillInv(s)
    ensures FillInv(ReadMeter(s, r)) && FillInv(OnEdges(s, calibrating)) && FillInv(OnAlert(s, threshold, disconnected))
  {
    hide ShutoffInv, AccountInv, PulseInv;
    ShutoffTick(s, r, calibrating, threshold, disconnected);
    AccountTick(s, r, calibrating, threshold, disconnected);
    PulseTick(s, r, calibrating, threshold, disconnected);
  }

  lemma TickKeeps(s: Dash, r: Option<Reading>, calibrating: bool, threshold: real, disconnected: bool, overrideExpires: bool)
    requires FillInv(s)
    ensures FillInv(Tick(s, r, calibrating, threshold, disconnected, overrideExpires))
  {
    hide FillInv, ReadMeter, OnEdges, OnAlert;
    PartsKeep(s, r, calibrating, threshold, disconnected);
    var t := ReadMeter(s, r);
    PartsKeep(t, None, calibrating, threshold, disconnected);
    var u := OnEdges(t, calibrating);
    Untouched(u, u.(overridden := false));
    PartsKeep(u, None, calibrating, threshold, disconnected);
    PartsKeep(u.(overridden := false), None, calibrating, threshold, disconnected);
  }

  lemma OthersKeep(s: Dash)
    requires FillInv(s)
    ensures FillInv(Schedule(s)) && FillInv(Pulse(s)) && FillInv(ForceReset(s))
    ensures FillInv(DashStep(s, ResetDaily)) && FillInv(DashStep(s, ResetSeason))
    ensures ShutoffInv(RecordPending(s)) && PulseInv(RecordPending(s))
  {
    hide ShutoffInv, AccountInv, PulseInv, Schedule, Pulse, ForceReset, RecordPending;
    ShutoffOthers(s);
    AccountOthers(s);
    PulseOthers(s);
    ShutoffStep(s, DashStep(s, ResetDaily), DailyCleared);
    ShutoffStep(s, DashStep(s, ResetSeason), SeasonCleared);
    PulseStep(s, DashStep(s, ResetDaily), DailyCleared);
    PulseStep(s, DashStep(s, ResetSeason), SeasonCleared);
  }

  lemma {:induction false} RunKeeps(s: Dash, es: seq<DashEvent>)
    requires FillInv(s)
    ensures FillInv(DashRun(s, es))
  {
    hide DashStep, FillInv;
    if es != [] {
      RunKeeps(s, es[..|es| - 1]);
      StepKeeps(DashRun(s, es[..|es| - 1]), es[|es| - 1]);
    }
  }
}
