// The tank calibration workflow of dashboard.py: choosing tank, capacity and
// target, then filling step by step, with going back and aborting at any time.
module CalibrationWorkflow {
  import opened Octets

  const STEP_SIZE := 10

  datatype Phase = ChooseTank | SetTotal | SetTarget | ConfirmEmpty | WaitForFill | Settling | Review | Complete | AbortConfirm

  datatype Point = Point(step: int, actual: real)

  datatype CalAct = Filled(actual: real) | Stored(point: Point)

  // calibration_state
  datatype Cal = Cal(
    phase: Phase,
    front: bool,
    total: int,
    target: int,
    step: int,
    points: seq<Point>,
    flowStarted: bool,
    lastActual: real,
    returnPhase: Option<Phase>,
    log: seq<CalAct>)

  // _default_calibration_state
  const START := Cal(ChooseTank, true, 1070, 1000, STEP_SIZE, [], false, 0.0, None, [])

  function Max(a: int, b: int): int { if a >= b then a else b }
  function Min(a: int, b: int): int { if a <= b then a else b }

  // calibration_adjust_value
  function Adjust(s: Cal, delta: int): Cal {
    match s.phase
    case ChooseTank => s.(front := !s.front)
    case SetTotal =>
      var total := Max(10, s.total + delta);
      s.(total := total, target := if s.target > total then total else s.target)
    case SetTarget => s.(target := Min(s.total, Max(10, s.target + delta)))
    case Review => if delta == -1 then s.(phase := Settling) else s
    case _ => s
  }

  // _calibration_prepare_next_step
  function PrepareNextStep(s: Cal): Cal { s.(phase := WaitForFill, flowStarted := false) }

  // calibration_confirm; None once the window is closed.
  function Confirm(s: Cal): Option<Cal> {
    match s.phase
    case ChooseTank => Some(s.(phase := SetTotal))
    case SetTotal => Some(s.(phase := SetTarget))
    case SetTarget => Some(s.(phase := ConfirmEmpty))
    case ConfirmEmpty => Some(PrepareNextStep(s.(step := STEP_SIZE)))
    case Review =>
      var p := Point(s.step, s.lastActual);
      var t := s.(points := s.points + [p], log := s.log + [Stored(p)]);
      var next := s.step + STEP_SIZE;
      if next <= s.target then Some(PrepareNextStep(t.(step := next))) else Some(t.(phase := Complete))
    case AbortConfirm => None
    case Complete => None
    case _ => Some(s)
  }

  // calibration_cancel
  function Cancel(s: Cal): Cal {
    match s.phase
    case SetTotal => s.(phase := ChooseTank)
    case SetTarget => s.(phase := SetTotal)
    case ConfirmEmpty => s.(phase := SetTarget)
    case AbortConfirm => s.(phase := if s.returnPhase.Some? then s.returnPhase.value else ChooseTank, returnPhase := None)
    case _ => s.(returnPhase := Some(s.phase), phase := AbortConfirm)
  }

  // What a tick of update_dashboard does to it.
  function OnFlowStart(s: Cal): Cal { if s.phase == WaitForFill then s.(flowStarted := true) else s }

  function OnFlowStop(s: Cal, actual: real): Cal {
    if s.phase == WaitForFill && s.flowStarted
    then s.(lastActual := actual, phase := Settling, flowStarted := false, log := s.log + [Filled(actual)]) else s
  }

  function OnSettled(s: Cal): Cal { if s.phase == Settling then s.(phase := Review) else s }

  datatype CalEvent = AdjustBy(delta: int) | ConfirmPress | CancelPress | FlowStarts | FlowStops(actual: real) | SettleDue

  function CalStep(s: Cal, e: CalEvent): Option<Cal> {
    match e
    case AdjustBy(d) => Some(Adjust(s, d))
    case ConfirmPress => Confirm(s)
    case CancelPress => Some(Cancel(s))
    case FlowStarts => Some(OnFlowStart(s))
    case FlowStops(a) => Some(OnFlowStop(s, a))
    case SettleDue => Some(OnSettled(s))
  }

  // One run of the workflow, until its window is closed.
  function CalRun(s: Cal, es: seq<CalEvent>): Option<Cal> {
    if es == [] then Some(s)
    else match CalRun(s, es[..|es| - 1])
      case None => None
      case Some(t) => CalStep(t, es[|es| - 1])
  }

  // ---- what holds in every phase ----

  // The phase an abort would return to counts as the one it is in.
  function Effective(s: Cal): Phase {
    if s.phase == AbortConfirm && s.returnPhase.Some? then s.returnPhase.value else s.phase
  }

  predicate Filling(p: Phase) { p in {WaitForFill, Settling, Review} }

  // The last fill measured, unless it has been stored.
  function LastFilled(log: seq<CalAct>): Option<real> {
    if log == [] then None
    else match log[|log| - 1]
      case Filled(a) => Some(a)
      case Stored(_) => None
  }

  // Every stored point is a fill measured since the one before.
  ghost predicate StoredRight(log: seq<CalAct>) {
    log == [] ||
    var front := log[..|log| - 1]; var a := log[|log| - 1];
    StoredRight(front) && (a.Stored? ==> LastFilled(front) == Some(a.point.actual))
  }

  ghost predicate CalInv(s: Cal) {
    && 10 <= s.target <= s.total
    && (s.phase == AbortConfirm ==> s.returnPhase.Some? && s.returnPhase.value != AbortConfirm)
    && (forall i :: 0 <= i < |s.points| ==> s.points[i].step == STEP_SIZE * (i + 1))
    && (Filling(Effective(s)) ==> s.step == STEP_SIZE * (|s.points| + 1) <= s.target)
    && (Effective(s) == Complete ==> |s.points| == s.target / STEP_SIZE)
    && (!Filling(Effective(s)) && Effective(s) != Complete ==> s.points == [])
    && (Effective(s) in {Settling, Review} ==> LastFilled(s.log) == Some(s.lastActual))
    && StoredRight(s.log)
  }

  // Steps of this run still to be stored.
  function Remaining(s: Cal): int { s.target / STEP_SIZE - |s.points| }

  lemma {:induction false} StoredNext(log: seq<CalAct>, a: CalAct)
    ensures LastFilled(log + [a]) == if a.Filled? then Some(a.actual) else None
    ensures StoredRight(log + [a]) <==> StoredRight(log) && (a.Stored? ==> LastFilled(log) == Some(a.point.actual))
  {
    assert (log + [a])[..|log|] == log;
  }

  // In every phase, back and abort included: the target lies between ten and
  // the total; point i is step 10(i + 1), so none is stored twice; each is the
  // fill measured for it; and complete means one point for every step.
  lemma CalStepKeeps(s: Cal, e: CalEvent)
    requires CalInv(s) && CalStep(s, e).Some?
    ensures CalInv(CalStep(s, e).value)
  {
    hide LastFilled, StoredRight;
    StoredNext(s.log, Stored(Point(s.step, s.lastActual)));
    if e.FlowStops? {
      StoredNext(s.log, Filled(e.actual));
    }
  }

  // Once filling has begun there is no way back: the target and the points
  // stored stay, and each step stored leaves one fewer to store.
  lemma FillingForward(s: Cal, e: CalEvent)
    requires CalInv(s) && (Filling(Effective(s)) || Effective(s) == Complete) && CalStep(s, e).Some?
    ensures var t := CalStep(s, e).value;
      && (Filling(Effective(t)) || Effective(t) == Complete)
      && t.target == s.target && t.total == s.total && s.points <= t.points
      && Remaining(t) == Remaining(s) - (if t.points == s.points then 0 else 1)
      && (t.points != s.points ==> Remaining(s) > 0)
      && (Remaining(t) == 0 <==> Effective(t) == Complete)
  {
    hide LastFilled, StoredRight;
    var t := CalStep(s, e).value;
    CalStepKeeps(s, e);
  }

  lemma {:induction false} CalRunKeeps(s: Cal, es: seq<CalEvent>)
    requires CalInv(s) && CalRun(s, es).Some?
    ensures CalInv(CalRun(s, es).value)
  {
    hide CalStep, CalInv;
    if es != [] {
      CalRunKeeps(s, es[..|es| - 1]);
      CalStepKeeps(CalRun(s, es[..|es| - 1]).value, es[|es| - 1]);
    }
  }

  // ---- fills that are measured, and fills that nobody measures ----

  function Cancels(es: seq<CalEvent>): (n: nat) {
    if es == [] then 0 else Cancels(es[..|es| - 1]) + (if es[|es| - 1].CancelPress? then 1 else 0)
  }

  // After these events the abort question is up.
  predicate Asking(es: seq<CalEvent>) { Cancels(es) % 2 == 1 }

  // A start of the flow has been noticed: one came while the question was not up.
  predicate Noticed(es: seq<CalEvent>) { exists k :: 0 <= k < |es| && es[k].FlowStarts? && !Asking(es[..k]) }

  // Event k of a step is the stop that measures its fill.
  predicate Measures(started: bool, es: seq<CalEvent>, k: nat)
    requires k < |es|
  {
    es[k].FlowStops? && !Asking(es[..k]) && (started || Noticed(es[..k]))
  }

  ghost predicate Unmeasured(started: bool, es: seq<CalEvent>) { forall k :: 0 <= k < |es| ==> !Measures(started, es, k) }

  lemma AskingNext(es: seq<CalEvent>, e: CalEvent)
    ensures Asking(es + [e]) <==> (Asking(es) != e.CancelPress?)
    ensures Noticed(es + [e]) <==> Noticed(es) || (e.FlowStarts? && !Asking(es))
  {
    var all := es + [e];
    assert all[..|es|] == es;
    assert forall k :: 0 <= k < |es| ==> all[k] == es[k] && all[..k] == es[..k];
    assert all[|es|] == e;
  }

  lemma UnmeasuredFront(started: bool, es: seq<CalEvent>)
    requires es != [] && Unmeasured(started, es)
    ensures var front, last := es[..|es| - 1], es[|es| - 1];
      Unmeasured(started, front) && !(last.FlowStops? && !Asking(front) && (started || Noticed(front)))
  {
    hide Asking, Noticed;
    var front := es[..|es| - 1];
    forall k | 0 <= k < |front|
      ensures !Measures(started, front, k)
    {
      assert front[..k] == es[..k] && !Measures(started, es, k);
    }
    assert !Measures(started, es, |front|);
  }

  // Until its fill is measured, a step that is waited for leaves the points and
  // the log alone, and the presses and flow edges since tell where it is.
  lemma {:induction false} WaitingOn(s: Cal, es: seq<CalEvent>)
    requires s.phase == WaitForFill && Unmeasured(s.flowStarted, es) && CalRun(s, es).Some?
    ensures var t := CalRun(s, es).value;
      && t == s.(phase := t.phase, returnPhase := t.returnPhase, flowStarted := t.flowStarted)
      && (if Asking(es) then t.phase == AbortConfirm && t.returnPhase == Some(WaitForFill) else t.phase == WaitForFill)
      && (t.flowStarted <==> s.flowStarted || Noticed(es))
  {
    hide Measures, Unmeasured, Asking, Noticed;
    if es == [] {
      assert !Asking(es) && !Noticed(es) by { NothingYet(); }
    } else {
      var front, last := es[..|es| - 1], es[|es| - 1];
      assert es == front + [last];
      UnmeasuredFront(s.flowStarted, es);
      WaitingOn(s, front);
      AskingNext(front, last);
    }
  }

  lemma NothingYet()
    ensures !Asking([]) && !Noticed([])
  {
  }

  // Which fills are measured. From any step that is waited for, on every run
  // until its fill is measured: a stop of the flow is measured if and only if the
  // abort question is not up at that moment and a start of the flow has come
  // while it was not, since the step was waited for. Otherwise nothing changes.
  lemma {:induction false} MeasuredExactly(s: Cal, es: seq<CalEvent>, actual: real)
    requires s.phase == WaitForFill && Unmeasured(s.flowStarted, es) && CalRun(s, es).Some?
    ensures var t := CalRun(s, es).value; var u := OnFlowStop(t, actual);
      if !Asking(es) && (s.flowStarted || Noticed(es))
      then u == t.(lastActual := actual, phase := Settling, flowStarted := false, log := s.log + [Filled(actual)])
      else u == t && u.log == s.log && u.points == s.points
  {
    hide Measures, Unmeasured, Asking, Noticed;
    WaitingOn(s, es);
  }

  // And so over a whole run: something is measured if and only if one of its
  // stops is of that kind.
  lemma {:induction false} StepMeasured(s: Cal, es: seq<CalEvent>)
    requires s.phase == WaitForFill && CalRun(s, es).Some?
    ensures s.log <= CalRun(s, es).value.log
    ensures CalRun(s, es).value.log == s.log <==> Unmeasured(s.flowStarted, es)
  {
    hide Measures, Asking, Noticed, CalStep;
    if Unmeasured(s.flowStarted, es) {
      WaitingOn(s, es);
    } else {
      var front, last := es[..|es| - 1], es[|es| - 1];
      assert es == front + [last];
      StepMeasured(s, front);
      LogGrows(CalRun(s, front).value, last);
      if Unmeasured(s.flowStarted, front) {
        LastMeasures(s.flowStarted, es);
        WaitingOn(s, front);
        assert CalStep(CalRun(s, front).value, last).value.log == s.log + [Filled(last.actual)] by {
          MeasuredExactly(s, front, last.actual);
          StopIs(CalRun(s, front).value, last);
        }
      }
    }
  }

  lemma StopIs(s: Cal, e: CalEvent)
    requires e.FlowStops?
    ensures CalStep(s, e) == Some(OnFlowStop(s, e.actual))
  {
  }

  lemma LogGrows(s: Cal, e: CalEvent)
    requires CalStep(s, e).Some?
    ensures s.log <= CalStep(s, e).value.log
  {
  }

  lemma LastMeasures(started: bool, es: seq<CalEvent>)
    requires es != [] && !Unmeasured(started, es) && Unmeasured(started, es[..|es| - 1])
    ensures var front, last := es[..|es| - 1], es[|es| - 1];
      last.FlowStops? && !Asking(front) && (started || Noticed(front))
  {
    hide Asking, Noticed;
    var front := es[..|es| - 1];
    forall k | 0 <= k < |front|
      ensures !Measures(started, es, k)
    {
      assert front[..k] == es[..k] && !Measures(started, front, k);
    }
    var k :| 0 <= k < |es| && Measures(started, es, k);
    assert k == |front|;
  }

  // Three fills that nobody measures: the flow stops while the question is up,
  lemma StoppedUnderQuestion(s: Cal, actual: real)
    requires s.phase == WaitForFill
    ensures CalRun(s, [FlowStarts, CancelPress, FlowStops(actual), CancelPress]) == Some(s.(flowStarted := true, returnPhase := None))
  {
    FourEvents(s, FlowStarts, CancelPress, FlowStops(actual), CancelPress);
  }

  // it starts while the question is up,
  lemma StartedUnderQuestion(s: Cal, actual: real)
    requires s.phase == WaitForFill && !s.flowStarted
    ensures CalRun(s, [CancelPress, FlowStarts, CancelPress, FlowStops(actual)]) == Some(s.(returnPhase := None))
  {
    FourEvents(s, CancelPress, FlowStarts, CancelPress, FlowStops(actual));
  }

  // or it is on already when the step before is confirmed.
  lemma StartedBeforeStep(s: Cal, actual: real)
    requires s.phase == Review && s.step + STEP_SIZE <= s.target
    ensures var r := CalRun(s, [FlowStarts, ConfirmPress, FlowStops(actual), SettleDue]);
      && r.Some? && r.value.phase == WaitForFill && r.value.step == s.step + STEP_SIZE
      && r.value.log == s.log + [Stored(Point(s.step, s.lastActual))]
  {
    FourEvents(s, FlowStarts, ConfirmPress, FlowStops(actual), SettleDue);
  }

  function Then(r: Option<Cal>, e: CalEvent): Option<Cal> { if r.None? then None else CalStep(r.value, e) }

  lemma {:induction false} FourEvents(s: Cal, a: CalEvent, b: CalEvent, c: CalEvent, d: CalEvent)
    ensures CalRun(s, [a, b, c, d]) == Then(Then(Then(CalStep(s, a), b), c), d)
  {
    hide CalStep;
    assert [a, b, c, d][..3] == [a, b, c] && [a, b, c][..2] == [a, b] && [a, b][..1] == [a] && [a][..0] == [];
    assert CalRun(s, [a]) == CalStep(s, a);
    assert CalRun(s, [a, b]) == Then(CalStep(s, a), b);
    assert CalRun(s, [a, b, c]) == Then(Then(CalStep(s, a), b), c);
  }

  // Going back from an abort is as if nothing had happened.
  lemma AbortUndone(s: Cal)
    requires CalInv(s) && s.phase !in {SetTotal, SetTarget, ConfirmEmpty, AbortConfirm}
    ensures Cancel(Cancel(s)) == s.(returnPhase := None)
  {
  }

  // A run through all steps: for each, flow starts, stops and settles, and the
  // reading is confirmed. It stores every step up to the target, in order.
  function StepEvents(actuals: seq<real>): seq<CalEvent> {
    if actuals == [] then []
    else StepEvents(actuals[..|actuals| - 1]) + [FlowStarts, FlowStops(actuals[|actuals| - 1]), SettleDue, ConfirmPress]
  }

  lemma {:induction false} RunOneMore(s: Cal, es: seq<CalEvent>, t: Cal, e: CalEvent)
    requires CalRun(s, es) == Some(t)
    ensures CalRun(s, es + [e]) == CalStep(t, e)
  {
    hide CalStep;
    assert (es + [e])[..|es|] == es;
  }

  lemma {:induction false} RunFour(s: Cal, es: seq<CalEvent>, t: Cal, actual: real)
    requires CalRun(s, es) == Some(t)
    ensures CalRun(s, es + [FlowStarts, FlowStops(actual), SettleDue, ConfirmPress]) == FourSteps(t, actual)
  {
    hide CalRun, Confirm, OnFlowStart, OnFlowStop, OnSettled;
    RunOneMore(s, es, t, FlowStarts);
    RunOneMore(s, es + [FlowStarts], OnFlowStart(t), FlowStops(actual));
    RunOneMore(s, es + [FlowStarts] + [FlowStops(actual)], OnFlowStop(OnFlowStart(t), actual), SettleDue);
    var u := OnSettled(OnFlowStop(OnFlowStart(t), actual));
    RunOneMore(s, es + [FlowStarts] + [FlowStops(actual)] + [SettleDue], u, ConfirmPress);
    assert es + [FlowStarts, FlowStops(actual), SettleDue, ConfirmPress]
        == es + [FlowStarts] + [FlowStops(actual)] + [SettleDue] + [ConfirmPress];
  }

  lemma {:induction false} AllStepsStored(s: Cal, actuals: seq<real>)
    requires CalInv(s) && s.phase == WaitForFill && s.points == [] && |actuals| <= s.target / STEP_SIZE
    ensures var r := CalRun(s, StepEvents(actuals));
      && r.Some? && r.value.target == s.target && |r.value.points| == |actuals|
      && (forall i :: 0 <= i < |actuals| ==> r.value.points[i] == Point(STEP_SIZE * (i + 1), actuals[i]))
      && r.value.phase == (if |actuals| == s.target / STEP_SIZE then Complete else WaitForFill)
      && (r.value.phase == WaitForFill ==> r.value.step == STEP_SIZE * (|actuals| + 1))
  {
    hide CalInv, CalStep, FourSteps;
    if actuals == [] {
      TargetPositive(s);
    } else {
      var front := actuals[..|actuals| - 1];
      AllStepsStored(s, front);
      var t := CalRun(s, StepEvents(front)).value;
      OneStepStored(t, actuals[|actuals| - 1], s.target / STEP_SIZE);
      RunFour(s, StepEvents(front), t, actuals[|actuals| - 1]);
    }
  }

  lemma TargetPositive(s: Cal)
    requires CalInv(s) && s.phase == WaitForFill && s.points == []
    ensures s.target / STEP_SIZE >= 1 && s.step == STEP_SIZE
  {
  }

  // Flow starts, stops and settles, and the reading is confirmed.
  function FourSteps(t: Cal, actual: real): Option<Cal> {
    Confirm(OnSettled(OnFlowStop(OnFlowStart(t), actual)))
  }

  lemma OneStepStored(t: Cal, actual: real, steps: int)
    requires t.phase == WaitForFill && steps == t.target / STEP_SIZE
    requires t.step == STEP_SIZE * (|t.points| + 1) && |t.points| < steps
    ensures FourSteps(t, actual).Some?
    ensures var d := FourSteps(t, actual).value;
      && d.target == t.target
      && d.points == t.points + [Point(STEP_SIZE * (|t.points| + 1), actual)]
      && d.phase == (if |t.points| + 1 == steps then Complete else WaitForFill)
      && (d.phase == WaitForFill ==> d.step == STEP_SIZE * (|t.points| + 2))
  {
  }

  // ---- the handlers ----

  class Calibration {
    var active: bool
    var phase: Phase
    var front: bool
    var totalCapacity: int
    var targetCapacity: int
    var currentStep: int
    var points: seq<Point>
    var flowStarted: bool
    var lastStepActual: real
    var returnPhase: Option<Phase>
    ghost var log: seq<CalAct>

    ghost function Abs(): Option<Cal>
      reads this
    {
      if active
      then Some(Cal(phase, front, totalCapacity, targetCapacity, currentStep, points, flowStarted, lastStepActual, returnPhase, log))
      else None
    }

    // The workflow's invariant, while its window is open.
    ghost predicate Valid()
      reads this
    {
      Abs().Some? ==> CalInv(Abs().value)
    }

    // show_tank_calibration
    constructor ()
      ensures Abs() == Some(START) && Valid()
    {
      active, phase, front := true, ChooseTank, true;
      totalCapacity, targetCapacity, currentStep, points := 1070, 1000, STEP_SIZE, [];
      flowStarted, lastStepActual, returnPhase, log := false, 0.0, None, [];
    }

    // calibration_adjust_value
    method AdjustValue(delta: int)
      requires Valid()
      modifies this
      ensures Valid()
      ensures Abs() == if old(Abs()).None? then None else Some(Adjust(old(Abs()).value, delta))
      ensures active ==> 10 <= targetCapacity <= totalCapacity
    {
      Kept(AdjustBy(delta));
      if !active {
        return;
      }
      match phase {
        case ChooseTank => front := !front;
        case SetTotal =>
          totalCapacity := Max(10, totalCapacity + delta);
          if targetCapacity > totalCapacity {
            targetCapacity := totalCapacity;
          }
        case SetTarget => targetCapacity := Min(totalCapacity, Max(10, targetCapacity + delta));
        case Review =>
          if delta == -1 {
            phase := Settling;
          }
        case _ =>
      }
    }

    // calibration_confirm
    method ConfirmNow()
      requires Valid()
      modifies this
      ensures Valid()
      ensures Abs() == if old(Abs()).None? then None else Confirm(old(Abs()).value)
    {
      hide CalInv;
      Kept(ConfirmPress);
      if !active {
        return;
      }
      match phase {
        case ChooseTank => phase := SetTotal;
        case SetTotal => phase := SetTarget;
        case SetTarget => phase := ConfirmEmpty;
        case ConfirmEmpty =>
          currentStep := STEP_SIZE;
          phase := WaitForFill;
          flowStarted := false;
        case Review =>
          var p := Point(currentStep, lastStepActual);
          points := points + [p];
          log := log + [Stored(p)];
          var nextStep := currentStep + STEP_SIZE;
          if nextStep <= targetCapacity {
            currentStep := nextStep;
            phase := WaitForFill;
            flowStarted := false;
            return;
          }
          phase := Complete;
        case AbortConfirm => active := false;
        case Complete => active := false;
        case _ =>
      }
    }

    // calibration_cancel
    method CancelNow()
      requires Valid()
      modifies this
      ensures Valid()
      ensures Abs() == if old(Abs()).None? then None else Some(Cancel(old(Abs()).value))
    {
      hide CalInv;
      Kept(CancelPress);
      if !active {
        return;
      }
      match phase {
        case SetTotal => phase := ChooseTank;
        case SetTarget => phase := SetTotal;
        case ConfirmEmpty => phase := SetTarget;
        case AbortConfirm =>
          phase := if returnPhase.Some? then returnPhase.value else ChooseTank;
          returnPhase := None;
        case _ =>
          returnPhase := Some(phase);
          phase := AbortConfirm;
      }
    }

    // The calibration part of update_dashboard.
    method OnTick(wasFlowing: bool, isFlowing: bool, actual: real, due: bool)
      requires Valid()
      modifies this
      ensures Valid()
      ensures old(Abs()).None? ==> Abs() == None
      ensures old(Abs()).Some? ==>
        var a := if wasFlowing && !isFlowing then OnFlowStop(old(Abs()).value, actual) else old(Abs()).value;
        var b := if !wasFlowing && isFlowing then OnFlowStart(a) else a;
        Abs() == Some(if due then OnSettled(b) else b)
    {
      hide CalInv;
      TickKept(wasFlowing, isFlowing, actual, due);
      if !active {
        return;
      }
      if wasFlowing && !isFlowing && phase == WaitForFill && flowStarted {
        lastStepActual := actual;
        phase := Settling;
        flowStarted := false;
        log := log + [Filled(actual)];
      }
      if !wasFlowing && isFlowing && phase == WaitForFill {
        flowStarted := true;
      }
      if due && phase == Settling {
        phase := Review;
      }
    }

    lemma Kept(e: CalEvent)
      requires Valid()
      ensures Abs().Some? && CalStep(Abs().value, e).Some? ==> CalInv(CalStep(Abs().value, e).value)
    {
      hide CalInv, CalStep;
      if Abs().Some? && CalStep(Abs().value, e).Some? { CalStepKeeps(Abs().value, e); }
    }

    lemma TickKept(wasFlowing: bool, isFlowing: bool, actual: real, due: bool)
      requires Valid()
      ensures Abs().Some? ==>
        var a := if wasFlowing && !isFlowing then OnFlowStop(Abs().value, actual) else Abs().value;
        var b := if !wasFlowing && isFlowing then OnFlowStart(a) else a;
        CalInv(if due then OnSettled(b) else b)
    {
      hide CalInv;
      if Abs().Some? {
        var s := Abs().value;
        CalStepKeeps(s, FlowStops(actual));
        var a := if wasFlowing && !isFlowing then OnFlowStop(s, actual) else s;
        CalStepKeeps(a, FlowStarts);
        var b := if !wasFlowing && isFlowing then OnFlowStart(a) else a;
        CalStepKeeps(b, SettleDue);
      }
    }

    // Any series of presses and flow edges keeps the workflow in order.
    method Serve(es: seq<CalEvent>)
      requires Valid()
      modifies this
      ensures Valid()
      ensures Abs() == if old(Abs()).None? then None else CalRun(old(Abs()).value, es)
    {
      hide CalInv, Adjust, Confirm, Cancel;
      ghost var was := Abs();
      assert es[..0] == [];
      for k := 0 to |es|
        invariant Valid() && Abs() == if was.None? then None else CalRun(was.value, es[..k])
      {
        assert es[..k + 1][..k] == es[..k];
        match es[k] {
          case AdjustBy(delta) => AdjustValue(delta);
          case ConfirmPress => ConfirmNow();
          case CancelPress => CancelNow();
          case FlowStarts => OnTick(false, true, 0.0, false);
          case FlowStops(actual) => OnTick(true, false, actual, false);
          case SettleDue => OnTick(false, false, 0.0, true);
        }
      }
      assert es[..|es|] == es;
    }
  }
}
