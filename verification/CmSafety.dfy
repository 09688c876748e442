// What holds of the configuration manager over whole runs.
module CmSafety {
  import opened Octets
  import opened CmMachine

  // ---- one dispatch ----

  // The events jobs raise; the others are asked for by actions.
  predicate External(e: CmEvent) {
    e in {SmComReady, SmFault, DsReadyEvent, DsFaultEvent, SmOperateEvent, SmComLost, CfgChange, DsChangeEvent}
  }

  // The states a lost connection is noticed in.
  predicate NoticesLoss(st: CmState) { st in {CheckPortMode, SmStartup, PortFault, WaitingOnOperate, PortActive} }

  function Performed(s: Cm, st: CmState, a: CmAction, e: CmEvent): Cm
    requires Known(s.config)
  {
    CmPerform(s.(state := st), a, e).0
  }

  // A new configuration, checked and acted on.
  function Configured(s: Cm): Cm
    requires Known(s.config)
  {
    var (t, e) := CheckConfig(s.(state := CheckPortMode));
    if e in {IolManual, IolAutostart} then Performed(t, SmStartup, Startup, e)
    else if e in {DiCq, DoCq} then Performed(t, PortDido, Dido, e)
    else Performed(t, PortDeactivated, Deactivate, e)
  }

  function Lost(s: Cm): Cm
    requires Known(s.config)
  {
    Performed(s, CheckPortMode, ComLostAction, SmComLost)
  }

  // What a whole dispatch comes to, tables and loop aside.
  function CmEffect(s: Cm, e: CmEvent): Cm
    requires Known(s.config)
  {
    match e
    case CfgChange => if s.state == DsParamManager then s else Configured(s)
    case SmComLost => if NoticesLoss(s.state) then Lost(s) else s
    case SmComReady => if s.state == SmStartup then Performed(s, DsParamManager, StartDs, e) else s
    case SmFault => if s.state == SmStartup then Performed(s, PortFault, Fault, e) else s
    case DsReadyEvent => if s.state == DsParamManager then Performed(s, WaitingOnOperate, DsReadyAction, e) else s
    case SmOperateEvent => if s.state == WaitingOnOperate then Performed(s, PortActive, Operate, e) else s
    case DsFaultEvent =>
      if s.state !in {DsParamManager, WaitingOnOperate, PortActive} then s
      else if s.dsFault == FaultComErr then Lost(s)
      else Performed(s, PortFault, Fault, e)
    case DsChangeEvent =>
      if s.state in {DsParamManager, PortFault, WaitingOnOperate, PortActive} then Performed(s, SmStartup, DsChangeAction, e) else s
    case _ => s
  }

  lemma CmLookupStep(t: seq<CmTransition>, e: CmEvent, k: nat)
    ensures CmLookup(t, e, k) == if k >= |t| then None else if t[k].event == e then Some(t[k]) else CmLookup(t, e, k + 1)
  {
  }

  lemma {:induction false} CmLookups(st: CmState, e: CmEvent)
    ensures var t := CmTable(st);
      CmLookup(t, e, 0) ==
        if e == t[0].event then Some(t[0]) else if 1 < |t| && e == t[1].event then Some(t[1])
        else if 2 < |t| && e == t[2].event then Some(t[2]) else if 3 < |t| && e == t[3].event then Some(t[3])
        else if 4 < |t| && e == t[4].event then Some(t[4]) else if 5 < |t| && e == t[5].event then Some(t[5])
        else if 6 < |t| && e == t[6].event then Some(t[6]) else if 7 < |t| && e == t[7].event then Some(t[7])
        else None
  {
    hide CmLookup;
    var t := CmTable(st);
    CmLookupStep(t, e, 0);
    CmLookupStep(t, e, 1);
    CmLookupStep(t, e, 2);
    CmLookupStep(t, e, 3);
    CmLookupStep(t, e, 4);
    CmLookupStep(t, e, 5);
    CmLookupStep(t, e, 6);
    CmLookupStep(t, e, 7);
    CmLookupStep(t, e, 8);
  }

  // The transition each event has in each state.
  function Leads(st: CmState, e: CmEvent): Option<CmTransition> {
    match e
    case CfgChange =>
      Some(if st == DsParamManager then CmTransition(e, st, CfgChangeIgnore) else CmTransition(e, CheckPortMode, CheckMode))
    case SmComLost =>
      if NoticesLoss(st) then Some(CmTransition(e, CheckPortMode, ComLostAction))
      else if st == DsParamManager then Some(CmTransition(e, st, ComLostIgnore))
      else None
    case SmComReady => if st == SmStartup then Some(CmTransition(e, DsParamManager, StartDs)) else None
    case SmFault => if st == SmStartup then Some(CmTransition(e, PortFault, Fault)) else None
    case DsReadyEvent =>
      if st == DsParamManager then Some(CmTransition(e, WaitingOnOperate, DsReadyAction))
      else if st == PortActive then Some(CmTransition(e, st, DsReadyIgnore))
      else None
    case SmOperateEvent => if st == WaitingOnOperate then Some(CmTransition(e, PortActive, Operate)) else None
    case DsFaultEvent =>
      if st in {DsParamManager, WaitingOnOperate, PortActive} then Some(CmTransition(e, PortFault, Fault)) else None
    case DsChangeEvent =>
      if st in {DsParamManager, PortFault, WaitingOnOperate, PortActive} then Some(CmTransition(e, SmStartup, DsChangeAction))
      else None
    case _ => None
  }

  lemma {:induction false} LeadsRight(st: CmState, e: CmEvent)
    requires External(e)
    ensures CmLookup(CmTable(st), e, 0) == Leads(st, e)
  {
    hide CmLookup;
    CmLookups(st, e);
  }

  // One turn of the loop.
  lemma {:induction false} CmFireOnce(s: Cm, e: CmEvent, a: CmTransition)
    requires Known(s.config) && CmLookup(CmTable(s.state), e, 0) == Some(a)
    ensures var (t, again) := CmPerform(s.(state := a.next), a.action, e);
      && CmFire(s, e) == (if again == CmNone then t else CmFire(t, again))
      && CmSteps(s, e) == 1 + (if again == CmNone then 0 else CmSteps(t, again))
  {
    hide CmPerform, CmTable;
  }

  lemma {:induction false} CmFireNone(s: Cm, e: CmEvent)
    requires Known(s.config) && CmLookup(CmTable(s.state), e, 0) == None
    ensures CmFire(s, e) == s && CmSteps(s, e) == 0
  {
    hide CmPerform, CmTable;
  }

  // Only two actions ask for another transition.
  lemma ActionAsks(s: Cm, a: CmAction, e: CmEvent)
    requires Known(s.config)
    ensures a == CheckMode ==> CmPerform(s, a, e) == CheckConfig(s)
    ensures a in {ComLostIgnore, CfgChangeIgnore, DsReadyIgnore} ==> CmPerform(s, a, e) == (s, CmNone)
    ensures a == Fault && e == DsFaultEvent && s.dsFault == FaultComErr ==> CmPerform(s, a, e) == (s, SmComLost)
    ensures a != CheckMode && !(a == Fault && e == DsFaultEvent && s.dsFault == FaultComErr) ==> CmPerform(s, a, e).1 == CmNone
  {
    hide SetPortConfig, InitInfo, ParamsOf, TargetMode, CheckConfig;
  }

  // The second transition, out of CheckPortMode or PortFault.
  lemma {:induction false} SecondFire(s: Cm, e: CmEvent)
    requires Known(s.config)
    requires (s.state == CheckPortMode && e in {IolManual, IolAutostart, DiCq, DoCq, Deactivated, UnknownEvent})
      || (s.state == PortFault && e == SmComLost)
    ensures CmSteps(s, e) == 1
    ensures CmFire(s, e) ==
      if e in {IolManual, IolAutostart} then Performed(s, SmStartup, Startup, e)
      else if e in {DiCq, DoCq} then Performed(s, PortDido, Dido, e)
      else if e == SmComLost then Lost(s)
      else Performed(s, PortDeactivated, Deactivate, e)
  {
    hide CmLookup, CmFire, CmSteps, CmPerform;
    CmLookups(s.state, e);
    var next := CmLookup(CmTable(s.state), e, 0).value;
    CmFireOnce(s, e, next);
    ActionAsks(s.(state := next.next), next.action, e);
  }

  // Events that take one transition at most.
  lemma {:induction false} SingleEnds(s: Cm, e: CmEvent)
    requires Known(s.config) && External(e) && e !in {CfgChange, DsFaultEvent}
    ensures CmFire(s, e) == CmEffect(s, e) && CmSteps(s, e) <= 1
  {
    hide CmLookup, CmFire, CmSteps, CmPerform, Configured, CmTable;
    LeadsRight(s.state, e);
    var next := Leads(s.state, e);
    if next.None? {
      CmFireNone(s, e);
    } else {
      CmFireOnce(s, e, next.value);
      ActionAsks(s.(state := next.value.next), next.value.action, e);
    }
  }

  lemma {:induction false} ConfigEnds(s: Cm)
    requires Known(s.config)
    ensures CmFire(s, CfgChange) == CmEffect(s, CfgChange) && CmSteps(s, CfgChange) <= 2
  {
    hide CmLookup, CmFire, CmSteps, CmPerform, CmTable;
    LeadsRight(s.state, CfgChange);
    var next := CmLookup(CmTable(s.state), CfgChange, 0).value;
    var u := s.(state := next.next);
    CmFireOnce(s, CfgChange, next);
    ActionAsks(u, next.action, CfgChange);
    if next.action == CheckMode {
      SecondFire(CheckConfig(u).0, CheckConfig(u).1);
    }
  }

  lemma {:induction false} DsFaultEnds(s: Cm)
    requires Known(s.config)
    ensures CmFire(s, DsFaultEvent) == CmEffect(s, DsFaultEvent) && CmSteps(s, DsFaultEvent) <= 2
  {
    hide CmLookup, CmFire, CmSteps, CmPerform, Configured, CmTable;
    LeadsRight(s.state, DsFaultEvent);
    var next := Leads(s.state, DsFaultEvent);
    if next.None? {
      CmFireNone(s, DsFaultEvent);
    } else {
      var u := s.(state := PortFault);
      CmFireOnce(s, DsFaultEvent, next.value);
      ActionAsks(u, Fault, DsFaultEvent);
      if s.dsFault == FaultComErr {
        SecondFire(u, SmComLost);
        LostAnyway(s, u);
      }
    }
  }

  // Every dispatch ends within two transitions, with the effect above.
  lemma {:induction false} CmDispatchEnds(s: Cm, e: CmEvent)
    requires Known(s.config) && External(e)
    ensures CmFire(s, e) == CmEffect(s, e)
    ensures CmSteps(s, e) <= 2
  {
    hide CmFire, CmSteps, CmEffect;
    if e == CfgChange {
      ConfigEnds(s);
    } else if e == DsFaultEvent {
      DsFaultEnds(s);
    } else {
      SingleEnds(s, e);
    }
  }

  // The state it was noticed in leaves no trace.
  lemma LostAnyway(s: Cm, t: Cm)
    requires Known(s.config) && t == s.(state := t.state)
    ensures Lost(s) == Lost(t)
  {
  }

  // ---- status and state ----

  // What the port reports in each resting state.
  function StatusFor(s: Cm): Status {
    match s.state
    case CheckPortMode => NoDev
    case SmStartup => s.info.status
    case DsParamManager => PreOp
    case PortFault => PortDiag
    case WaitingOnOperate => PreOp
    case PortActive => Op
    case PortDido => if s.config.mode == MODE_DI then StatusDi else StatusDo
    case PortDeactivated => StatusDeactivated
  }

  // Process and on-request data exchange has been started and not stopped.
  function Exchanging(log: seq<CmAct>): bool {
    if log == [] then false
    else
      var a := log[|log| - 1];
      if a == PdStart then true else if a == OdStop then false else Exchanging(log[..|log| - 1])
  }

  ghost predicate Consistent(s: Cm) {
    && Known(s.config)
    && (s.info.status == StatusFor(s) || s.info.status == StatusDeactivated)
    && (s.state == PortDido ==> s.config.mode in {MODE_DI, MODE_DO})
    && (s.state in {SmStartup, DsParamManager, PortFault, WaitingOnOperate, PortActive} ==> s.config.mode in {MODE_IOL_MAN, MODE_IOL_AUTO})
    && (s.state == PortActive ==> Exchanging(s.log))
    && (s.state in {PortDido, PortDeactivated} ==> !Exchanging(s.log))
  }

  // Acts that start and stop nothing.
  predicate Still(acts: seq<CmAct>) { forall k :: 0 <= k < |acts| ==> acts[k] != PdStart && acts[k] != OdStop }

  lemma {:induction false} StillExchanging(log: seq<CmAct>, acts: seq<CmAct>)
    requires Still(acts)
    ensures Exchanging(log + acts) == Exchanging(log)
  {
    if acts == [] {
      assert log + acts == log;
    } else {
      var all := log + acts;
      assert all[..|all| - 1] == log + acts[..|acts| - 1];
      StillExchanging(log, acts[..|acts| - 1]);
    }
  }

  lemma {:induction false} StopExchanging(log: seq<CmAct>, acts: seq<CmAct>)
    requires Still(acts)
    ensures !Exchanging(log + [PdStop, OdStop] + acts)
  {
    StillExchanging(log + [PdStop, OdStop], acts);
  }

  lemma {:induction false} StartExchanging(log: seq<CmAct>, code: nat)
    ensures Exchanging(log + [OdStart, PdStart, PortEvent(code)])
  {
    assert log + [OdStart, PdStart, PortEvent(code)] == log + [OdStart, PdStart] + [PortEvent(code)];
    StillExchanging(log + [OdStart, PdStart], [PortEvent(code)]);
  }

  // What a configuration does after checking and stopping.
  lemma ModeActed(s: Cm, st: CmState, a: CmAction, e: CmEvent)
    requires Known(s.config) && a in {Startup, Dido, Deactivate}
    ensures var t := Performed(s, st, a, e);
      && t.state == st && t.config == s.config
      && s.log <= t.log && Still(t.log[|s.log|..])
      && t.info.status == (if a == Startup then s.info.status else if a == Deactivate then StatusDeactivated
                           else if e == DiCq then StatusDi else StatusDo)
  {
    hide ParamsOf;
  }

  // A configuration leaves by its mode.
  lemma ConfiguredState(s: Cm)
    requires Consistent(s)
    ensures var t := Configured(s); var c := s.requested;
      && t.state == (if !Known(c) || c.mode == MODE_DEACTIVE then PortDeactivated else if c.mode in {MODE_DI, MODE_DO} then PortDido else SmStartup)
      && t.config == (if Known(c) then c else s.config)
  {
    hide Exchanging, Performed;
    var (t, e) := CheckConfig(s.(state := CheckPortMode));
    ModeActed(t, SmStartup, Startup, e);
    ModeActed(t, PortDido, Dido, e);
    ModeActed(t, PortDeactivated, Deactivate, e);
  }

  // And it always stops the exchange.
  lemma ConfiguredStops(s: Cm)
    requires Known(s.config)
    ensures !Exchanging(Configured(s).log)
  {
    hide Exchanging, Performed;
    var (t, e) := CheckConfig(s.(state := CheckPortMode));
    ModeActed(t, SmStartup, Startup, e);
    ModeActed(t, PortDido, Dido, e);
    ModeActed(t, PortDeactivated, Deactivate, e);
    StopsBefore(s.log, t.log, Configured(s).log);
  }

  lemma {:induction false} StopsBefore(log: seq<CmAct>, checked: seq<CmAct>, all: seq<CmAct>)
    requires log + [PdStop, OdStop] <= checked <= all
    requires Still(checked[|log| + 2..]) && Still(all[|checked|..])
    ensures !Exchanging(all)
  {
    hide Exchanging;
    var rest := checked[|log| + 2..] + all[|checked|..];
    assert all == log + [PdStop, OdStop] + rest;
    StopExchanging(log, rest);
  }

  lemma ConfiguredConsistent(s: Cm)
    requires Consistent(s)
    ensures Consistent(Configured(s))
  {
    hide Exchanging, Performed;
    var (t, e) := CheckConfig(s.(state := CheckPortMode));
    ModeActed(t, SmStartup, Startup, e);
    ModeActed(t, PortDido, Dido, e);
    ModeActed(t, PortDeactivated, Deactivate, e);
    ConfiguredStops(s);
  }

  lemma LostConsistent(s: Cm)
    requires Consistent(s)
    ensures Consistent(Lost(s)) && Lost(s).state == CheckPortMode && Exchanging(Lost(s).log) == Exchanging(s.log)
  {
    hide Exchanging;
    StillExchanging(s.log, [PortEvent(EVENT_NO_DEV)]);
  }

  lemma {:induction false} DispatchConsistent(s: Cm, e: CmEvent)
    requires Consistent(s) && External(e)
    ensures Consistent(CmFire(s, e))
  {
    hide Exchanging, CmFire, CmSteps, Configured, Lost, ParamsOf;
    CmDispatchEnds(s, e);
    ConfiguredConsistent(s);
    LostConsistent(s);
    var t := CmFire(s, e);
    if e == SmOperateEvent {
      StartExchanging(s.log, EVENT_STATUS_CHANGE);
    }
  }

  // At every moment of every run the reported status is the one of the state
  // the manager rests in, or "deactivated"; the target mode and the data
  // exchange fit the state; and the stored configuration is a legal one, so
  // that the assertions on port mode and validation never fail.
  lemma StepConsistent(s: Cm, i: CmInput)
    requires Consistent(s)
    ensures Consistent(CmStep(s, i))
  {
    hide Exchanging, CmFire;
    match i {
      case PortModeInd(m) =>
        if m == SmInactive {
          StillExchanging(s.log, [PortEvent(EVENT_STATUS_CHANGE)]);
        } else if EventOf(m) != CmNone {
          DispatchConsistent(s, EventOf(m));
        }
      case DsReady => DispatchConsistent(s, DsReadyEvent);
      case DsChange => DispatchConsistent(s, DsChangeEvent);
      case DsFaultInd(f) => DispatchConsistent(s.(dsFault := f), DsFaultEvent);
      case PortConfiguration(c, d) => DispatchConsistent(s.(requested := c, dsMatches := d), CfgChange);
      case DeviceSeen(d) =>
    }
  }

  lemma {:induction false} RunConsistent(s: Cm, ins: seq<CmInput>)
    requires Consistent(s)
    ensures Consistent(CmRun(s, ins))
  {
    hide CmStep;
    if ins != [] {
      RunConsistent(s, ins[..|ins| - 1]);
      StepConsistent(CmRun(s, ins[..|ins| - 1]), ins[|ins| - 1]);
    }
  }

  // ---- after a lost connection ----

  // Once the manager rests in CheckPortMode, nothing but a new configuration
  // takes it out of there; and a legal or illegal one always does.
  lemma OnlyConfigurationLeaves(s: Cm, i: CmInput)
    requires Known(s.config) && s.state == CheckPortMode
    ensures CmStep(s, i).state != CheckPortMode <==> i.PortConfiguration?
  {
    hide CmFire, CmSteps, Performed, Configured;
    match i {
      case PortModeInd(m) => if EventOf(m) != CmNone { CmDispatchEnds(s, EventOf(m)); LossRests(s); }
      case DsReady => CmDispatchEnds(s, DsReadyEvent);
      case DsChange => CmDispatchEnds(s, DsChangeEvent);
      case DsFaultInd(f) => CmDispatchEnds(s.(dsFault := f), DsFaultEvent);
      case PortConfiguration(c, d) =>
        var u := s.(requested := c, dsMatches := d);
        CmDispatchEnds(u, CfgChange);
        ConfiguredLeaves(u);
      case DeviceSeen(d) =>
    }
  }

  lemma LossRests(s: Cm)
    requires Known(s.config)
    ensures Lost(s).state == CheckPortMode
  {
  }

  lemma ConfiguredLeaves(s: Cm)
    requires Known(s.config)
    ensures Configured(s).state in {SmStartup, PortDido, PortDeactivated}
  {
    hide Performed;
    var (t, e) := CheckConfig(s.(state := CheckPortMode));
    PerformedState(t, SmStartup, Startup, e);
    PerformedState(t, PortDido, Dido, e);
    PerformedState(t, PortDeactivated, Deactivate, e);
  }

  lemma PerformedState(s: Cm, st: CmState, a: CmAction, e: CmEvent)
    requires Known(s.config) && a != CheckMode
    ensures Performed(s, st, a, e).state == st
  {
    hide ParamsOf;
  }

  lemma {:induction false} RestsUntilConfigured(s: Cm, ins: seq<CmInput>)
    requires Known(s.config) && s.state == CheckPortMode && forall i :: i in ins ==> !i.PortConfiguration?
    ensures CmRun(s, ins).state == CheckPortMode
  {
    hide CmStep;
    if ins != [] {
      RestsUntilConfigured(s, ins[..|ins| - 1]);
      OnlyConfigurationLeaves(CmRun(s, ins[..|ins| - 1]), ins[|ins| - 1]);
    }
  }

  // ---- the way to operation ----

  // The inputs since SM_Startup was last entered.
  function SinceStartup(s: Cm, ins: seq<CmInput>): (h: seq<CmInput>)
    requires Known(s.config)
  {
    if ins == [] then []
    else
      var before := CmRun(s, ins[..|ins| - 1]);
      var i := ins[|ins| - 1];
      if EntersStartup(before, i) then [] else SinceStartup(s, ins[..|ins| - 1]) + [i]
  }

  // Inputs that end in SM_Startup by a transition.
  predicate EntersStartup(s: Cm, i: CmInput)
    requires Known(s.config)
  {
    CmStep(s, i).state == SmStartup && (i.PortConfiguration? || i.DsChange?)
  }

  predicate Ready(i: CmInput) { i == PortModeInd(SmComReadyInd) }
  predicate Operates(i: CmInput) { i == PortModeInd(SmOperateInd) }

  // COMREADY, then DS_Ready, then SM_OPERATE, in this order, among h.
  ghost predicate Prepared(h: seq<CmInput>) { exists a :: 0 <= a < |h| && Ready(h[a]) }
  ghost predicate Stored(h: seq<CmInput>) { exists a, b :: 0 <= a < b < |h| && Ready(h[a]) && h[b] == DsReady }
  ghost predicate BroughtUp(h: seq<CmInput>) {
    exists a, b, c :: 0 <= a < b < c < |h| && Ready(h[a]) && h[b] == DsReady && Operates(h[c])
  }

  ghost predicate Way(st: CmState, h: seq<CmInput>) {
    && (st == DsParamManager ==> Prepared(h))
    && (st == WaitingOnOperate ==> Stored(h))
    && (st == PortActive ==> BroughtUp(h))
  }

  // How the three states of the way are entered and kept.
  lemma StepsOnTheWay(s: Cm, i: CmInput)
    requires Known(s.config)
    ensures var t := CmStep(s, i);
      && (t.state == DsParamManager ==> s.state == DsParamManager || (s.state == SmStartup && Ready(i)))
      && (t.state == WaitingOnOperate ==> s.state == WaitingOnOperate || (s.state == DsParamManager && i == DsReady))
      && (t.state == PortActive ==> s.state == PortActive || (s.state == WaitingOnOperate && Operates(i)))
      && (EntersStartup(s, i) ==> t.state == SmStartup)
  {
    hide CmFire, CmSteps, Configured;
    match i {
      case PortModeInd(m) => if EventOf(m) != CmNone { WayOfEvent(s, EventOf(m)); }
      case DsReady => WayOfEvent(s, DsReadyEvent);
      case DsChange => WayOfEvent(s, DsChangeEvent);
      case DsFaultInd(f) => WayOfEvent(s.(dsFault := f), DsFaultEvent);
      case PortConfiguration(c, d) => WayOfEvent(s.(requested := c, dsMatches := d), CfgChange);
      case DeviceSeen(d) =>
    }
  }

  lemma {:induction false} WayOfEvent(s: Cm, e: CmEvent)
    requires Known(s.config) && External(e)
    ensures var t := CmFire(s, e);
      && (t.state == DsParamManager ==> s.state == DsParamManager || (s.state == SmStartup && e == SmComReady))
      && (t.state == WaitingOnOperate ==> s.state == WaitingOnOperate || (s.state == DsParamManager && e == DsReadyEvent))
      && (t.state == PortActive ==> s.state == PortActive || (s.state == WaitingOnOperate && e == SmOperateEvent))
  {
    hide CmFire, CmSteps, Configured, Performed, Lost;
    CmDispatchEnds(s, e);
    ConfiguredLeaves(s);
    LossRests(s);
    PerformedState(s, DsParamManager, StartDs, e);
    PerformedState(s, PortFault, Fault, e);
    PerformedState(s, WaitingOnOperate, DsReadyAction, e);
    PerformedState(s, PortActive, Operate, e);
    PerformedState(s, SmStartup, DsChangeAction, e);
  }

  // Port_Active is reached only by COMREADY, DS_Ready and SM_OPERATE, in this
  // order, since SM_Startup was last entered; and the two states before it by
  // their part of that series.
  lemma {:induction false} BroughtUpInOrder(s: Cm, ins: seq<CmInput>)
    requires Known(s.config) && s.state !in {DsParamManager, WaitingOnOperate, PortActive}
    ensures Way(CmRun(s, ins).state, SinceStartup(s, ins))
  {
    hide CmStep, EntersStartup;
    if ins != [] {
      var front := ins[..|ins| - 1];
      var i := ins[|ins| - 1];
      BroughtUpInOrder(s, front);
      StepsOnTheWay(CmRun(s, front), i);
      WayGrows(CmRun(s, front).state, SinceStartup(s, front), i, CmRun(s, ins).state);
    }
  }

  // One more input keeps what was reached and may add the next part.
  lemma WayGrows(st: CmState, h: seq<CmInput>, i: CmInput, next: CmState)
    requires Way(st, h)
    requires next == DsParamManager ==> st == DsParamManager || Ready(i)
    requires next == WaitingOnOperate ==> st == WaitingOnOperate || (st == DsParamManager && i == DsReady)
    requires next == PortActive ==> st == PortActive || (st == WaitingOnOperate && Operates(i))
    ensures Way(next, h + [i])
  {
    var g := h + [i];
    assert g[|h|] == i && forall k :: 0 <= k < |h| ==> g[k] == h[k];
    if st == DsParamManager {
      var a :| 0 <= a < |h| && Ready(h[a]);
      assert Ready(g[a]);
    } else if st == WaitingOnOperate {
      var a, b :| 0 <= a < b < |h| && Ready(h[a]) && h[b] == DsReady;
      assert Ready(g[a]) && g[b] == DsReady;
    } else if st == PortActive {
      var a, b, c :| 0 <= a < b < c < |h| && Ready(h[a]) && h[b] == DsReady && Operates(h[c]);
      assert Ready(g[a]) && g[b] == DsReady && Operates(g[c]);
    }
  }

  // ---- configurations ----

  function Answers(acts: seq<CmAct>): (n: nat) {
    if acts == [] then 0
    else Answers(acts[..|acts| - 1]) + (if acts[|acts| - 1] in {ConfigAccepted, ConfigRefused} then 1 else 0)
  }

  lemma {:induction false} AnswersJoined(a: seq<CmAct>, b: seq<CmAct>)
    ensures Answers(a + b) == Answers(a) + Answers(b)
  {
    if b == [] {
      assert a + b == a;
    } else {
      var ab := a + b;
      assert ab[..|ab| - 1] == a + b[..|b| - 1];
      AnswersJoined(a, b[..|b| - 1]);
    }
  }

  // A configuration request is answered, once, if and only if it does not come
  // while the parameter manager runs: there it is ignored without a word.
  lemma ConfigurationAnswered(s: Cm, c: PortConfig, dsMatches: bool)
    requires Known(s.config)
    ensures var t := CmStep(s, PortConfiguration(c, dsMatches));
      Answers(t.log) == Answers(s.log) + (if s.state == DsParamManager then 0 else 1)
  {
    hide CmFire, CmSteps, Performed, Answers;
    var u := s.(requested := c, dsMatches := dsMatches);
    CmDispatchEnds(u, CfgChange);
    if s.state != DsParamManager {
      ConfiguredAnswers(u);
    }
  }

  lemma ConfiguredAnswers(s: Cm)
    requires Known(s.config)
    ensures Answers(Configured(s).log) == Answers(s.log) + 1
  {
    hide Performed, Answers;
    var (t, e) := CheckConfig(s.(state := CheckPortMode));
    var verdict := if Known(s.requested) then ConfigAccepted else ConfigRefused;
    assert t.log == s.log + [PdStop, OdStop, verdict];
    AnswersJoined(s.log, [PdStop, OdStop, verdict]);
    OneAnswer(verdict);
    ModeActedQuietly(t, SmStartup, Startup, e);
    ModeActedQuietly(t, PortDido, Dido, e);
    ModeActedQuietly(t, PortDeactivated, Deactivate, e);
  }

  lemma OneAnswer(verdict: CmAct)
    requires verdict in {ConfigAccepted, ConfigRefused}
    ensures Answers([PdStop, OdStop, verdict]) == 1
  {
    var acts := [PdStop, OdStop, verdict];
    NoAnswers(acts[..2]);
  }

  lemma ModeActedQuietly(s: Cm, st: CmState, a: CmAction, e: CmEvent)
    requires Known(s.config) && a in {Startup, Dido, Deactivate}
    ensures Answers(Performed(s, st, a, e).log) == Answers(s.log)
  {
    hide ParamsOf, Answers;
    var rest := Performed(s, st, a, e).log[|s.log|..];
    assert Performed(s, st, a, e).log == s.log + rest;
    AnswersJoined(s.log, rest);
    NoAnswers(rest);
  }

  lemma {:induction false} NoAnswers(acts: seq<CmAct>)
    requires forall k :: 0 <= k < |acts| ==> acts[k] !in {ConfigAccepted, ConfigRefused}
    ensures Answers(acts) == 0
  {
    if acts != [] { NoAnswers(acts[..|acts| - 1]); }
  }

  // An illegal configuration deactivates the port, but the system manager is
  // given the target mode of the configuration still stored: "inactive" if and
  // only if that one was a deactivation already.
  lemma IllegalConfiguration(s: Cm, c: PortConfig, dsMatches: bool)
    requires Known(s.config) && s.state != DsParamManager && !Known(c)
    ensures var t := CmStep(s, PortConfiguration(c, dsMatches));
      && t.state == PortDeactivated && t.info.status == StatusDeactivated && t.config == s.config
      && t.log != [] && t.log[|t.log| - 1].SmSetPortConfig?
      && (t.log[|t.log| - 1].params.mode == TargetInactive <==> s.config.mode == MODE_DEACTIVE)
  {
    hide CmFire, CmSteps;
    CmDispatchEnds(s.(requested := c, dsMatches := dsMatches), CfgChange);
  }
}
