// iolink_cm.c as it works: one object per port whose actions write the stored
// configuration and the port information, driven by tables it searches anew
// for every event. Its methods are proved against the functions of CmMachine.
module ConfigManager {
  import opened Octets
  import opened CmMachine
  import CmSafety

  class Manager {
    var state: CmState
    var config: PortConfig
    var requested: PortConfig
    var dsFault: DsFault
    var info: PortInfo
    var seen: DeviceInfo
    var dsMatches: bool
    ghost var log: seq<CmAct>

    ghost function Abs(): Cm
      reads this
    {
      Cm(state, config, requested, dsFault, info, seen, dsMatches, log)
    }

    // iolink_cm_init
    constructor ()
      ensures CmSafety.Consistent(Abs()) && state == PortDeactivated && log == []
    {
      state := PortDeactivated;
      config := PortConfig(MODE_DEACTIVE, 0, 0, 0, 0, 0);
      requested := PortConfig(MODE_DEACTIVE, 0, 0, 0, 0, 0);
      dsFault := FaultNone;
      info := PortInfo(StatusDeactivated, NO_DEVICE, false);
      seen := NO_DEVICE;
      dsMatches := false;
      log := [];
    }

    static method FindTransition(t: seq<CmTransition>, e: CmEvent) returns (next: Option<CmTransition>)
      ensures next == CmLookup(t, e, 0)
    {
      var i := 0;
      while i < |t|
        invariant i <= |t|
        invariant CmLookup(t, e, 0) == CmLookup(t, e, i)
      {
        if t[i].event == e {
          return Some(t[i]);
        }
        i := i + 1;
      }
      next := None;
    }

    // init_port_info
    method InitPortInfo(status: Status, valid: bool)
      modifies this`info
      ensures Abs() == InitInfo(old(Abs()), status, valid)
    {
      var device := info.device;
      if status != StatusDeactivated {
        device := device.(revision := seen.revision, rate := seen.rate, vendorId := seen.vendorId, deviceId := seen.deviceId);
      } else {
        device := NO_DEVICE;
      }
      if status == PreOp {
        device := device.(cycleTime := seen.cycleTime);
      }
      info := PortInfo(status, device, valid);
    }

    // set_port_config
    method SetConfig(init: bool)
      requires Known(config)
      modifies this`log
      ensures Abs() == SetPortConfig(old(Abs()), init)
    {
      var params := ParamsOf(config);
      if init {
        log := log + [DsInit(config)];
      } else {
        params := params.(mode := CfgCom);
      }
      log := log + [SmSetPortConfig(params)];
    }

    // cm_check_mode on a new configuration
    method CheckMode() returns (again: CmEvent)
      modifies this`config, this`log
      ensures (Abs(), again) == CheckConfig(old(Abs()))
    {
      match requested.mode {
        case 0 => again := Deactivated;
        case 3 => again := DiCq;
        case 4 => again := DoCq;
        case 2 => again := IolAutostart;
        case 1 => again := IolManual;
        case _ => again := UnknownEvent;
      }
      if requested.validation > 4 {
        again := UnknownEvent;
      }
      if requested.iq > 5 {
        again := UnknownEvent;
      }
      log := log + [PdStop, OdStop];
      if again == UnknownEvent {
        log := log + [ConfigRefused];
      } else {
        config := requested;
        log := log + [ConfigAccepted];
      }
    }

    // cm_port_fault
    method PortFaultAction(e: CmEvent) returns (again: CmEvent)
      modifies this`info, this`log
      ensures (Abs(), again) == PortFaulted(old(Abs()), e)
    {
      var code := EVENT_BAD_DID;
      if e == DsFaultEvent {
        match dsFault {
          case FaultComErr => return SmComLost;
          case FaultId => code := EVENT_INCON_ID;
          case FaultSize => code := EVENT_INCON_SIZE;
          case FaultLock => code := EVENT_INCON;
          case _ =>
        }
      }
      InitPortInfo(PortDiag, false);
      log := log + [PortEvent(code)];
      again := CmNone;
    }

    // The action of a transition.
    method Act(a: CmAction, e: CmEvent) returns (again: CmEvent)
      requires Known(config)
      modifies this
      ensures (Abs(), again) == CmPerform(old(Abs()), a, e)
    {
      hide InitInfo, SetPortConfig, CheckConfig, PortFaulted, Known;
      again := CmNone;
      match a {
        case Startup =>
          if e == IolAutostart || !dsMatches {
            log := log + [DsDelete];
          }
          SetConfig(true);
        case Dido =>
          log := log + [DsDelete];
          info := PortInfo(if e == DiCq then StatusDi else StatusDo, DeviceInfo(0, 0, 0, 0, info.device.cycleTime), false);
          SetConfig(true);
        case CheckMode => again := CheckMode();
        case ComLostAction =>
          info := info.(status := NoDev);
          log := log + [PortEvent(EVENT_NO_DEV)];
        case ComLostIgnore =>
        case CfgChangeIgnore =>
        case DsChangeAction => SetConfig(false);
        case StartDs =>
          InitPortInfo(PreOp, false);
          log := log + [DsStartup];
        case DsReadyAction => log := log + [SmOperate];
        case DsReadyIgnore =>
        case Operate =>
          InitPortInfo(Op, true);
          log := log + [OdStart, PdStart, PortEvent(EVENT_STATUS_CHANGE)];
        case Fault => again := PortFaultAction(e);
        case Deactivate => DeactivateAction(e);
      }
    }

    // cm_deactivate
    method DeactivateAction(e: CmEvent)
      requires Known(config)
      modifies this`info, this`log
      ensures (Abs(), CmNone) == CmPerform(old(Abs()), Deactivate, e)
    {
      var params := Params(TargetMode(config.mode), NoCheck, 0, 0, 0, 0);
      InitPortInfo(StatusDeactivated, false);
      if e == UnknownEvent {
        log := log + [DsDelete];
      }
      log := log + [SmSetPortConfig(params)];
    }

    // iolink_cm_event
    method Event(event: CmEvent)
      requires Known(config) && event != CmNone
      modifies this
      ensures Known(config) && Abs() == CmFire(old(Abs()), event)
    {
      hide CmPerform, CmTable, CmLookup;
      ghost var was := Abs();
      var e := event;
      while e != CmNone
        invariant Known(config)
        invariant e == CmNone ==> Abs() == CmFire(was, event)
        invariant e != CmNone ==> CmFire(Abs(), e) == CmFire(was, event)
        decreases if e == CmNone then 0 else if e in {CfgChange, DsFaultEvent} then 2 else 1
      {
        var next := FindTransition(CmTable(state), e);
        if next.None? {
          CmSafety.CmFireNone(Abs(), e);
          return;
        }
        CmSafety.CmFireOnce(Abs(), e, next.value);
        Descends(Abs(), e, next.value);
        state := next.value.next;
        e := Act(next.value.action, e);
      }
    }

    // One job of the manager.
    method Handle(i: CmInput)
      requires Known(config)
      modifies this
      ensures Known(config) && Abs() == CmStep(old(Abs()), i)
    {
      hide CmFire;
      match i {
        case PortModeInd(m) =>
          if m == SmInactive {
            if info.status != StatusDeactivated {
              info := info.(status := StatusDeactivated);
              log := log + [PortEvent(EVENT_STATUS_CHANGE)];
            }
          } else if EventOf(m) != CmNone {
            Event(EventOf(m));
          }
        case DsReady => Event(DsReadyEvent);
        case DsChange => Event(DsChangeEvent);
        case DsFaultInd(f) =>
          dsFault := f;
          Event(DsFaultEvent);
        case PortConfiguration(c, matches) =>
          requested := c;
          dsMatches := matches;
          Event(CfgChange);
        case DeviceSeen(d) => seen := d;
      }
    }

    // Any series of jobs, from a consistent port: it stays consistent.
    method Serve(ins: seq<CmInput>)
      requires CmSafety.Consistent(Abs())
      modifies this
      ensures CmSafety.Consistent(Abs()) && Abs() == CmRun(old(Abs()), ins)
    {
      hide CmStep, CmSafety.Consistent;
      ghost var was := Abs();
      KnownConfig(was);
      assert ins[..0] == [];
      for k := 0 to |ins|
        invariant Known(config) && Abs() == CmRun(was, ins[..k])
      {
        assert ins[..k + 1][..k] == ins[..k];
        Handle(ins[k]);
      }
      assert ins[..|ins|] == ins;
      CmSafety.RunConsistent(was, ins);
    }
  }

  lemma KnownConfig(s: Cm)
    requires CmSafety.Consistent(s)
    ensures Known(s.config)
  {
  }

  // An event an action asks for asks for nothing more.
  lemma {:induction false} Descends(s: Cm, e: CmEvent, a: CmTransition)
    requires Known(s.config) && CmLookup(CmTable(s.state), e, 0) == Some(a)
    ensures var again := CmPerform(s.(state := a.next), a.action, e).1;
      again == CmNone || (e in {CfgChange, DsFaultEvent} && again !in {CfgChange, DsFaultEvent})
  {
    hide CmLookup;
    CmSafety.CmLookups(s.state, e);
    CmSafety.ActionAsks(s.(state := a.next), a.action, e);
  }
}
