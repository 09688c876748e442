// The configuration manager of one port, section 11.3.2: its transition tables
// and actions as functions, one step per job iolink_cm.c handles.
module CmMachine {
  import opened Octets

  datatype CmState =
    | CheckPortMode | SmStartup | DsParamManager | PortFault | WaitingOnOperate | PortActive | PortDido | PortDeactivated

  datatype CmEvent =
    | CmNone | IolManual | IolAutostart | SmComReady | SmFault | DsReadyEvent | DsFaultEvent | SmOperateEvent | SmComLost
    | DiCq | DoCq | Deactivated | CfgChange | DsChangeEvent | UnknownEvent

  datatype CmAction =
    | Startup | Dido | CheckMode | ComLostAction | ComLostIgnore | CfgChangeIgnore | DsChangeAction | StartDs | DsReadyAction
    | DsReadyIgnore | Operate | Fault | Deactivate

  datatype CmTransition = CmTransition(event: CmEvent, next: CmState, action: CmAction)

  // iolink_cm_fsm
  function CmTable(st: CmState): seq<CmTransition> {
    match st
    case CheckPortMode => [
      CmTransition(IolManual, SmStartup, Startup),
      CmTransition(IolAutostart, SmStartup, Startup),
      CmTransition(DiCq, PortDido, Dido),
      CmTransition(DoCq, PortDido, Dido),
      CmTransition(Deactivated, PortDeactivated, Deactivate),
      CmTransition(UnknownEvent, PortDeactivated, Deactivate),
      CmTransition(CfgChange, CheckPortMode, CheckMode),
      CmTransition(SmComLost, CheckPortMode, ComLostAction)]
    case SmStartup => [
      CmTransition(SmComReady, DsParamManager, StartDs),
      CmTransition(CfgChange, CheckPortMode, CheckMode),
      CmTransition(SmFault, PortFault, Fault),
      CmTransition(SmComLost, CheckPortMode, ComLostAction)]
    case DsParamManager => [
      CmTransition(DsReadyEvent, WaitingOnOperate, DsReadyAction),
      CmTransition(DsChangeEvent, SmStartup, DsChangeAction),
      CmTransition(DsFaultEvent, PortFault, Fault),
      CmTransition(CfgChange, DsParamManager, CfgChangeIgnore),
      CmTransition(SmComLost, DsParamManager, ComLostIgnore)]
    case PortFault => [
      CmTransition(CfgChange, CheckPortMode, CheckMode),
      CmTransition(DsChangeEvent, SmStartup, DsChangeAction),
      CmTransition(SmComLost, CheckPortMode, ComLostAction)]
    case WaitingOnOperate => [
      CmTransition(SmOperateEvent, PortActive, Operate),
      CmTransition(CfgChange, CheckPortMode, CheckMode),
      CmTransition(DsChangeEvent, SmStartup, DsChangeAction),
      CmTransition(SmComLost, CheckPortMode, ComLostAction),
      CmTransition(DsFaultEvent, PortFault, Fault)]
    case PortActive => [
      CmTransition(CfgChange, CheckPortMode, CheckMode),
      CmTransition(DsChangeEvent, SmStartup, DsChangeAction),
      CmTransition(SmComLost, CheckPortMode, ComLostAction),
      CmTransition(DsReadyEvent, PortActive, DsReadyIgnore),
      CmTransition(DsFaultEvent, PortFault, Fault)]
    case PortDido => [CmTransition(CfgChange, CheckPortMode, CheckMode)]
    case PortDeactivated => [CmTransition(CfgChange, CheckPortMode, CheckMode)]
  }

  function CmLookup(t: seq<CmTransition>, e: CmEvent, k: nat): (r: Option<CmTransition>)
    ensures r.Some? ==> r.value in t && r.value.event == e
    decreases |t| - k
  {
    if k >= |t| then None
    else if t[k].event == e then Some(t[k])
    else CmLookup(t, e, k + 1)
  }

  // ---- configurations ----

  const MODE_DEACTIVE: Octet := 0
  const MODE_IOL_MAN: Octet := 1
  const MODE_IOL_AUTO: Octet := 2
  const MODE_DI: Octet := 3
  const MODE_DO: Octet := 4

  // portconfiglist_t, as it arrives: three octets that may hold anything.
  datatype PortConfig = PortConfig(
    mode: Octet, validation: Octet, iq: Octet, cycleTime: Octet, vendorId: nat, deviceId: nat)

  predicate Known(c: PortConfig) { c.mode <= 4 && c.validation <= 4 && c.iq <= 5 }

  datatype Target = CfgCom | AutoCom | TargetInactive | TargetDi | TargetDo

  // portmode_to_target_mode
  function TargetMode(mode: Octet): Target
    requires mode <= 4
  {
    if mode == MODE_IOL_MAN then CfgCom
    else if mode == MODE_IOL_AUTO then AutoCom
    else if mode == MODE_DI then TargetDi
    else if mode == MODE_DO then TargetDo
    else TargetInactive
  }

  datatype Inspection = NoCheck | TypeCompatible | Identical

  // iolink_smp_parameterlist_t
  datatype Params = Params(mode: Target, inspection: Inspection, revision: Octet, cycleTime: Octet, vendorId: nat, deviceId: nat)

  const REV_V10: Octet := 0x10
  const REV_V11: Octet := 0x11

  // portconfiglist_to_parameterlist
  function ParamsOf(c: PortConfig): Params
    requires Known(c)
  {
    var inspection := if c.validation == 0 then NoCheck else if c.validation == 1 then Identical else TypeCompatible;
    var revision := if c.validation == 0 then 0 else if c.validation == 1 then REV_V10 else REV_V11;
    Params(TargetMode(c.mode), inspection, revision, c.cycleTime, c.vendorId, c.deviceId)
  }

  datatype Status = NoDev | StatusDeactivated | PortDiag | PreOp | Op | StatusDi | StatusDo

  // What the device at the port says of itself, read when the port comes up.
  datatype DeviceInfo = DeviceInfo(revision: Octet, rate: nat, vendorId: nat, deviceId: nat, cycleTime: Octet)

  datatype PortInfo = PortInfo(status: Status, device: DeviceInfo, valid: bool)

  datatype DsFault = FaultNone | FaultId | FaultSize | FaultUp | FaultDown | FaultComErr | FaultLock

  const EVENT_NO_DEV := 0x1800
  const EVENT_BAD_DID := 0x1803
  const EVENT_INCON_SIZE := 0x1809
  const EVENT_INCON_ID := 0x180A
  const EVENT_INCON := 0x180B
  const EVENT_STATUS_CHANGE := 0xFF26

  datatype CmAct =
    | DsDelete | DsInit(config: PortConfig) | DsStartup | SmSetPortConfig(params: Params) | SmOperate
    | OdStart | PdStart | OdStop | PdStop
    | PortEvent(code: nat)
    | ConfigAccepted | ConfigRefused

  // iolink_cm_port_t with the port information it reports. `seen` is what the
  // system manager last learnt of the device, `dsMatches` whether the stored
  // parameter set fits the configuration.
  datatype Cm = Cm(
    state: CmState,
    config: PortConfig,
    requested: PortConfig,
    dsFault: DsFault,
    info: PortInfo,
    seen: DeviceInfo,
    dsMatches: bool,
    log: seq<CmAct>)

  function Do(s: Cm, acts: seq<CmAct>): Cm { s.(log := s.log + acts) }

  const NO_DEVICE := DeviceInfo(0, 0, 0, 0, 0)

  // init_port_info
  function InitInfo(s: Cm, status: Status, valid: bool): Cm {
    var cycle := if status == PreOp then s.seen.cycleTime else s.info.device.cycleTime;
    s.(info := PortInfo(status, if status == StatusDeactivated then NO_DEVICE else s.seen.(cycleTime := cycle), valid))
  }

  // set_port_config
  function SetPortConfig(s: Cm, init: bool): Cm
    requires Known(s.config)
  {
    if init then Do(s, [DsInit(s.config), SmSetPortConfig(ParamsOf(s.config))])
    else Do(s, [SmSetPortConfig(ParamsOf(s.config).(mode := CfgCom))])
  }

  // cm_check_mode on a new configuration
  function CheckConfig(s: Cm): (Cm, CmEvent) {
    var c := s.requested;
    var t := Do(s, [PdStop, OdStop]);
    if !Known(c) then (Do(t, [ConfigRefused]), UnknownEvent)
    else
      (Do(t.(config := c), [ConfigAccepted]),
       if c.mode == MODE_DEACTIVE then Deactivated
       else if c.mode == MODE_DI then DiCq
       else if c.mode == MODE_DO then DoCq
       else if c.mode == MODE_IOL_AUTO then IolAutostart
       else IolManual)
  }

  // cm_port_fault
  function PortFaulted(s: Cm, e: CmEvent): (Cm, CmEvent) {
    if e == DsFaultEvent && s.dsFault == FaultComErr then (s, SmComLost)
    else
      var code :=
        if e != DsFaultEvent then EVENT_BAD_DID
        else match s.dsFault
          case FaultId => EVENT_INCON_ID
          case FaultSize => EVENT_INCON_SIZE
          case FaultLock => EVENT_INCON
          case _ => EVENT_BAD_DID;
      (Do(InitInfo(s, PortDiag, false), [PortEvent(code)]), CmNone)
  }

  function CmPerform(s: Cm, a: CmAction, e: CmEvent): (r: (Cm, CmEvent))
    requires Known(s.config)
    ensures Known(r.0.config)
  {
    match a
    case Startup => (SetPortConfig(if e == IolAutostart || !s.dsMatches then Do(s, [DsDelete]) else s, true), CmNone)
    case Dido =>
      var status := if e == DiCq then StatusDi else StatusDo;
      var info := PortInfo(status, DeviceInfo(0, 0, 0, 0, s.info.device.cycleTime), false);
      (SetPortConfig(Do(s.(info := info), [DsDelete]), true), CmNone)
    case CheckMode => CheckConfig(s)
    case ComLostAction => (Do(s.(info := s.info.(status := NoDev)), [PortEvent(EVENT_NO_DEV)]), CmNone)
    case DsChangeAction => (SetPortConfig(s, false), CmNone)
    case StartDs => (Do(InitInfo(s, PreOp, false), [DsStartup]), CmNone)
    case DsReadyAction => (Do(s, [SmOperate]), CmNone)
    case Operate => (Do(InitInfo(s, Op, true), [OdStart, PdStart, PortEvent(EVENT_STATUS_CHANGE)]), CmNone)
    case Fault => PortFaulted(s, e)
    case Deactivate =>
      var t := InitInfo(s, StatusDeactivated, false);
      var u := if e == UnknownEvent then Do(t, [DsDelete]) else t;
      (Do(u, [SmSetPortConfig(Params(TargetMode(s.config.mode), NoCheck, 0, 0, 0, 0))]), CmNone)
    case ComLostIgnore => (s, CmNone)
    case CfgChangeIgnore => (s, CmNone)
    case DsReadyIgnore => (s, CmNone)
  }

  // iolink_cm_event: transitions until an action asks for no more.
  function CmFire(s: Cm, e: CmEvent): (t: Cm)
    requires Known(s.config)
    ensures Known(t.config)
    decreases if e in {CfgChange, DsFaultEvent} then 1 else 0
  {
    var next := CmLookup(CmTable(s.state), e, 0);
    if next.None? then s
    else
      var (t, again) := CmPerform(s.(state := next.value.next), next.value.action, e);
      if again == CmNone then t else CmFire(t, again)
  }

  // How many transitions that takes.
  function CmSteps(s: Cm, e: CmEvent): (n: nat)
    requires Known(s.config)
    decreases if e in {CfgChange, DsFaultEvent} then 1 else 0
  {
    var next := CmLookup(CmTable(s.state), e, 0);
    if next.None? then 0
    else
      var (t, again) := CmPerform(s.(state := next.value.next), next.value.action, e);
      1 + if again == CmNone then 0 else CmSteps(t, again)
  }

  // ---- jobs ----

  datatype SmMode =
    | SmInactive | SmDi | SmDo | SmComReadyInd | SmOperateInd | SmComLostInd
    | SmRevisionFault | SmCompFault | SmSerialFault | SmCycleFault

  datatype CmInput =
    | PortModeInd(mode: SmMode)
    | DsReady
    | DsChange
    | DsFaultInd(fault: DsFault)
    | PortConfiguration(config: PortConfig, dsMatches: bool)
    | DeviceSeen(device: DeviceInfo)

  // cm_sm_port_mode_ind_cb
  function EventOf(m: SmMode): CmEvent {
    match m
    case SmComReadyInd => SmComReady
    case SmOperateInd => SmOperateEvent
    case SmComLostInd => SmComLost
    case SmRevisionFault => SmFault
    case SmCompFault => SmFault
    case SmSerialFault => SmFault
    case SmCycleFault => SmFault
    case _ => CmNone
  }

  function CmStep(s: Cm, i: CmInput): (t: Cm)
    requires Known(s.config)
    ensures Known(t.config)
  {
    match i
    case PortModeInd(m) =>
      if m == SmInactive then
        if s.info.status != StatusDeactivated then
          Do(s.(info := s.info.(status := StatusDeactivated)), [PortEvent(EVENT_STATUS_CHANGE)])
        else s
      else if EventOf(m) == CmNone then s
      else CmFire(s, EventOf(m))
    case DsReady => CmFire(s, DsReadyEvent)
    case DsChange => CmFire(s, DsChangeEvent)
    case DsFaultInd(f) => CmFire(s.(dsFault := f), DsFaultEvent)
    case PortConfiguration(c, matches) => CmFire(s.(requested := c, dsMatches := matches), CfgChange)
    case DeviceSeen(d) => s.(seen := d)
  }

  function CmRun(s: Cm, ins: seq<CmInput>): (t: Cm)
    requires Known(s.config)
    ensures Known(t.config)
  {
    if ins == [] then s else CmStep(CmRun(s, ins[..|ins| - 1]), ins[|ins| - 1])
  }
}
