// The data link layer of one port as one state: the handlers' records, the
// transmit and receive buffers and the log of what was done. Each function is
// one handler call of iolink_dl.c; Dispatch is one turn of dl_main or one call
// of a DL service.
module LinkLayer {
  import opened Octets
  import opened DlTypes
  import IsduCoding
  import IM = IsduMachine
  import EM = EventMachine

  const BUFFER_SIZE: nat := 64

  datatype Dl = Dl(
    mode: ModeHandler,
    mh: MessageHandler,
    pd: PdLengths,
    od: OdHandler,
    cmd: CommandHandler,
    isdu: IsduHandler,
    ev: EventHandler,
    link: LinkFlags,
    typeOctet: Octet,
    tx: seq<Octet>,
    rx: seq<Octet>,
    log: seq<Act>)

  function Log(s: Dl, acts: seq<Act>): Dl { s.(log := s.log + acts) }

  // ---- OD_req ----

  // The length a request is made with: a whole segment of a transfer, a single
  // octet written, or nothing.
  function LengthArg(a: Act, odLen: nat): nat
    requires a.OdRequest?
  {
    if a.channel == Isdu && a.ctrl !in {FLOWCTRL_IDLE, FLOWCTRL_ABORT} then odLen
    else if a.write then 1
    else 0
  }

  function Request(s: Dl, a: Act): (t: Dl)
    requires a.OdRequest?
  {
    if LengthArg(a, s.mh.odLen) > 32 || a.ctrl > 31 then s
    else
      var head := Blit(s.tx, 0, [MasterControl(a.write, a.channel, a.ctrl), s.typeOctet]);
      if a.write then
        s.(tx := Blit(head, s.od.outOffset, a.payload), od := s.od.(txLen := s.mh.odLen, rxLen := 0))
      else
        s.(tx := head, od := s.od.(txLen := 0, rxLen := s.mh.odLen))
  }

  // Acts in order: requests change the transmit buffer, all are logged.
  function Perform(s: Dl, acts: seq<Act>): (t: Dl)
    decreases |acts|
  {
    if acts == [] then s
    else
      var a := acts[0];
      Perform(Log(if a.OdRequest? then Request(s, a) else s, [a]), acts[1..])
  }

  // ---- ISDU handler ----

  function IsduInput(s: Dl): IsduIn {
    IsduIn(s.od.trigger, s.mh.odLen, s.mode.comLost, s.link.now, s.rx, s.od.addr, s.od.value)
  }

  function IsduContext(s: Dl): IM.Ctx { IM.Ctx(s.isdu, s.mh.rw) }

  function IsduAfter(s: Dl, o: IM.Out): Dl {
    Perform(s.(isdu := o.c.h, mh := s.mh.(rw := o.c.rw)), o.acts)
  }

  function IsduCall(s: Dl): Dl { IsduAfter(s, IM.Step(IsduContext(s), IsduInput(s))) }

  // ---- command handler ----

  function CmdCall(s: Dl): Dl {
    match s.cmd.state
    case CmdInactive0 => if s.cmd.active then s.(cmd := s.cmd.(state := CmdIdle1)) else s
    case CmdIdle1 =>
      if !s.cmd.active then s.(cmd := s.cmd.(state := CmdInactive0))
      else (match s.cmd.code
        case CodePdOutValid => s.(cmd := s.cmd.(masterCommand := MASTERCMD_PD_OUT_OP, state := CmdMasterCommand2))
        case CodePdOutInvalid => s.(cmd := s.cmd.(masterCommand := MASTERCMD_OPERATE, state := CmdMasterCommand2))
        case CodeDeviceMode => s.(cmd := s.cmd.(state := CmdMasterCommand2))
        case _ => s)
    case CmdMasterCommand2 =>
      var t := Perform(s, [OdRequest(true, Page, 0, IM.Payload([s.cmd.masterCommand], s.mh.odLen))]);
      t.(cmd := t.cmd.(code := CodeNone, state := CmdIdle1))
  }

  // write_master_command
  function ReportMasterCommand(s: Dl, status: Status): Dl {
    var c := s.cmd.masterCommand;
    var t := s.(cmd := s.cmd.(masterCommand := MASTERCMD_NONE));
    if c in {MASTERCMD_OPERATE, MASTERCMD_PREOP, MASTERCMD_FALLBACK} then Log(t, [DevicemodeCnf(status, c)]) else t
  }

  // ---- event handler ----

  function EventInput(s: Dl): EvIn { EvIn(s.od.trigger, s.mh.odLen, s.mode.comLost, s.rx) }

  function EvAfter(s: Dl, o: EM.EvOut): Dl { Perform(s.(ev := o.e), o.acts) }

  function EvCall(s: Dl): Dl { EvAfter(s, EM.Step(s.ev, EventInput(s))) }

  // ---- on-request data handler ----

  function ToIsdu(s: Dl): Dl { IsduCall(Log(s, [IsduTrig(IsduInput(s))])) }
  function ToEvents(s: Dl): Dl { EvCall(Log(s, [EventTrig(EventInput(s))])) }
  function ToCommand(s: Dl): Dl { CmdCall(Log(s, [CmdTrig])) }
  function SetTrigger(s: Dl, t: Trigger): Dl { s.(od := s.od.(trigger := t)) }
  function SetOd(s: Dl, st: OdState): Dl { s.(od := s.od.(state := st)) }

  // A command goes out with the next master message.
  predicate CommandDue(s: Dl) { s.cmd.code != CodeNone && s.od.trigger == MasterMessage }

  function OdIsdu1Call(s: Dl): Dl {
    if !s.od.active then SetOd(s, OdInactive0)
    else if CommandDue(s) then SetOd(ToCommand(s), OdCommand2)
    else if s.ev.flag then SetOd(ToIsdu(s), OdEvent3)
    else if s.od.trigger != TrigNone then SetTrigger(ToIsdu(s), TrigNone)
    else s
  }

  function OdCommand2Call(s: Dl): Dl {
    if !s.od.active then s.(cmd := s.cmd.(state := CmdInactive0))
    else if s.od.trigger != TrigNone then
      var t := SetTrigger(s, TrigNone);
      if s.cmd.code == CodeNone then
        SetOd(ReportMasterCommand(t, NoError), if s.ev.flag then OdEvent3 else OdIsdu1)
      else t
    else s
  }

  function OdEvent3Call(s: Dl): Dl {
    if !s.od.active then SetOd(s, OdInactive0)
    else if CommandDue(s) then SetOd(ToCommand(s), OdCommand2)
    else if !s.ev.flag then SetOd(s, OdIsdu1)
    else if s.od.trigger != TrigNone then SetTrigger(ToEvents(s), TrigNone)
    else s
  }

  // iolink_dl_od_h_sm
  function OdCall(s: Dl): Dl {
    match s.od.state
    case OdInactive0 => if s.od.active then SetOd(s, OdIsdu1) else s
    case OdIsdu1 => OdIsdu1Call(s)
    case OdCommand2 => OdCommand2Call(s)
    case OdEvent3 => OdEvent3Call(s)
  }

  function TriggerOd(s: Dl, t: Trigger): Dl { OdCall(SetTrigger(s, t)) }

  // ---- message handler ----

  function Mh(s: Dl, st: MhState): Dl { s.(mh := s.mh.(state := st)) }

  function Message(s: Dl): seq<Octet> {
    Slice(s.tx, 0, s.od.txLen + s.pd.txLen + 2)
  }

  // A message without process data.
  function AcyclicMessage(s: Dl): seq<Octet> {
    Slice(s.tx, 0, s.od.txLen + 2)
  }

  // start_timer_initcyc, and the 100 ms watchdog: both arm the same timer.
  function ArmTimer(s: Dl): Dl { s.(link := s.link.(cycleTimer := true, elapsed := false)) }

  function ClearRetry(s: Dl): Dl { Log(s.(mh := s.mh.(retry := 0)), [RetryCleared]) }

  function MseqChange(s: Dl): Dl {
    s.(pd := PdLengths(s.mh.pdRxLen, s.mh.pdTxLen), od := s.od.(outOffset := 2 + s.mh.pdTxLen), tx := Zeros(BUFFER_SIZE))
  }

  function DoResend(s: Dl): Dl { Log(s.(mh := s.mh.(retry := s.mh.retry + 1)), [Resend]) }

  // iolink_dl_mh_handle_com_lost
  function LoseLink(s: Dl): Dl {
    Log(s.(mode := s.mode.(comLost := true),
           mh := s.mh.(rw := RwNone, retry := 0, state := MhInactive0),
           link := s.link.(cycleTimer := false, elapsed := false, rxTimeout := false, rxError := false, txError := false)),
        [RetryCleared, ComLost])
  }

  predicate LineFault(s: Dl) { s.link.rxTimeout || s.link.rxError || s.link.txError }

  function Startup2(s: Dl): Dl {
    match s.mh.cmd
    case MhCmdPreoperate => Mh(MseqChange(s), MhPreoperate6)
    case MhCmdOperate => Mh(MseqChange(ArmTimer(s)), MhOperate12)
    case _ =>
      if s.mh.rw in {RwRead, RwWrite} then
        var t := ClearRetry(s);
        Mh(Log(t.(link := t.link.(dataReady := false)), [Transfer(AcyclicMessage(t))]), MhResponse3)
      else s
  }

  // A page access is answered.
  function PageAnswer(s: Dl, value: Octet, status: Status): Dl {
    match s.mh.rw
    case RwRead => Log(s.(mh := s.mh.(rw := RwNone)), [PageReadCnf(value, status)])
    case RwWrite => Log(s.(mh := s.mh.(rw := RwNone)), [PageWriteCnf(status)])
    case _ => s
  }

  function AwReply4(s: Dl): Dl {
    if s.link.dataReady then PageAnswer(Mh(s, MhStartup2), IM.At(s.rx, 0), NoError)
    else if LineFault(s) then Mh(ArmTimer(s), MhErrorHandling5)
    else s
  }

  function ErrorHandling5(s: Dl): Dl {
    if s.mh.retry >= 2 then
      var t := s.(mode := s.mode.(comLost := true), link := s.link.(cycleTimer := false));
      PageAnswer(Mh(Log(t, [ComLost]), MhInactive0), 0, NoComm)
    else if s.link.elapsed && s.link.cycleTimer then Mh(DoResend(s), MhAwReply4)
    else s
  }

  function Preoperate6(s: Dl): Dl {
    if s.mh.cmd == MhCmdOperate then Mh(MseqChange(ArmTimer(s)), MhOperate12)
    else if s.mh.cmd == MhCmdStartup then Mh(MseqChange(s), MhStartup2)
    else if s.mh.cmd == MhCmdInactive then
      Mh(Log(s.(mode := s.mode.(comLost := true)), [Transfer(AcyclicMessage(s))]), MhInactive0)
    else if s.mh.rw in {RwReadParam, RwWriteParam, RwIsduTransport} || s.cmd.masterCommand == MASTERCMD_OPERATE || s.ev.flag then
      ArmTimer(Mh(SetTrigger(ClearRetry(s), MasterMessage), MhGetOd7))
    else s
  }

  function GetOd7(s: Dl): Dl {
    var t := ClearRetry(OdCall(s));
    Mh(Log(t.(link := t.link.(dataReady := false)), [Transfer(AcyclicMessage(t))]), MhResponse8)
  }

  // EventFlag_ind
  function NoteFlag(s: Dl): Dl {
    Log(s.(ev := s.ev.(flag := s.mh.cks >= 0x80)), [FlagInd(s.mh.cks >= 0x80)])
  }

  function AwReply9(s: Dl): Dl {
    if s.link.dataReady then
      var t := TriggerOd(NoteFlag(s), DeviceMessage);
      if t.isdu.state == IsduIdle1 then
        if t.mh.cmd == MhCmdOperate then Mh(ArmTimer(t), MhAwReply16)
        else if !t.ev.flag then Mh(t, MhPreoperate6)
        else t
      else Mh(SetTrigger(ArmTimer(t), MasterMessage), MhGetOd7)
    else if LineFault(s) then Mh(ArmTimer(s), MhErrorHandling10)
    else s
  }

  function ErrorHandling10(s: Dl): Dl {
    if s.mh.retry >= 2 then
      var t := ReportMasterCommand(s, NoComm);
      LoseLink(match t.mh.rw
               case RwRead => Log(t, [PageReadCnf(0, NoComm)])
               case RwWrite => Log(t, [PageWriteCnf(NoComm)])
               case RwReadParam => Log(t, [ReadParamCnf(0, NoComm)])
               case RwWriteParam => Log(t, [WriteParamCnf(NoComm)])
               case _ => t)
    else if s.link.elapsed && s.link.cycleTimer then Mh(DoResend(s), MhAwReply9)
    else s
  }

  // get_pd13 and get_od14: the first message of the cyclic exchange.
  function FirstMessage(s: Dl): Dl {
    var t := ClearRetry(TriggerOd(s, MasterMessage));
    Mh(ArmTimer(Log(t.(link := t.link.(dataReady := false)), [Transfer(Message(t))])), MhResponse15)
  }

  function Operate12(s: Dl): Dl {
    if s.mh.cmd == MhCmdStartup then Mh(MseqChange(s), MhStartup2)
    else if s.mh.cmd == MhCmdInactive then Mh(s.(mode := s.mode.(comLost := true)), MhInactive0)
    else FirstMessage(s)
  }

  // The check octet of the reply: event flag and PD status.
  function NoteReply(s: Dl): Dl {
    var cks := IM.At(s.rx, s.od.rxLen + s.pd.rxLen);
    Log(NoteFlag(s.(mh := s.mh.(cks := cks))), [ControlInd(cks % 0x80 < 0x40)])
  }

  // The next master message goes out.
  function SendNext(s: Dl): Dl {
    var t := ArmTimer(Log(s, [Download(Message(s))]));
    Mh(t.(link := t.link.(dataReady := false)), MhAwReply16)
  }

  // The device's reply, then the next master message.
  function Exchange(s: Dl): Dl {
    SendNext(TriggerOd(TriggerOd(NoteReply(s), DeviceMessage), MasterMessage))
  }

  function Retry(s: Dl): Dl {
    Mh(ArmTimer(DoResend(ClearErrors(s))), MhAwReply16)
  }

  // A parameter write cuts in without waiting for the reply.
  function WriteParam(s: Dl): Dl {
    var t := ClearRetry(TriggerOd(s, MasterMessage));
    Mh(Log(t.(link := t.link.(dataReady := false)), [Download(Message(t))]), MhAwReply9)
  }

  function AwReply16(s: Dl): Dl {
    if s.mh.cmd == MhCmdStartup then Mh(MseqChange(s), MhStartup2)
    else if s.mh.cmd == MhCmdInactive then Mh(s.(mode := s.mode.(comLost := true)), MhInactive0)
    else if s.mh.rw == RwWriteParam then WriteParam(s)
    else if s.link.dataReady then Exchange(s)
    else if LineFault(s) then (if s.mh.retry >= 3 then LoseLink(s) else Retry(s))
    else if s.link.elapsed then LoseLink(s)
    else s
  }

  // iolink_dl_message_h_sm
  function MhCall(s: Dl): Dl {
    match s.mh.state
    case MhInactive0 => s
    case MhStartup2 => Startup2(s)
    case MhResponse3 => AwReply4(Mh(s, MhAwReply4))
    case MhAwReply4 => AwReply4(s)
    case MhErrorHandling5 => ErrorHandling5(s)
    case MhPreoperate6 => Preoperate6(s)
    case MhGetOd7 => GetOd7(s)
    case MhResponse8 => AwReply9(s)
    case MhAwReply9 => AwReply9(s)
    case MhErrorHandling10 => ErrorHandling10(s)
    case MhOperate12 => Operate12(s)
    case MhResponse15 => AwReply16(Mh(s, MhAwReply16))
    case MhAwReply16 => AwReply16(s)
  }

  // ---- mode handler ----

  function ConfOd(s: Dl, active: bool): Dl { OdCall(s.(od := s.od.(active := active))) }
  function ConfIsdu(s: Dl, active: bool): Dl { IsduCall(s.(isdu := s.isdu.(active := active))) }
  function ConfEvents(s: Dl, active: bool): Dl { EvCall(s.(ev := s.ev.(active := active))) }
  function ConfCmd(s: Dl, active: bool): Dl { CmdCall(s.(cmd := s.cmd.(active := active))) }
  function ConfMh(s: Dl, c: MhCmd): Dl { MhCall(s.(mh := s.mh.(cmd := c))) }

  // set_OH_IH_EH_Conf_active
  function ConfHandlers(s: Dl, active: bool): Dl {
    ConfEvents(ConfIsdu(ConfOd(s, active), active), active)
  }

  function Mode(s: Dl, st: ModeState, m: MhMode): Dl {
    Log(s.(mode := s.mode.(state := st)), [ModeInd(m)])
  }

  function GotoOperate(s: Dl): Dl { Mode(ConfMh(s, MhCmdOperate), ModeOperate4, MhModeOperate) }

  function GotoIdle(s: Dl, m: MhMode): Dl {
    var t := ConfMh(ConfCmd(ConfHandlers(s, false), false), MhCmdInactive);
    Mode(t.(mode := t.mode.(comLost := false)), ModeIdle0, m)
  }

  function GotoStartup(s: Dl): Dl {
    Mode(ConfMh(ConfHandlers(s, false), MhCmdStartup), ModeStartup2, MhModeStartup)
  }

  // iolink_dl_mode_h_sm; `sdci` says whether the transceiver starts.
  function ModeCall(s: Dl, sdci: bool): Dl {
    match s.mode.state
    case ModeIdle0 =>
      if s.mode.dlMode == DlStartup && sdci then s.(mode := s.mode.(state := ModeEstCom1)) else s
    case ModeEstCom1 => s
    case ModeStartup2 =>
      (match s.mode.dlMode
       case DlPreoperate => Mode(ConfMh(ConfHandlers(s, true), MhCmdPreoperate), ModePreoperate3, MhModePreoperate)
       case DlOperate => GotoOperate(ConfHandlers(s, true))
       case DlInactive => GotoIdle(s, MhModeInactive)
       case DlStartup => if s.mode.comLost then GotoIdle(s, MhModeComLost) else s)
    case ModePreoperate3 =>
      if s.mode.dlMode == DlStartup then GotoStartup(ConfCmd(s, false))
      else if s.mode.dlMode == DlInactive then ConfMh(s, MhCmdOperate)
      else if s.mode.comLost then GotoIdle(s, MhModeComLost)
      else if s.mode.dlMode == DlOperate then GotoOperate(s)
      else s
    case ModeOperate4 =>
      if s.mode.dlMode == DlStartup then GotoStartup(s)
      else if s.mode.dlMode == DlInactive then GotoIdle(s, MhModeInactive)
      else if s.mode.comLost then GotoIdle(s, MhModeComLost)
      else s
  }

  // ---- services ----

  // DL_ISDUTransport_req
  function IsduReq(s: Dl, r: IsduCoding.Request): Dl
    requires r.index < 0x10000 && |IsduCoding.Address(r)| + |r.data| + 3 <= IsduCoding.ISDU_MAX_SIZE
  {
    if s.mode.state in {ModeIdle0, ModeEstCom1} then Log(s, [IsduRejected(NoComm)])
    else if r.index < 2 then Log(s, [IsduRejected(ValueOutOfRange)])
    else if s.isdu.state != IsduIdle1 then Log(s, [IsduRejected(StateConflict)])
    else
      var e := IsduCoding.EncodeRequest(r);
      Log(s.(isdu := s.isdu.(dirRead := r.read,
                             data := e + Zeros(IsduCoding.ISDU_MAX_SIZE - |e|),
                             totalLen := |e|,
                             totalSeg := IM.TotalSegments(|e|, s.mh.odLen),
                             currentSeg := 0),
             mh := s.mh.(rw := RwIsduTransport)),
          [IsduAccepted])
  }

  const MIN_CYCL := 2

  // DL_Read_req and DL_Write_req; the transceiver has made the first read of
  // the minimum cycle time itself.
  function PageReq(s: Dl, write: bool, addr: nat, value: Octet): Dl {
    var refuse := (st: Status) => Log(s, [if write then PageWriteCnf(st) else PageReadCnf(0, st)]);
    if s.mh.state != MhStartup2 then refuse(StateConflict)
    else if addr > 15 then refuse(ValueOutOfRange)
    else if !write && addr == MIN_CYCL && s.link.firstRead then
      Log(s.(link := s.link.(firstRead := false)), [PageReadCnf(s.link.cycByte, NoError)])
    else
      Log(s.(tx := Blit(s.tx, 0, [MasterControl(write, Page, addr), 0] + (if write then [value] else [])),
             od := s.od.(rxLen := if write then 0 else 1, txLen := if write then 1 else 0),
             mh := s.mh.(rw := if write then RwWrite else RwRead)),
          [PageAccepted])
  }

  // DL_ReadParam_req and DL_WriteParam_req
  function ParamReq(s: Dl, write: bool, addr: nat, value: Octet): Dl {
    var t := s.(mh := s.mh.(rw := if write then RwWriteParam else RwReadParam));
    var refuse := (st: Status) => Log(t, [if write then WriteParamCnf(st) else ReadParamCnf(0, st)]);
    if s.mh.state !in {MhPreoperate6, MhAwReply16} then refuse(StateConflict)
    else if addr > 31 then refuse(ValueOutOfRange)
    else t.(od := t.od.(addr := addr, value := if write then value else t.od.value))
  }

  // DL_Control_req
  function ControlReq(s: Dl, code: ControlCode): Dl {
    if code in {CodeNone, CodeDeviceMode} then s else CmdCall(s.(cmd := s.cmd.(code := code)))
  }

  // DL_Write_Devicemode_req
  function DevicemodeReq(s: Dl, m: DlMode): Dl {
    if s.mode.state == ModeStartup2 then Log(s, [DevicemodeCnf(StateConflict, MASTERCMD_NONE)])
    else
      var c := match m
        case DlInactive => MASTERCMD_FALLBACK
        case DlStartup => MASTERCMD_STARTUP
        case DlPreoperate => MASTERCMD_PREOP
        case DlOperate => MASTERCMD_OPERATE;
      var t := CmdCall(s.(cmd := s.cmd.(masterCommand := c, code := CodeDeviceMode)));
      if s.mode.state == ModePreoperate3 && m == DlInactive then Log(t, [DevicemodeCnf(NoError, MASTERCMD_FALLBACK)]) else t
  }

  // DL_SetMode_req
  function SetModeReq(s: Dl, m: DlMode, mseq: Octet, cycByte: Octet, pdRx: nat, pdTx: nat, odLen: nat): Dl {
    // The M-sequence type's high nibble moves to the top two bits of octet 1.
    var t := s.(mode := s.mode.(dlMode := m), typeOctet := mseq / 16 * 64 % 256, link := s.link.(cycByte := cycByte));
    if m == DlInactive then t else t.(mh := t.mh.(pdRxLen := pdRx, pdTxLen := pdTx, odLen := odLen))
  }

  // ---- dl_main ----

  datatype Event =
    | Received(rx: seq<Octet>)
    | ReceiveFailed
    | LineErrors(rxTimeout: bool, rxError: bool, txError: bool)
    | TimerExpired
    | ModeEvent(sdci: bool)
    | MessageEvent
    | WakeUp(found: bool, cycle: Octet)
    | ClockTick(now: nat)
    | IsduService(request: IsduCoding.Request)
    | PageService(pwrite: bool, page: nat, octet: Octet)
    | ParamService(write: bool, addr: nat, value: Octet)
    | ControlService(code: ControlCode)
    | DevicemodeService(devicemode: DlMode)
    | SetModeService(mode: DlMode, mseq: Octet, cycByte: Octet, pdRxLen: nat, pdTxLen: nat, odLen: nat)

  ghost predicate WellFormedEvent(e: Event) {
    e.IsduService? ==>
      e.request.index < 0x10000 && |IsduCoding.Address(e.request)| + |e.request.data| + 3 <= IsduCoding.ISDU_MAX_SIZE
  }

  function SetReady(s: Dl, b: bool): Dl { s.(link := s.link.(dataReady := b)) }

  function OnReceived(s: Dl, rx: seq<Octet>): Dl {
    SetReady(MhCall(SetReady(s.(rx := rx), true)), false)
  }

  function OnReceiveFailed(s: Dl): Dl {
    var t := MhCall(s.(link := s.link.(rxError := true)));
    t.(link := t.link.(rxError := false))
  }

  function NoteErrors(s: Dl, rxTimeout: bool, rxError: bool, txError: bool): Dl {
    s.(link := s.link.(rxTimeout := s.link.rxTimeout || rxTimeout,
                       rxError := s.link.rxError || rxError,
                       txError := s.link.txError || txError))
  }

  function ClearErrors(s: Dl): Dl { s.(link := s.link.(rxTimeout := false, rxError := false, txError := false)) }

  // iolink_dl_handle_error
  function OnLineErrors(s: Dl, rxTimeout: bool, rxError: bool, txError: bool): Dl {
    var t := NoteErrors(s, rxTimeout, rxError, txError);
    if LineFault(t) then ClearErrors(MhCall(t)) else t
  }

  // iolink_dl_handle_timer_timeout
  function OnTimer(s: Dl): Dl {
    var t :=
      if s.link.cycleTimer then
        var u := MhCall(s.(link := s.link.(elapsed := true)));
        u.(link := u.link.(elapsed := false))
      else s;
    t.(link := t.link.(cycleTimer := false))
  }

  // iolink_dl_wurq_recv, with AW_REPLY_1: the octet the transceiver has read is
  // confirmed though nobody has asked for it.
  function OnWakeUp(s: Dl, found: bool, cycle: Octet): Dl {
    if !found then Mode(s.(mode := s.mode.(comLost := false)), ModeIdle0, MhModeInactive)
    else
      var t := Log(Mh(s.(link := s.link.(cycByte := cycle)), MhStartup2), [PageReadCnf(cycle, NoError)]);
      Mode(ConfCmd(t, true), ModeStartup2, MhModeStartup)
  }

  function Dispatch(s: Dl, e: Event): Dl
    requires WellFormedEvent(e)
  {
    match e
    case Received(rx) => OnReceived(s, rx)
    case ReceiveFailed => OnReceiveFailed(s)
    case LineErrors(a, b, c) => OnLineErrors(s, a, b, c)
    case TimerExpired => OnTimer(s)
    case ModeEvent(sdci) => ModeCall(s, sdci)
    case MessageEvent => MhCall(s)
    case WakeUp(found, cycle) => OnWakeUp(s, found, cycle)
    case ClockTick(now) => s.(link := s.link.(now := now))
    case IsduService(r) => IsduReq(s, r)
    case PageService(w, a, v) => PageReq(s, w, a, v)
    case ParamService(w, a, v) => ParamReq(s, w, a, v)
    case ControlService(c) => ControlReq(s, c)
    case DevicemodeService(m) => DevicemodeReq(s, m)
    case SetModeService(m, t, y, a, b, c) => SetModeReq(s, m, t, y, a, b, c)
  }

  // What happens on the line, and commands: everything but changes of mode and
  // the services that hand the ISDU handler something new to do.
  predicate Cyclic(e: Event) {
    e.Received? || e.ReceiveFailed? || e.LineErrors? || e.TimerExpired? || e.MessageEvent? || e.ClockTick?
    || e.PageService? || e.ControlService? || e.DevicemodeService?
  }

  // No parameter write, no change of mode.
  predicate Regular(e: Event) { Cyclic(e) || e.IsduService? || (e.ParamService? && !e.write) }

  function Run(s: Dl, es: seq<Event>): Dl
    requires forall e :: e in es ==> WellFormedEvent(e)
  {
    if es == [] then s else Dispatch(Run(s, es[..|es| - 1]), es[|es| - 1])
  }
}
