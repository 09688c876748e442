// Value types of the data link layer: the handlers' states, the nested records
// of the link structure, and the record of what the layer did.
module DlTypes {
  import opened Octets

  datatype Trigger = TrigNone | DeviceMessage | MasterMessage

  datatype RwCmd = RwNone | RwRead | RwWrite | RwWriteParam | RwReadParam | RwIsduTransport | RwIsduAbort

  datatype Status =
    | NoError | NoComm | StateConflict | Invalid | IsduTimeout
    | ValueOutOfRange | ChecksumError | IllegalService | IsduAborted | ParameterConflict

  datatype Channel = Page | Diagnosis | Isdu

  const FLOWCTRL_START := 0x10
  const FLOWCTRL_IDLE := 0x11
  const FLOWCTRL_ABORT := 0x1F

  // First octet of a master message: direction, channel and address or flow control.
  function MasterControl(write: bool, channel: Channel, ctrl: nat): (o: Octet)
    requires ctrl < 32
  {
    (if write then 0 else 0x80) +
    (match channel case Page => 0x20 case Diagnosis => 0x40 case Isdu => 0x60) + ctrl
  }

  datatype ControlCode = CodeNone | CodeValid | CodeInvalid | CodePdOutValid | CodePdOutInvalid | CodeDeviceMode

  const MASTERCMD_NONE: Octet := 0x00
  const MASTERCMD_FALLBACK: Octet := 0x5A
  const MASTERCMD_STARTUP: Octet := 0x97
  const MASTERCMD_PD_OUT_OP: Octet := 0x98
  const MASTERCMD_OPERATE: Octet := 0x99
  const MASTERCMD_PREOP: Octet := 0x9A

  datatype IsduState = IsduInactive0 | IsduIdle1 | IsduRequest2 | IsduWait3 | IsduError4 | IsduResponse5
  datatype OdState = OdInactive0 | OdIsdu1 | OdCommand2 | OdEvent3
  datatype CmdState = CmdInactive0 | CmdIdle1 | CmdMasterCommand2
  datatype EvState = EvInactive0 | EvIdle1 | EvReadEvent2
  datatype ModeState = ModeIdle0 | ModeEstCom1 | ModeStartup2 | ModePreoperate3 | ModeOperate4
  datatype MhState =
    | MhInactive0 | MhStartup2 | MhResponse3 | MhAwReply4 | MhErrorHandling5 | MhPreoperate6 | MhGetOd7 | MhResponse8 | MhAwReply9
    | MhErrorHandling10 | MhOperate12 | MhResponse15 | MhAwReply16
  datatype MhCmd = MhCmdInactive | MhCmdStartup | MhCmdPreoperate | MhCmdOperate
  datatype DlMode = DlInactive | DlStartup | DlPreoperate | DlOperate
  datatype MhMode = MhModeInactive | MhModeComLost | MhModeStartup | MhModePreoperate | MhModeOperate

  // isdu_h_t. `timer` is 0 when off.
  datatype IsduHandler = IsduHandler(
    state: IsduState,
    active: bool,
    totalLen: Octet,
    currentSeg: Octet,
    totalSeg: Octet,
    data: seq<Octet>,
    timer: nat,
    dirRead: bool)

  // What one call of the ISDU handler looks at.
  datatype IsduIn = IsduIn(
    trigger: Trigger,
    odLen: nat,
    comLost: bool,
    now: nat,
    rx: seq<Octet>,
    addr: nat,
    value: Octet)

  // What one call of the event handler looks at.
  datatype EvIn = EvIn(trigger: Trigger, odLen: nat, comLost: bool, rx: seq<Octet>)

  datatype EventEntry = EventEntry(qualifier: Octet, msb: Octet, lsb: Octet)

  const MAX_EVENTS: nat := 6

  datatype EventHandler = EventHandler(
    state: EvState,
    active: bool,
    flag: bool,
    confirmation: bool,
    addr: nat,
    statusCode: Octet,
    entries: nat,
    cnt: nat,
    current: nat,
    events: seq<EventEntry>)

  datatype OdHandler = OdHandler(
    state: OdState,
    active: bool,
    trigger: Trigger,
    rxLen: nat,
    txLen: nat,
    addr: nat,
    value: Octet,
    outOffset: nat)

  datatype CommandHandler = CommandHandler(state: CmdState, active: bool, code: ControlCode, masterCommand: Octet)

  datatype MessageHandler = MessageHandler(
    state: MhState,
    cmd: MhCmd,
    rw: RwCmd,
    pdRxLen: nat,
    pdTxLen: nat,
    odLen: nat,
    cks: Octet,
    retry: nat)

  datatype ModeHandler = ModeHandler(state: ModeState, dlMode: DlMode, comLost: bool)

  // Lengths the process data handler uses in single (non-interleaved) mode.
  datatype PdLengths = PdLengths(rxLen: nat, txLen: nat)

  // Flags and timers of the link thread. `cycleTimer` is timer_type being
  // TINITCYC; `now` is the clock, in microseconds modulo 2^32. `firstRead` is
  // first_read_min_cycl, and `cycByte` what the transceiver read itself.
  datatype LinkFlags = LinkFlags(
    cycleTimer: bool,
    elapsed: bool,
    dataReady: bool,
    rxError: bool,
    txError: bool,
    rxTimeout: bool,
    now: nat,
    firstRead: bool,
    cycByte: Octet)

  // What the data link layer does, in order. The entries after the blank line
  // are bookkeeping marks; the source has no output there.
  datatype Act =
    | OdRequest(write: bool, channel: Channel, ctrl: nat, payload: seq<Octet>)
    | IsduCnf(data: seq<Octet>, qualifier: nat, status: Status)
    | ReadParamCnf(value: Octet, rstatus: Status)
    | WriteParamCnf(wstatus: Status)
    | DevicemodeCnf(dstatus: Status, command: Octet)
    | EventInd(code: nat, eventQualifier: Octet, eventsLeft: nat)
    | PageReadCnf(page: Octet, pstatus: Status)
    | PageWriteCnf(qstatus: Status)
    | FlagInd(flag: bool)
    | ControlInd(valid: bool)
    | ModeInd(mode: MhMode)
    | Transfer(message: seq<Octet>)
    | Download(next: seq<Octet>)
    | Resend

    | IsduTrig(input: IsduIn)
    | EventTrig(einput: EvIn)
    | CmdTrig
    | PageAccepted
    | IsduAccepted
    | IsduRejected(reason: Status)
    | IsduDropped
    | RetryCleared
    | ComLost
}
