// The application layer's two state machines, sections 8.3.2.1 (on-request
// data) and 8.3.3.1 (events): one function per job iolink_al.c handles.
module AlMachine {
  import opened Octets
  import opened DlTypes
  import IsduCoding
  import IM = IsduMachine

  datatype AlOdState = OnReqIdle | BuildDlService | AwaitParamCnf | AwaitIsduCnf

  datatype AlOdEvent =
    | NoEvent | ServiceEvent | ArgErr | ParamRead | ParamWrite1 | ParamWrite2 | IsduReadEvent | IsduWriteEvent
    | AbortEvent | RwParam | ReadParamEvent | WriteParamEvent | IsduTransportEvent | AbortPort

  datatype Action =
    Busy | BuildService | SendCnf | SendAbortCnf | SendIsduRead | SendIsduWrite | SendParamRead | SendParamWrite | NextRw

  datatype Transition = Transition(event: AlOdEvent, next: AlOdState, action: Action)

  // iolink_al_od_fsm
  function Table(st: AlOdState): seq<Transition> {
    match st
    case OnReqIdle => [
      Transition(ServiceEvent, BuildDlService, BuildService),
      Transition(AbortPort, OnReqIdle, SendAbortCnf)]
    case BuildDlService => [
      Transition(ArgErr, OnReqIdle, SendCnf),
      Transition(ParamRead, AwaitParamCnf, SendParamRead),
      Transition(ParamWrite1, AwaitParamCnf, SendParamWrite),
      Transition(ParamWrite2, AwaitParamCnf, SendParamWrite),
      Transition(IsduReadEvent, AwaitIsduCnf, SendIsduRead),
      Transition(IsduWriteEvent, AwaitIsduCnf, SendIsduWrite)]
    case AwaitParamCnf => [
      Transition(ServiceEvent, AwaitParamCnf, Busy),
      Transition(AbortEvent, OnReqIdle, SendCnf),
      Transition(RwParam, AwaitParamCnf, NextRw),
      Transition(ReadParamEvent, OnReqIdle, SendCnf),
      Transition(WriteParamEvent, OnReqIdle, SendCnf)]
    case AwaitIsduCnf => [
      Transition(AbortEvent, OnReqIdle, SendCnf),
      Transition(ServiceEvent, AwaitIsduCnf, Busy),
      Transition(IsduTransportEvent, OnReqIdle, SendCnf)]
  }

  // The first transition for an event, from the k-th on.
  function Lookup(t: seq<Transition>, e: AlOdEvent, k: nat): (r: Option<Transition>)
    ensures r.Some? ==> r.value in t && r.value.event == e
    decreases |t| - k
  {
    if k >= |t| then None
    else if t[k].event == e then Some(t[k])
    else Lookup(t, e, k + 1)
  }

  // Whom to call back: a name, and whether it expects a read or a write result.
  datatype Callback = Callback(id: nat, read: bool)

  datatype AlRequest =
    | ReadReq(index: nat, subindex: Octet, readCb: nat)
    | WriteReq(index: nat, subindex: Octet, data: seq<Octet>, writeCb: nat)

  function CallbackOf(r: AlRequest): Callback {
    match r
    case ReadReq(_, _, cb) => Callback(cb, true)
    case WriteReq(_, _, _, cb) => Callback(cb, false)
  }

  const ERR_NONE := 0x0000
  const ERR_APP_DEV := 0x8000
  const ERR_COM := 0x1000
  const ERR_TIMEOUT := 0x1100
  const ERR_CHECKSUM := 0x5600
  const ERR_ILLEGAL := 0x5700
  const ERR_TEMP_UNAVAILABLE := 0x4036

  // What the layer does: calls back, calls the data link layer, or raises an
  // event set.
  datatype AlAct =
    | ReadDone(cb: Callback, data: seq<Octet>, error: nat)
    | WriteDone(cb: Callback, werror: nat)
    | DlReadParam(index: nat)
    | DlWriteParam(windex: nat, value: Octet)
    | DlIsduTransport(request: IsduCoding.Request)
    | AlEventInd(entries: seq<DiagEntry>)

  datatype DiagEntry = DiagEntry(code: nat, qualifier: Octet)

  // al->service
  datatype Service = Service(
    index: nat,
    subindex: Octet,
    read: bool,
    dataWrite: seq<Octet>,
    dataLen: Octet,
    errinfo: Status,
    qualifier: nat,
    cb: Callback,
    job: AlRequest)

  datatype EventState = EventInactive | EventIdle | ReadEventSet | DuEventHandling

  // `halted` is a failed assertion: nothing happens after it.
  datatype Al = Al(
    od: AlOdState,
    service: Service,
    dataRead: seq<Octet>,
    events: EventState,
    eventCnt: nat,
    eventBuf: seq<DiagEntry>,
    halted: bool,
    log: seq<AlAct>)

  function Did(s: Al, a: AlAct): Al { s.(log := s.log + [a]) }

  // al_status_to_errortype
  function StatusError(st: Status): nat {
    match st
    case NoError => ERR_NONE
    case IllegalService => ERR_ILLEGAL
    case Invalid => ERR_COM
    case ChecksumError => ERR_CHECKSUM
    case IsduTimeout => ERR_TIMEOUT
    case _ => ERR_APP_DEV
  }

  // The error code of a negative response: its two octets, if it has two.
  function DeviceError(v: Service, data: seq<Octet>): nat {
    if v.dataLen == 2 then (IM.At(data, 0) as nat) * 256 + IM.At(data, 1) else ERR_APP_DEV
  }

  // al_err_to_errortype
  function ErrorOf(v: Service, data: seq<Octet>, isdu: bool): nat {
    var e :=
      if !isdu then ERR_NONE
      else if v.errinfo == ChecksumError then ERR_CHECKSUM
      else if v.read then
        if v.qualifier == IsduCoding.READ_NEG then DeviceError(v, data)
        else if v.qualifier == IsduCoding.READ_POS then ERR_NONE
        else ERR_APP_DEV
      else
        if v.qualifier == IsduCoding.WRITE_NEG then DeviceError(v, data)
        else if v.qualifier == IsduCoding.NO_SERVICE && v.errinfo == NoError then ERR_COM
        else ERR_NONE;
    if e == ERR_NONE then StatusError(v.errinfo) else e
  }

  // al_od_send_al_cnf
  function Confirmation(v: Service, data: seq<Octet>, e: AlOdEvent): (a: AlAct)
    ensures (a.ReadDone? || a.WriteDone?) && a.cb == v.cb
  {
    match e
    case ReadParamEvent => ReadDone(v.cb, Slice(data, 0, v.dataLen), ErrorOf(v, data, false))
    case WriteParamEvent => WriteDone(v.cb, ErrorOf(v, data, false))
    case IsduTransportEvent =>
      if v.read then ReadDone(v.cb, Slice(data, 0, v.dataLen), ErrorOf(v, data, true)) else WriteDone(v.cb, ErrorOf(v, data, true))
    case _ =>
      if v.read then ReadDone(v.cb, [], ErrorOf(v, data, false)) else WriteDone(v.cb, ErrorOf(v, data, false))
  }

  // al_od_busy
  function Rejection(r: AlRequest): (a: AlAct)
    ensures (a.ReadDone? || a.WriteDone?) && a.cb == CallbackOf(r)
  {
    if r.ReadReq? then ReadDone(CallbackOf(r), [], ERR_TEMP_UNAVAILABLE) else WriteDone(CallbackOf(r), ERR_TEMP_UNAVAILABLE)
  }

  // al_od_isdu_read, al_od_isdu_write, al_od_param_read, al_od_param_write
  function DlRequest(v: Service, a: Action): (d: AlAct)
    ensures !d.ReadDone? && !d.WriteDone?
  {
    match a
    case SendIsduRead => DlIsduTransport(IsduCoding.Request(true, v.index, v.subindex, []))
    case SendIsduWrite => DlIsduTransport(IsduCoding.Request(false, v.index, v.subindex, Slice(v.dataWrite, 0, v.dataLen)))
    case SendParamRead => DlReadParam(v.index)
    case _ => DlWriteParam(v.index, IM.At(v.dataWrite, 0))
  }

  // al_od_build_dl_service
  function Build(s: Al): (Al, AlOdEvent) {
    match s.service.job
    case ReadReq(index, subindex, _) =>
      (s.(service := s.service.(dataLen := 0, index := index, subindex := subindex, read := true, cb := CallbackOf(s.service.job))),
       if index <= 1 then ParamRead else IsduReadEvent)
    case WriteReq(index, subindex, data, _) =>
      var t := s.(service := s.service.(index := index, subindex := subindex, dataLen := |data| % 256, read := false,
                                        dataWrite := data, cb := CallbackOf(s.service.job)));
      if index == 0 then (t.(service := t.service.(errinfo := ParameterConflict)), ArgErr)
      else (t, if index == 1 then ParamWrite1 else IsduWriteEvent)
  }

  function Perform(s: Al, a: Action, e: AlOdEvent): (Al, AlOdEvent) {
    match a
    case BuildService => Build(s)
    case Busy => (Did(s, Rejection(s.service.job)), NoEvent)
    case SendCnf => (Did(s, Confirmation(s.service, s.dataRead, e)), NoEvent)
    case SendAbortCnf => (s, NoEvent)
    case NextRw => (s, NoEvent)
    case _ => (Did(s, DlRequest(s.service, a)), NoEvent)
  }

  // iolink_al_od_event: one transition, and another if its action asks for it.
  function OdFire(s: Al, e: AlOdEvent): (t: Al)
    decreases if s.od == OnReqIdle then 1 else 0
  {
    var next := Lookup(Table(s.od), e, 0);
    if next.None? then s
    else
      var (t, again) := Perform(s.(od := next.value.next), next.value.action, e);
      if again == NoEvent then t else OdFire(t, again)
  }

  // How many transitions that takes.
  function OdSteps(s: Al, e: AlOdEvent): (n: nat)
    decreases if s.od == OnReqIdle then 1 else 0
  {
    var next := Lookup(Table(s.od), e, 0);
    if next.None? then 0
    else
      var (t, again) := Perform(s.(od := next.value.next), next.value.action, e);
      1 + if again == NoEvent then 0 else OdSteps(t, again)
  }

  // ---- jobs, and the part of a confirmation the data link thread does ----

  datatype Input =
    | Request(request: AlRequest)
    | ReadParamCnfJob(value: Octet, rstatus: Status)
    | WriteParamCnfJob(wstatus: Status)
    | IsduIndicated(data: Option<seq<Octet>>, dqualifier: nat, dstatus: Status)
    | IsduCnfJob(qualifier: nat, status: Status)
    | AbortJob
    | EventIndJob(code: nat, equalifier: Octet, left: nat)
    | EventRspJob

  // DL_ISDUTransport_cnf: the response data goes into data_read at once.
  function OnIsduIndicated(s: Al, data: Option<seq<Octet>>, q: nat, st: Status): Al {
    var wanted := if s.service.read then st == NoError else q == IsduCoding.WRITE_NEG;
    if wanted && data.Some? && |data.value| <= IsduCoding.ISDU_MAX_SIZE then
      s.(dataRead := Blit(s.dataRead, 0, data.value), service := s.service.(dataLen := |data.value|))
    else s
  }

  function OnReadParamCnf(s: Al, value: Octet, st: Status): Al {
    var len := s.service.dataLen;
    var t := s.(dataRead := Blit(s.dataRead, len, [value]),
                service := s.service.(dataLen := (len + 1) % 256, errinfo := st));
    OdFire(t, ReadParamEvent)
  }

  function OnAbort(s: Al): Al {
    OdFire(s.(service := s.service.(errinfo := IsduAborted, dataLen := 0)),
           if s.od == OnReqIdle then AbortPort else AbortEvent)
  }

  // iolink_al_event_event
  function EventFire(s: Al, last: bool): Al {
    match s.events
    case EventIdle => EventSet(s, last)
    case ReadEventSet => EventSet(s, last)
    case _ => s
  }

  function EventSet(s: Al, last: bool): Al {
    if last then Did(s.(events := DuEventHandling), AlEventInd(if s.eventCnt <= |s.eventBuf| then s.eventBuf[..s.eventCnt] else s.eventBuf))
    else s.(events := ReadEventSet)
  }

  // al_dl_event_ind_cb
  function OnEventInd(s: Al, v: DiagEntry, left: nat): Al {
    if s.eventCnt >= MAX_EVENTS then s.(halted := true)
    else
      var buf := if s.eventCnt < |s.eventBuf| then s.eventBuf[s.eventCnt := v] else s.eventBuf;
      EventFire(s.(eventBuf := buf, eventCnt := s.eventCnt + 1), left == 0)
  }

  function OnEventRsp(s: Al): Al {
    if s.events == DuEventHandling then s.(events := EventIdle, eventCnt := 0) else s
  }

  function Step(s: Al, i: Input): Al {
    if s.halted then s
    else match i
      case Request(r) => OdFire(s.(service := s.service.(job := r)), ServiceEvent)
      case ReadParamCnfJob(v, st) => OnReadParamCnf(s, v, st)
      case WriteParamCnfJob(st) => OdFire(s.(service := s.service.(errinfo := st)), WriteParamEvent)
      case IsduIndicated(d, q, st) => OnIsduIndicated(s, d, q, st)
      case IsduCnfJob(q, st) => OdFire(s.(service := s.service.(errinfo := st, qualifier := q)), IsduTransportEvent)
      case AbortJob => OnAbort(s)
      case EventIndJob(code, q, left) => OnEventInd(s, DiagEntry(code, q), left)
      case EventRspJob => OnEventRsp(s)
  }

  function Run(s: Al, ins: seq<Input>): Al {
    if ins == [] then s else Step(Run(s, ins[..|ins| - 1]), ins[|ins| - 1])
  }
}
