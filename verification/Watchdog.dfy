// Retries and the cycle watchdog: bounds over every run, and what a silent
// device leads to.
module Watchdog {
  import opened Octets
  import opened DlTypes
  import opened LinkLayer
  import opened LinkFrames
  import IM = IsduMachine
  import EM = EventMachine
  import IsduCoding

  // Resends since the retry counter was last zeroed.
  function Resends(log: seq<Act>): (n: nat) {
    if log == [] then 0
    else
      var a := log[|log| - 1];
      if a == RetryCleared then 0
      else Resends(log[..|log| - 1]) + (if a == Resend then 1 else 0)
  }

  // Acts that leave the retry bookkeeping alone.
  predicate Neutral(acts: seq<Act>) {
    forall i :: 0 <= i < |acts| ==> acts[i] != Resend && acts[i] != RetryCleared
  }

  lemma {:induction false} NeutralKeepsCount(log: seq<Act>, acts: seq<Act>)
    requires Neutral(acts)
    ensures Resends(log + acts) == Resends(log)
  {
    if acts == [] {
      assert log + acts == log;
    } else {
      var all := log + acts;
      assert all[..|all| - 1] == log + acts[..|acts| - 1];
      NeutralKeepsCount(log, acts[..|acts| - 1]);
    }
  }

  lemma {:induction false} CountAfter(log: seq<Act>)
    ensures Resends(log + [Resend]) == Resends(log) + 1
    ensures forall rest :: Neutral(rest) ==> Resends(log + [RetryCleared] + rest) == 0
  {
    assert (log + [Resend])[..|log|] == log;
    forall rest | Neutral(rest)
      ensures Resends(log + [RetryCleared] + rest) == 0
    {
      NeutralKeepsCount(log + [RetryCleared], rest);
    }
  }

  // The counter is what it should be, and within its bound.
  ghost predicate Bounded(s: Dl) {
    s.mh.retry == Resends(s.log) && s.mh.retry <= 3
  }

  // A step that touches neither counter nor bookkeeping.
  ghost predicate Same(s: Dl, t: Dl) {
    t.mh.retry == s.mh.retry && Resends(t.log) == Resends(s.log)
  }

  lemma LogSame(s: Dl, acts: seq<Act>)
    requires Neutral(acts)
    ensures Same(s, Log(s, acts))
  {
    NeutralKeepsCount(s.log, acts);
  }

  lemma RequestKeeps(s: Dl, a: Act)
    requires a.OdRequest?
    ensures Request(s, a).mh == s.mh && Request(s, a).log == s.log
  {
  }

  lemma {:induction false} PerformSame(s: Dl, acts: seq<Act>)
    requires Neutral(acts)
    ensures Same(s, Perform(s, acts))
    decreases |acts|
  {
    hide Request, Resends;
    if acts != [] {
      var a := acts[0];
      if a.OdRequest? { RequestKeeps(s, a); }
      var t := if a.OdRequest? then Request(s, a) else s;
      LogSame(t, [a]);
      PerformSame(Log(t, [a]), acts[1..]);
    }
  }

  lemma IsduCallSame(s: Dl)
    ensures Same(s, IsduCall(s))
  {
    hide IM.Step;
    var o := IM.Step(IM.Ctx(s.isdu, s.mh.rw), IsduInput(s));
    IM.StepActs(IM.Ctx(s.isdu, s.mh.rw), IsduInput(s));
    PerformSame(s.(isdu := o.c.h, mh := s.mh.(rw := o.c.rw)), o.acts);
  }

  lemma EvCallSame(s: Dl)
    ensures Same(s, EvCall(s))
  {
    hide EM.Step;
    var i := EvIn(s.od.trigger, s.mh.odLen, s.mode.comLost, s.rx);
    EM.StepActs(s.ev, i);
    PerformSame(s.(ev := EM.Step(s.ev, i).e), EM.Step(s.ev, i).acts);
  }

  lemma CmdCallSame(s: Dl)
    ensures Same(s, CmdCall(s))
  {
    hide Perform, IM.Payload, Resends;
    PerformSame(s, [OdRequest(true, Page, 0, IM.Payload([s.cmd.masterCommand], s.mh.odLen))]);
  }

  lemma ReportSame(s: Dl, status: Status)
    ensures Same(s, ReportMasterCommand(s, status))
  {
    LogSame(s, [DevicemodeCnf(status, s.cmd.masterCommand)]);
  }

  lemma OdCallSame(s: Dl)
    ensures Same(s, OdCall(s))
  {
    hide IsduCall, EvCall, CmdCall, ReportMasterCommand, Resends, IsduInput, EventInput;
    LogSame(s, [IsduTrig(IsduInput(s))]);
    LogSame(s, [EventTrig(EventInput(s))]);
    IsduCallSame(Log(s, [IsduTrig(IsduInput(s))]));
    EvCallSame(Log(s, [EventTrig(EventInput(s))]));
    LogSame(s, [CmdTrig]);
    CmdCallSame(Log(s, [CmdTrig]));
    ReportSame(SetTrigger(s, TrigNone), NoError);
  }

  lemma TriggerSame(s: Dl, t: Trigger)
    ensures Same(s, TriggerOd(s, t))
  {
    hide OdCall;
    OdCallSame(SetTrigger(s, t));
  }

  // ---- the message handler keeps the bound ----

  lemma ExchangeSame(s: Dl)
    ensures Same(s, Exchange(s))
  {
    hide TriggerOd, Message, Resends, IM.At;
    var cks := IM.At(s.rx, s.od.rxLen + s.pd.rxLen);
    var t0 := s.(mh := s.mh.(cks := cks));
    LogSame(t0, [FlagInd(cks >= 0x80)]);
    LogSame(NoteFlag(t0), [ControlInd(cks % 0x80 < 0x40)]);
    var t := NoteReply(s);
    TriggerSame(t, DeviceMessage);
    TriggerSame(TriggerOd(t, DeviceMessage), MasterMessage);
    var u := TriggerOd(TriggerOd(t, DeviceMessage), MasterMessage);
    LogSame(u, [Download(Message(u))]);
  }

  // Zeroing the counter, with one more act after it.
  lemma ClearedBounded(s: Dl, act: Act)
    requires act != Resend && act != RetryCleared
    ensures Bounded(Log(ClearRetry(s), [act])) && Bounded(ClearRetry(s))
  {
    CountAfter(s.log);
    assert Neutral([act]);
    assert s.log + [RetryCleared] + [] == s.log + [RetryCleared];
  }

  lemma LoseLinkBounded(s: Dl)
    ensures Bounded(LoseLink(s))
  {
    CountAfter(s.log);
    assert s.log + [RetryCleared, ComLost] == s.log + [RetryCleared] + [ComLost];
    assert Neutral([ComLost]);
  }

  lemma RetryBounded(s: Dl)
    requires Bounded(s) && s.mh.retry < 3
    ensures Bounded(Retry(s))
  {
    CountAfter(s.log);
  }

  lemma WriteParamBounded(s: Dl)
    ensures Bounded(WriteParam(s))
  {
    hide TriggerOd, Message, Resends;
    var t := TriggerOd(s, MasterMessage);
    ClearedBounded(t, Download(Message(ClearRetry(t))));
  }

  lemma AwReply16Bounded(s: Dl)
    requires Bounded(s)
    ensures Bounded(AwReply16(s))
  {
    hide Exchange, WriteParam, Resends, Retry, LoseLink;
    WriteParamBounded(s);
    ExchangeSame(s);
    LoseLinkBounded(s);
    if s.mh.retry < 3 { RetryBounded(s); }
  }

  lemma FirstMessageBounded(s: Dl)
    ensures Bounded(FirstMessage(s))
  {
    hide TriggerOd, Message, Resends;
    var t := ClearRetry(TriggerOd(s, MasterMessage));
    ClearedBounded(TriggerOd(s, MasterMessage), Transfer(Message(t)));
  }

  lemma GetOd7Bounded(s: Dl)
    ensures Bounded(GetOd7(s))
  {
    hide OdCall, AcyclicMessage, Resends;
    var t := ClearRetry(OdCall(s));
    ClearedBounded(OdCall(s), Transfer(AcyclicMessage(t)));
  }

  lemma Preoperate6Bounded(s: Dl)
    requires Bounded(s)
    ensures Bounded(Preoperate6(s))
  {
    hide AcyclicMessage, Resends;
    LogSame(s, [Transfer(AcyclicMessage(s))]);
    ClearedBounded(s, ComLost);
  }

  lemma AwReply9Bounded(s: Dl)
    requires Bounded(s)
    ensures Bounded(AwReply9(s))
  {
    hide TriggerOd, Resends;
    LogSame(s, [FlagInd(s.mh.cks >= 0x80)]);
    TriggerSame(NoteFlag(s), DeviceMessage);
  }

  lemma ErrorHandling10Bounded(s: Dl)
    requires Bounded(s)
    ensures Bounded(ErrorHandling10(s))
  {
    hide Resends, LoseLink, ReportMasterCommand;
    var t := ReportMasterCommand(s, NoComm);
    LoseLinkBounded(t);
    LoseLinkBounded(Log(t, [PageReadCnf(0, NoComm)]));
    LoseLinkBounded(Log(t, [PageWriteCnf(NoComm)]));
    LoseLinkBounded(Log(t, [ReadParamCnf(0, NoComm)]));
    LoseLinkBounded(Log(t, [WriteParamCnf(NoComm)]));
    CountAfter(s.log);
  }

  lemma Startup2Bounded(s: Dl)
    requires Bounded(s)
    ensures Bounded(Startup2(s))
  {
    hide Resends, AcyclicMessage;
    ClearedBounded(s, Transfer(AcyclicMessage(ClearRetry(s))));
  }

  lemma PageAnswerSame(s: Dl, value: Octet, status: Status)
    ensures Same(s, PageAnswer(s, value, status))
  {
    hide Resends;
    LogSame(s, [PageReadCnf(value, status)]);
    LogSame(s, [PageWriteCnf(status)]);
  }

  lemma AwReply4Bounded(s: Dl)
    requires Bounded(s)
    ensures Bounded(AwReply4(s))
  {
    hide Resends, PageAnswer;
    PageAnswerSame(Mh(s, MhStartup2), IM.At(s.rx, 0), NoError);
  }

  lemma ErrorHandling5Bounded(s: Dl)
    requires Bounded(s)
    ensures Bounded(ErrorHandling5(s))
  {
    hide Resends, PageAnswer;
    var t := s.(mode := s.mode.(comLost := true), link := s.link.(cycleTimer := false));
    LogSame(t, [ComLost]);
    PageAnswerSame(Mh(Log(t, [ComLost]), MhInactive0), 0, NoComm);
    CountAfter(s.log);
  }

  lemma MhCallBounded(s: Dl)
    requires Bounded(s)
    ensures Bounded(MhCall(s))
  {
    hide Resends, Startup2, AwReply4, ErrorHandling5, AwReply9, AwReply16, FirstMessage, GetOd7, Preoperate6, ErrorHandling10;
    AwReply9Bounded(s);
    AwReply16Bounded(s);
    AwReply16Bounded(Mh(s, MhAwReply16));
    FirstMessageBounded(s);
    GetOd7Bounded(s);
    Preoperate6Bounded(s);
    ErrorHandling10Bounded(s);
    Startup2Bounded(s);
    AwReply4Bounded(s);
    AwReply4Bounded(Mh(s, MhAwReply4));
    ErrorHandling5Bounded(s);
  }

  // ---- the mode handler and the services keep it too ----

  lemma ConfBounded(s: Dl, active: bool)
    requires Bounded(s)
    ensures Bounded(ConfHandlers(s, active)) && Bounded(ConfCmd(s, active))
  {
    hide OdCall, IsduCall, EvCall, CmdCall, Resends;
    OdCallSame(s.(od := s.od.(active := active)));
    var t := ConfOd(s, active);
    IsduCallSame(t.(isdu := t.isdu.(active := active)));
    var u := ConfIsdu(t, active);
    EvCallSame(u.(ev := u.ev.(active := active)));
    CmdCallSame(s.(cmd := s.cmd.(active := active)));
  }

  lemma ModeBounded(s: Dl, st: ModeState, m: MhMode)
    requires Bounded(s)
    ensures Bounded(Mode(s, st, m))
  {
    hide Resends;
    LogSame(s, [ModeInd(m)]);
  }

  lemma GotoBounded(s: Dl)
    requires Bounded(s)
    ensures forall m :: Bounded(GotoIdle(s, m))
    ensures Bounded(GotoStartup(s)) && Bounded(GotoOperate(s))
  {
    hide Resends, MhCall, ConfHandlers, ConfCmd, Mode;
    ConfBounded(s, false);
    ConfBounded(ConfHandlers(s, false), false);
    var u := ConfCmd(ConfHandlers(s, false), false);
    MhCallBounded(u.(mh := u.mh.(cmd := MhCmdInactive)));
    var v := ConfMh(u, MhCmdInactive);
    forall m ensures Bounded(GotoIdle(s, m)) {
      ModeBounded(v.(mode := v.mode.(comLost := false)), ModeIdle0, m);
    }
    var w := ConfHandlers(s, false);
    MhCallBounded(w.(mh := w.mh.(cmd := MhCmdStartup)));
    ModeBounded(ConfMh(w, MhCmdStartup), ModeStartup2, MhModeStartup);
    MhCallBounded(s.(mh := s.mh.(cmd := MhCmdOperate)));
    ModeBounded(ConfMh(s, MhCmdOperate), ModeOperate4, MhModeOperate);
  }

  lemma ModeCallBounded(s: Dl, sdci: bool)
    requires Bounded(s)
    ensures Bounded(ModeCall(s, sdci))
  {
    hide Resends, GotoIdle, GotoStartup, GotoOperate, ConfHandlers, ConfCmd, MhCall, Mode;
    GotoBounded(s);
    ConfBounded(s, true);
    ConfBounded(s, false);
    GotoBounded(ConfHandlers(s, true));
    GotoBounded(ConfCmd(s, false));
    MhCallBounded(s.(mh := s.mh.(cmd := MhCmdOperate)));
    var t := ConfHandlers(s, true);
    MhCallBounded(t.(mh := t.mh.(cmd := MhCmdPreoperate)));
    ModeBounded(ConfMh(t, MhCmdPreoperate), ModePreoperate3, MhModePreoperate);
  }

  lemma IsduReqBounded(s: Dl, r: IsduCoding.Request)
    requires Bounded(s) && WellFormedEvent(IsduService(r))
    ensures Bounded(IsduReq(s, r))
  {
    hide Resends, IsduCoding.EncodeRequest, IM.TotalSegments, Zeros;
    LogSame(s, [IsduRejected(NoComm)]);
    LogSame(s, [IsduRejected(ValueOutOfRange)]);
    LogSame(s, [IsduRejected(StateConflict)]);
    LogSame(s, [IsduAccepted]);
  }

  lemma PageReqBounded(s: Dl, write: bool, addr: nat, value: Octet)
    requires Bounded(s)
    ensures Bounded(PageReq(s, write, addr, value))
  {
    hide Resends, Blit;
    forall a: Act | a.PageReadCnf? || a.PageWriteCnf? || a.PageAccepted?
      ensures Same(s, Log(s, [a]))
    {
      LogSame(s, [a]);
    }
  }

  lemma ParamReqBounded(s: Dl, write: bool, addr: nat, value: Octet)
    requires Bounded(s)
    ensures Bounded(ParamReq(s, write, addr, value))
  {
    hide Resends;
    forall st ensures Same(s, Log(s, [WriteParamCnf(st)])) && Same(s, Log(s, [ReadParamCnf(0, st)])) {
      LogSame(s, [WriteParamCnf(st)]);
      LogSame(s, [ReadParamCnf(0, st)]);
    }
  }

  lemma CommandsBounded(s: Dl, code: ControlCode, m: DlMode)
    requires Bounded(s)
    ensures Bounded(ControlReq(s, code)) && Bounded(DevicemodeReq(s, m))
  {
    hide Resends, CmdCall;
    CmdCallSame(s.(cmd := s.cmd.(code := code)));
    LogSame(s, [DevicemodeCnf(StateConflict, MASTERCMD_NONE)]);
    forall c: Octet
      ensures var t := CmdCall(s.(cmd := s.cmd.(masterCommand := c, code := CodeDeviceMode)));
        Same(s, t) && Same(s, Log(t, [DevicemodeCnf(NoError, MASTERCMD_FALLBACK)]))
    {
      CmdCallSame(s.(cmd := s.cmd.(masterCommand := c, code := CodeDeviceMode)));
      LogSame(CmdCall(s.(cmd := s.cmd.(masterCommand := c, code := CodeDeviceMode))), [DevicemodeCnf(NoError, MASTERCMD_FALLBACK)]);
    }
  }

  lemma LinkEventsBounded(s: Dl, rx: seq<Octet>, a: bool, b: bool, c: bool)
    requires Bounded(s)
    ensures Bounded(OnReceived(s, rx)) && Bounded(OnReceiveFailed(s))
    ensures Bounded(OnLineErrors(s, a, b, c)) && Bounded(OnTimer(s))
  {
    hide Resends, MhCall;
    MhCallBounded(SetReady(s.(rx := rx), true));
    MhCallBounded(s.(link := s.link.(rxError := true)));
    MhCallBounded(s.(link := s.link.(rxTimeout := s.link.rxTimeout || a, rxError := s.link.rxError || b, txError := s.link.txError || c)));
    MhCallBounded(s.(link := s.link.(elapsed := true)));
  }

  lemma {:induction false} WakeUpBounded(s: Dl, found: bool, cycle: Octet)
    requires Bounded(s)
    ensures Bounded(OnWakeUp(s, found, cycle))
  {
    hide Resends, ConfCmd, Mode;
    ModeBounded(s.(mode := s.mode.(comLost := false)), ModeIdle0, MhModeInactive);
    var t0 := Mh(s.(link := s.link.(cycByte := cycle)), MhStartup2);
    var t := Log(t0, [PageReadCnf(cycle, NoError)]);
    LogSame(t0, [PageReadCnf(cycle, NoError)]);
    ConfBounded(t, true);
    ModeBounded(ConfCmd(t, true), ModeStartup2, MhModeStartup);
  }

  // Every turn of the link thread and every service keeps counter and bound.
  lemma DispatchBounded(s: Dl, e: Event)
    requires Bounded(s) && WellFormedEvent(e)
    ensures Bounded(Dispatch(s, e))
  {
    hide Resends, MhCall, ModeCall, OnReceived, OnReceiveFailed, OnLineErrors, OnTimer, OnWakeUp,
      IsduReq, PageReq, ParamReq, ControlReq, DevicemodeReq;
    match e {
      case Received(rx) => LinkEventsBounded(s, rx, false, false, false);
      case ReceiveFailed => LinkEventsBounded(s, [], false, false, false);
      case LineErrors(a, b, c) => LinkEventsBounded(s, [], a, b, c);
      case TimerExpired => LinkEventsBounded(s, [], false, false, false);
      case ModeEvent(sdci) => ModeCallBounded(s, sdci);
      case MessageEvent => MhCallBounded(s);
      case WakeUp(found, cycle) => WakeUpBounded(s, found, cycle);
      case ClockTick(now) =>
      case IsduService(r) => IsduReqBounded(s, r);
      case PageService(w, a, v) => PageReqBounded(s, w, a, v);
      case ParamService(w, a, v) => ParamReqBounded(s, w, a, v);
      case ControlService(c) => CommandsBounded(s, c, DlInactive);
      case DevicemodeService(m) => CommandsBounded(s, CodeNone, m);
      case SetModeService(m, t, y, a, b, c) =>
    }
  }

  // Bounded retry: on every run the retry counter is the number of resends
  // since it was last zeroed, and never exceeds three.
  lemma {:induction false} RunBounded(s: Dl, es: seq<Event>)
    requires Bounded(s) && forall e :: e in es ==> WellFormedEvent(e)
    ensures Bounded(Run(s, es))
  {
    hide Dispatch, Resends;
    if es != [] {
      RunBounded(s, es[..|es| - 1]);
      DispatchBounded(Run(s, es[..|es| - 1]), es[|es| - 1]);
    }
  }

  // ---- losing the link ----

  // Waiting for a cyclic reply, with nothing else asked of the handler.
  ghost predicate AwaitingReply(s: Dl) {
    && s.mh.state in {MhResponse15, MhAwReply16}
    && s.mh.cmd !in {MhCmdStartup, MhCmdInactive} && s.mh.rw != RwWriteParam
    && !s.link.dataReady && !s.link.elapsed && !LineFault(s)
  }

  ghost predicate Lost(s: Dl) { s.mh.state == MhInactive0 && s.mode.comLost }

  ghost predicate LinkLost(s: Dl, t: Dl) {
    && Lost(t) && t.mh.rw == RwNone && t.mh.retry == 0
    && t.log == s.log + [RetryCleared, ComLost]
  }

  // A reply that did not come in right.
  predicate Error(e: Event) { e.ReceiveFailed? || (e.LineErrors? && (e.rxTimeout || e.rxError || e.txError)) }

  function Errors(es: seq<Event>): (n: nat) {
    if es == [] then 0 else Errors(es[..|es| - 1]) + (if Error(es[|es| - 1]) then 1 else 0)
  }

  // A reply or an error arms the watchdog.
  predicate Arms(e: Event) { e.Received? || Error(e) }

  // Is it armed after these events, if it was at first?
  predicate ArmedAfter(armed: bool, es: seq<Event>) { armed || exists i :: 0 <= i < |es| && Arms(es[i]) }

  // It expires while armed.
  predicate Expires(armed: bool, es: seq<Event>) {
    exists i :: 0 <= i < |es| && es[i].TimerExpired? && ArmedAfter(armed, es[..i])
  }

  lemma ReplyGoesOn(s: Dl, rx: seq<Octet>)
    requires AwaitingReply(s)
    ensures var t := OnReceived(s, rx); AwaitingReply(t) && t.link.cycleTimer && t.mh.retry == s.mh.retry
  {
    hide TriggerOd, Message, WriteParam, LoseLink, Retry;
    var a := Mh(SetReady(s.(rx := rx), true), MhAwReply16);
    var b := NoteReply(a);
    TriggerFrame(b, DeviceMessage);
    TriggerFrame(TriggerOd(b, DeviceMessage), MasterMessage);
  }

  lemma ErrorGoesOn(s: Dl, e: Event)
    requires AwaitingReply(s) && Error(e)
    ensures var t := Dispatch(s, e);
      && (s.mh.retry < 3 ==> AwaitingReply(t) && t.link.cycleTimer && t.mh.retry == s.mh.retry + 1)
      && (s.mh.retry >= 3 ==> LinkLost(s, t))
  {
    hide Exchange, WriteParam;
  }

  // A silent device: a timer expiry loses the link exactly when the watchdog is
  // armed. Unarmed, no number of expiries changes anything.
  lemma SilentDevice(s: Dl)
    requires AwaitingReply(s)
    ensures s.link.cycleTimer <==> LinkLost(s, OnTimer(s))
    ensures !s.link.cycleTimer ==> OnTimer(s) == s
  {
    hide Exchange, WriteParam, Retry;
  }

  predicate Service(e: Event) { e.IsduService? || e.ParamService? || e.PageService? || e.ControlService? || e.DevicemodeService? }

  // What a service changes that the message handler looks at: the command.
  ghost predicate Untouched(s: Dl, t: Dl) {
    && t.mode == s.mode && t.mh == s.mh.(rw := t.mh.rw) && (t.mh.rw == RwWriteParam ==> s.mh.rw == RwWriteParam)
    && t.link == s.link.(firstRead := t.link.firstRead)
  }

  lemma IsduReqUntouched(s: Dl, r: IsduCoding.Request)
    requires WellFormedEvent(IsduService(r))
    ensures Untouched(s, IsduReq(s, r))
  {
    hide IsduCoding.EncodeRequest, IM.TotalSegments, Zeros;
  }

  lemma PageReqUntouched(s: Dl, write: bool, addr: nat, value: Octet)
    ensures Untouched(s, PageReq(s, write, addr, value))
  {
    hide Blit;
  }

  lemma RequestsGoOn(s: Dl, e: Event)
    requires WellFormedEvent(e) && Regular(e) && (e.IsduService? || e.ParamService? || e.PageService?)
    ensures Untouched(s, Dispatch(s, e))
  {
    hide IsduReq, PageReq;
    match e {
      case IsduService(r) => IsduReqUntouched(s, r);
      case PageService(w, a, v) => PageReqUntouched(s, w, a, v);
      case _ =>
    }
  }

  lemma CmdCallUntouched(s: Dl)
    ensures Untouched(s, CmdCall(s))
  {
    hide CmdCall;
    CmdCallFrame(s);
  }

  lemma CommandsGoOn(s: Dl, e: Event)
    requires e.ControlService? || e.DevicemodeService?
    ensures Untouched(s, Dispatch(s, e))
  {
    hide CmdCall;
    forall cmd
      ensures Untouched(s, CmdCall(s.(cmd := cmd)))
    {
      CmdCallUntouched(s.(cmd := cmd));
    }
  }

  lemma ServiceGoesOn(s: Dl, e: Event)
    requires WellFormedEvent(e) && Regular(e) && Service(e)
    ensures Untouched(s, Dispatch(s, e))
  {
    hide Dispatch;
    if e.ControlService? || e.DevicemodeService? { CommandsGoOn(s, e); } else { RequestsGoOn(s, e); }
  }

  // One event: the link is lost by an expiry while armed or by an error too
  // many, and by nothing else.
  lemma WatchdogStep(s: Dl, e: Event)
    requires AwaitingReply(s) && s.mh.retry <= 3 && WellFormedEvent(e) && Regular(e)
    ensures var t := Dispatch(s, e);
      if (e.TimerExpired? && s.link.cycleTimer) || (Error(e) && s.mh.retry == 3) then Lost(t)
      else
        && AwaitingReply(t) && t.mh.retry == s.mh.retry + (if Error(e) then 1 else 0)
        && (t.link.cycleTimer <==> s.link.cycleTimer || Arms(e))
  {
    hide Exchange, WriteParam, Retry, LoseLink, Dispatch;
    if Error(e) {
      ErrorGoesOn(s, e);
    } else {
      match e {
        case Received(rx) => ReplyGoesOn(s, rx); DispatchReceived(s, rx);
        case TimerExpired => SilentDevice(s); DispatchTimer(s);
        case _ => QuietGoesOn(s, e);
      }
    }
  }

  lemma DispatchReceived(s: Dl, rx: seq<Octet>)
    ensures Dispatch(s, Received(rx)) == OnReceived(s, rx)
  {
    hide OnReceived;
  }

  lemma DispatchTimer(s: Dl)
    ensures Dispatch(s, TimerExpired) == OnTimer(s)
  {
    hide OnTimer;
  }

  lemma QuietGoesOn(s: Dl, e: Event)
    requires AwaitingReply(s) && WellFormedEvent(e) && Regular(e) && !Arms(e) && !e.TimerExpired?
    ensures var t := Dispatch(s, e);
      AwaitingReply(t) && t.mh.retry == s.mh.retry && t.link.cycleTimer == s.link.cycleTimer
  {
    hide Exchange, WriteParam, Retry, LoseLink, IsduReq, PageReq, ParamReq, ControlReq, DevicemodeReq;
    if Service(e) {
      ServiceGoesOn(s, e);
    }
  }

  lemma LostStays(s: Dl, e: Event)
    requires Lost(s) && WellFormedEvent(e) && Regular(e)
    ensures Lost(Dispatch(s, e))
  {
    hide IsduReq, PageReq, ParamReq, ControlReq, DevicemodeReq;
    if Service(e) {
      ServiceGoesOn(s, e);
    }
  }

  lemma ExpiresNext(armed: bool, es: seq<Event>, e: Event)
    ensures Expires(armed, es + [e]) <==> Expires(armed, es) || (e.TimerExpired? && ArmedAfter(armed, es))
    ensures ArmedAfter(armed, es + [e]) <==> ArmedAfter(armed, es) || Arms(e)
  {
    var all := es + [e];
    assert all[|es|] == e && all[..|es|] == es;
    assert forall i :: 0 <= i < |es| ==> all[i] == es[i] && all[..i] == es[..i];
  }

  // The live watchdog. Whatever services, commands, replies and clock ticks come
  // in between, the link is lost exactly by the error that makes four since the
  // counter was last zeroed, good replies between them or not, or by the first
  // expiry after a reply or a resend; until then the handler goes on waiting.
  lemma {:induction false} LostExactly(s: Dl, es: seq<Event>)
    requires AwaitingReply(s) && s.mh.retry <= 3
    requires forall e :: e in es ==> WellFormedEvent(e) && Regular(e)
    ensures var t := Run(s, es);
      && (Lost(t) <==> s.mh.retry + Errors(es) >= 4 || Expires(s.link.cycleTimer, es))
      && (!Lost(t) ==> AwaitingReply(t) && t.mh.retry == s.mh.retry + Errors(es)
                       && (t.link.cycleTimer <==> ArmedAfter(s.link.cycleTimer, es)))
  {
    hide Dispatch, Regular, Arms, Error, ArmedAfter, Expires;
    if es == [] {
      assert !Expires(s.link.cycleTimer, []) && ArmedAfter(s.link.cycleTimer, []) == s.link.cycleTimer by { NoneYet(s.link.cycleTimer); }
    } else {
      var front, last := es[..|es| - 1], es[|es| - 1];
      assert es == front + [last];
      LostExactly(s, front);
      ExpiresNext(s.link.cycleTimer, front, last);
      var before := Run(s, front);
      if Lost(before) {
        LostStays(before, last);
      } else {
        WatchdogStep(before, last);
      }
    }
  }

  lemma NoneYet(armed: bool)
    ensures !Expires(armed, []) && (ArmedAfter(armed, []) <==> armed)
  {
  }

  // A whole OPERATE session: after its first message four errors lose the link,
  // and so does an expiry, the first of which counts at once if the message was
  // not itself sent by the timer; the expiry that sends it disarms the watchdog
  // it has just armed.
  lemma {:induction false} SessionLost(s: Dl, start: Event, es: seq<Event>)
    requires s.mh.state == MhOperate12 && s.mh.cmd == MhCmdOperate && s.mh.rw != RwWriteParam && !LineFault(s)
    requires start.MessageEvent? || (start.TimerExpired? && s.link.cycleTimer)
    requires forall e :: e in es ==> WellFormedEvent(e) && Regular(e)
    ensures var t := Run(Dispatch(s, start), es);
      Lost(t) <==> Errors(es) >= 4 || Expires(start.MessageEvent?, es)
  {
    hide Run;
    FirstMessageOut(s, start);
    LostExactly(Dispatch(s, start), es);
  }

  lemma FirstMessageOut(s: Dl, start: Event)
    requires s.mh.state == MhOperate12 && s.mh.cmd == MhCmdOperate && s.mh.rw != RwWriteParam && !LineFault(s)
    requires start.MessageEvent? || (start.TimerExpired? && s.link.cycleTimer)
    ensures var t := Dispatch(s, start);
      AwaitingReply(t) && t.mh.retry == 0 && t.link.cycleTimer == start.MessageEvent?
  {
    hide TriggerOd, Message;
    TriggerFrame(s, MasterMessage);
    TriggerFrame(s.(link := s.link.(elapsed := true)), MasterMessage);
  }

  // Once the watchdog is armed there is no escape: however the run goes on, the
  // next expiry finds the link lost already or loses it.
  lemma {:induction false} SilenceEndsIt(s: Dl, es: seq<Event>)
    requires AwaitingReply(s) && s.mh.retry <= 3 && ArmedAfter(s.link.cycleTimer, es)
    requires forall e :: e in es ==> WellFormedEvent(e) && Regular(e)
    ensures Lost(Run(s, es + [TimerExpired]))
  {
    hide Run;
    ExpiresNext(s.link.cycleTimer, es, TimerExpired);
    LostExactly(s, es + [TimerExpired]);
  }
}
