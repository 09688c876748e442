// From the constructor into OPERATE: the handlers are switched on by then, and
// both a clean and an unclean beginning are reached.
module LinkUp {
  import opened Octets
  import opened DlTypes
  import opened LinkLayer
  import opened LinkFrames
  import opened SessionEntry
  import opened IsduAccounting
  import OdInterleaving
  import Watchdog
  import SharedChannel
  import SharedChannelRuns
  import OdMarks
  import IM = IsduMachine
  import EM = EventMachine
  import IsduCoding

  // ---- every run switches the handlers on before OPERATE ----

  ghost predicate Switched(s: Dl) {
    && (s.mode.state in {ModeStartup2, ModePreoperate3, ModeOperate4} ==> s.cmd.active && s.cmd.state != CmdInactive0)
    && (s.mode.state in {ModePreoperate3, ModeOperate4} ==> s.isdu.active && s.od.active && s.od.state != OdInactive0)
    && (s.mh.state == MhOperate12 ==> s.mh.cmd == MhCmdOperate)
  }

  // Who is on stays on.
  ghost predicate StaysOn(s: Dl, t: Dl) {
    && t.cmd.active == s.cmd.active && t.isdu.active == s.isdu.active && t.od.active == s.od.active && t.mh.cmd == s.mh.cmd
    && (s.od.active && s.od.state != OdInactive0 ==> t.od.state != OdInactive0)
    && (s.od.active && s.cmd.active && s.cmd.state != CmdInactive0 ==> t.cmd.state != CmdInactive0)
  }

  lemma CmdCallOn(s: Dl)
    ensures var t := CmdCall(s);
      && t.cmd.active == s.cmd.active && (s.cmd.active ==> t.cmd.state != CmdInactive0)
      && t.isdu == s.isdu && t.od.active == s.od.active && t.od.state == s.od.state && t.mode == s.mode && t.mh == s.mh
  {
    hide IM.Payload, Perform;
    PerformFrame(s, CommandActs(s));
  }

  lemma PassedOn(s: Dl)
    ensures StaysOn(s, ToIsdu(s)) && StaysOn(s, ToEvents(s)) && StaysOn(s, ToCommand(s))
    ensures ToIsdu(s).od.state == s.od.state && ToEvents(s).od.state == s.od.state && ToCommand(s).od.state == s.od.state
  {
    hide IM.Step, EM.Step, IsduCall, EvCall, CmdCall, IsduInput, EventInput;
    var a := Log(s, [IsduTrig(IsduInput(s))]);
    IsduCallFrame(a);
    IM.StepActs(IM.Ctx(a.isdu, a.mh.rw), IsduInput(a));
    EvCallFrame(Log(s, [EventTrig(EventInput(s))]));
    CmdCallOn(Log(s, [CmdTrig]));
  }

  lemma OdCallOn(s: Dl)
    ensures StaysOn(s, OdCall(s))
  {
    hide ToIsdu, ToEvents, ToCommand, ReportMasterCommand;
    PassedOn(s);
    ReportFrame(SetTrigger(s, TrigNone), NoError);
  }

  lemma TriggerOn(s: Dl, t: Trigger)
    ensures StaysOn(s, TriggerOd(s, t))
  {
    hide OdCall;
    OdCallOn(SetTrigger(s, t));
  }

  lemma ExchangeOn(s: Dl)
    ensures StaysOn(s, Exchange(s)) && Exchange(s).mh.state == MhAwReply16 && Exchange(s).mode == s.mode
  {
    hide TriggerOd, Message, IM.At;
    var n := NoteReply(s);
    TriggerOn(n, DeviceMessage);
    TriggerFrame(n, DeviceMessage);
    TriggerOn(TriggerOd(n, DeviceMessage), MasterMessage);
    TriggerFrame(TriggerOd(n, DeviceMessage), MasterMessage);
  }

  // The message handler's states: none starts an OPERATE session on its own.
  ghost predicate GoesOn(s: Dl, t: Dl) { StaysOn(s, t) && t.mh.state != MhOperate12 }

  lemma FirstMessageOn(s: Dl)
    ensures GoesOn(s, FirstMessage(s)) && GoesOn(s, WriteParam(s))
  {
    hide TriggerOd, Message;
    TriggerOn(s, MasterMessage);
    TriggerFrame(s, MasterMessage);
  }

  lemma AcyclicOn(s: Dl)
    requires s.mh.state in {MhGetOd7, MhResponse8, MhAwReply9}
    ensures GoesOn(s, GetOd7(s)) && GoesOn(s, AwReply9(s))
  {
    hide GetOd7, AwReply9;
    GetOd7On(s);
    AwReply9On(s);
  }

  lemma GetOd7On(s: Dl)
    ensures GoesOn(s, GetOd7(s))
  {
    hide OdCall, AcyclicMessage;
    OdCallOn(s);
    OdCallFrame(s);
  }

  lemma AwReply9On(s: Dl)
    requires s.mh.state in {MhGetOd7, MhResponse8, MhAwReply9}
    ensures GoesOn(s, AwReply9(s))
  {
    hide TriggerOd;
    TriggerOn(NoteFlag(s), DeviceMessage);
    TriggerFrame(NoteFlag(s), DeviceMessage);
  }

  lemma AwReply16On(s: Dl)
    requires s.mh.state == MhAwReply16
    ensures GoesOn(s, AwReply16(s))
  {
    hide WriteParam, Exchange;
    FirstMessageOn(s);
    ExchangeOn(s);
  }

  lemma ErrorHandling10On(s: Dl)
    requires s.mh.state == MhErrorHandling10
    ensures GoesOn(s, ErrorHandling10(s))
  {
    hide ReportMasterCommand;
    ReportFrame(s, NoComm);
  }

  lemma StartupOn(s: Dl)
    requires s.mh.state in STARTUP + {MhInactive0, MhPreoperate6}
    ensures var t := MhCall(s);
      StaysOn(s, t) && (t.mh.state == MhOperate12 ==> s.mh.cmd == MhCmdOperate) && t.cmd == s.cmd
  {
    hide FirstMessage, WriteParam, GetOd7, AwReply9, AwReply16, ErrorHandling10, AcyclicMessage, IM.At;
  }

  lemma MhCallOn(s: Dl)
    ensures var t := MhCall(s);
      && StaysOn(s, t) && (t.mh.state == MhOperate12 ==> s.mh.state == MhOperate12 || s.mh.cmd == MhCmdOperate)
      && (s.mh.state in STARTUP + {MhInactive0} ==> t.cmd == s.cmd)
  {
    hide FirstMessage, WriteParam, GetOd7, AwReply9, AwReply16, ErrorHandling10, Startup2, AwReply4, ErrorHandling5, Preoperate6;
    if s.mh.state in STARTUP + {MhInactive0, MhPreoperate6} {
      StartupOn(s);
    } else {
      match s.mh.state {
        case MhErrorHandling10 => ErrorHandling10On(s);
        case MhOperate12 => FirstMessageOn(s);
        case MhResponse15 => AwReply16On(Mh(s, MhAwReply16));
        case MhAwReply16 => AwReply16On(s);
        case _ => AcyclicOn(s);
      }
    }
  }

  // ---- every event keeps that ----

  lemma ServicesSwitched(s: Dl, e: Event)
    requires Inv(s) && Switched(s) && Allowed(s, e)
    requires e.IsduService? || e.PageService? || e.ParamService? || e.ControlService? || e.DevicemodeService? || e.SetModeService? || e.ClockTick?
    ensures Switched(Dispatch(s, e))
  {
    hide IsduCoding.EncodeRequest, IM.TotalSegments, Zeros, Blit, CmdCall, Kept, Agree;
    forall cmd
      ensures var u := CmdCall(s.(cmd := cmd));
        && u.cmd.active == cmd.active && (cmd.active ==> u.cmd.state != CmdInactive0)
        && u.isdu == s.isdu && u.od.active == s.od.active && u.od.state == s.od.state && u.mode == s.mode && u.mh == s.mh
    {
      CmdCallOn(s.(cmd := cmd));
    }
  }

  lemma MhSwitched(s: Dl, t: Dl)
    requires Inv(s) && Switched(s)
    requires t == MhCall(s).(link := t.link)
    ensures Switched(t)
  {
    hide MhCall, Kept, Agree;
    MhCallOn(s);
    MhCallInv(s);
  }

  lemma LinkSwitched(s: Dl, e: Event)
    requires Inv(s) && Switched(s)
    requires e.Received? || e.ReceiveFailed? || e.LineErrors? || e.TimerExpired? || e.MessageEvent?
    ensures Switched(Dispatch(s, e))
  {
    hide MhCall, Inv, Switched;
    var t := Dispatch(s, e);
    forall link, rx
      ensures Inv(s.(link := link, rx := rx)) && Switched(s.(link := link, rx := rx))
    {
      LinkApart(s, link, rx);
      LinkAlike(s, link, rx);
    }
    match e {
      case Received(rx) => MhSwitched(SetReady(s.(rx := rx), true), t);
      case ReceiveFailed => MhSwitched(s.(link := s.link.(rxError := true)), t);
      case LineErrors(x, y, z) =>
        if LineFault(NoteErrors(s, x, y, z)) { MhSwitched(NoteErrors(s, x, y, z), t); }
      case TimerExpired =>
        if s.link.cycleTimer { MhSwitched(s.(link := s.link.(elapsed := true)), t); }
      case _ => MhSwitched(s, t);
    }
  }

  lemma LinkAlike(s: Dl, link: LinkFlags, rx: seq<Octet>)
    requires Switched(s)
    ensures Switched(s.(link := link, rx := rx))
  {
  }

  // The handlers are switched on.
  lemma SwitchedOn(s: Dl)
    requires Inv(s) && !s.isdu.active && s.mh.odLen >= 1 && s.mh.rw != RwIsduTransport && s.cmd.active && s.cmd.state != CmdInactive0
    ensures var t := ConfHandlers(s, true);
      && t.isdu.active && t.od.active && t.od.state != OdInactive0 && t.cmd.active && t.cmd.state != CmdInactive0
  {
    hide OdCall, IsduCall, EvCall;
    var a := s.(od := s.od.(active := true));
    OdCallOn(a);
    OdOn(a);
    var b := ConfOd(s, true);
    IsduCallFrame(b.(isdu := b.isdu.(active := true)));
    IM.StepActs(IM.Ctx(b.isdu.(active := true), b.mh.rw), IsduInput(b.(isdu := b.isdu.(active := true))));
    var c := ConfIsdu(b, true);
    EvCallFrame(c.(ev := c.ev.(active := true)));
  }

  lemma OdOn(s: Dl)
    requires s.od.active
    ensures OdCall(s).od.state != OdInactive0
    ensures s.cmd.active && s.cmd.state != CmdInactive0 ==> OdCall(s).cmd.active && OdCall(s).cmd.state != CmdInactive0
  {
    hide ToIsdu, ToEvents, ToCommand, ReportMasterCommand;
    PassedOn(s);
    ReportFrame(SetTrigger(s, TrigNone), NoError);
  }

  lemma ModeSwitched(s: Dl, sdci: bool)
    requires Inv(s) && Switched(s)
    ensures Switched(ModeCall(s, sdci))
  {
    hide ConfHandlers, Kept, Agree, MhCall, GotoIdle;
    ModeCallInv(s, sdci);
    if s.mode.comLost {
      PortLost(s);
    } else if s.mode.state == ModeStartup2 && s.mode.dlMode in {DlPreoperate, DlOperate} {
      SwitchOn(s);
      SwitchedOn(s);
      var t := ConfHandlers(s, true);
      MhCallOn(t.(mh := t.mh.(cmd := if s.mode.dlMode == DlPreoperate then MhCmdPreoperate else MhCmdOperate)));
    } else if s.mode.state == ModePreoperate3 && s.mode.dlMode == DlOperate {
      MhCallOn(s.(mh := s.mh.(cmd := MhCmdOperate)));
      MhCallInv(s.(mh := s.mh.(cmd := MhCmdOperate)));
    }
  }

  lemma WakeSwitched(s: Dl, found: bool, cycle: Octet)
    requires Inv(s) && Switched(s) && s.mode.state == ModeEstCom1
    ensures Switched(OnWakeUp(s, found, cycle))
  {
    hide CmdCall, Kept, Agree;
    var t := Log(Mh(s.(link := s.link.(cycByte := cycle)), MhStartup2), [PageReadCnf(cycle, NoError)]);
    CmdCallOn(t.(cmd := t.cmd.(active := true)));
  }

  lemma DispatchSwitched(s: Dl, e: Event)
    requires Inv(s) && Switched(s) && Allowed(s, e)
    ensures Switched(Dispatch(s, e))
  {
    hide Inv, Switched, Allowed, ModeCall, OnWakeUp, Dispatch;
    match e {
      case ModeEvent(sdci) => ModeSwitched(s, sdci); DispatchMode(s, e);
      case WakeUp(found, cycle) => AllowedWake(s, e); WakeSwitched(s, found, cycle); DispatchMode(s, e);
      case Received(_) => LinkSwitched(s, e);
      case ReceiveFailed => LinkSwitched(s, e);
      case LineErrors(_, _, _) => LinkSwitched(s, e);
      case TimerExpired => LinkSwitched(s, e);
      case MessageEvent => LinkSwitched(s, e);
      case _ => ServicesSwitched(s, e);
    }
  }

  lemma AllowedWake(s: Dl, e: Event)
    requires Allowed(s, e) && e.WakeUp?
    ensures s.mode.state == ModeEstCom1
  {
    hide Kept;
  }

  lemma DispatchMode(s: Dl, e: Event)
    ensures e.ModeEvent? ==> Dispatch(s, e) == ModeCall(s, e.sdci)
    ensures e.WakeUp? ==> Dispatch(s, e) == OnWakeUp(s, e.found, e.cycle)
  {
    hide ModeCall, OnWakeUp;
  }

  lemma {:induction false} RunSwitched(s: Dl, es: seq<Event>)
    requires Inv(s) && Switched(s) && AllowedRun(s, es)
    ensures Inv(Run(s, es)) && Switched(Run(s, es))
  {
    hide Dispatch, Inv, Switched, Allowed, AllowedRun;
    AllowedWell(s, es);
    RunKeepsBooks(s, es);
    if es != [] {
      AllowedFront(s, es);
      RunSwitched(s, es[..|es| - 1]);
      RunKeepsBooks(s, es[..|es| - 1]);
      DispatchSwitched(Run(s, es[..|es| - 1]), es[|es| - 1]);
    }
  }

  // On every run, OPERATE is entered with the handlers switched on; so requests
  // and replies stay paired from there, on every further run, if and only if
  // nothing is left over from before.
  lemma {:induction false} OperateEntered(s: Dl, es: seq<Event>)
    requires Inv(s) && Switched(s) && AllowedRun(s, es)
    ensures var t := Run(s, es); t.mh.state == MhOperate12 && t.mh.rw != RwWriteParam ==>
      && Entry(t)
      && ((forall fs: seq<Event> | forall e :: e in fs ==> WellFormedEvent(e) && Regular(e) ::
             OdMarks.Paired(OdMarks.Marks(OdInterleaving.New(t, Run(t, fs)))))
          <==> Clean(t))
  {
    hide Run, Kept, Agree, OdMarks.Marks, OdMarks.Paired;
    RunSwitched(s, es);
    var t := Run(s, es);
    if t.mh.state == MhOperate12 && t.mh.rw != RwWriteParam { SessionStart(t); }
  }

  // ---- both beginnings are reached ----

  // No connection, and none lost either.
  ghost predicate Unplugged(s: Dl) {
    && Inv(s) && Switched(s) && s.mode.state == ModeIdle0
    && !s.od.active && s.od.state == OdInactive0 && s.cmd.code == CodeNone
    && !s.link.dataReady && !s.link.elapsed && !LineFault(s)
  }

  // What start-up leaves alone until the handlers are switched on.
  ghost predicate Rises(s: Dl, t: Dl) {
    && Inv(t) && Switched(t) && t.ev == s.ev && t.isdu == s.isdu && t.cmd.code == s.cmd.code && t.cmd.state == CmdIdle1
    && t.od == s.od.(rxLen := t.od.rxLen, txLen := t.od.txLen)
    && t.link == s.link.(cycByte := t.link.cycByte, firstRead := t.link.firstRead) && !t.mode.comLost
  }

  const PLUG: seq<Event> := [SetModeService(DlStartup, 1, 0, 0, 0, 1), ModeEvent(true), WakeUp(true, 0)]
  const ASK: seq<Event> := [PageService(false, 3, 0), MessageEvent, Received([0, 0])]
  const OPERATE: seq<Event> := [SetModeService(DlOperate, 0x12, 0, 0, 0, 2), ModeEvent(true)]

  // One allowed event more.
  lemma OneMore(s: Dl, es: seq<Event>, e: Event)
    requires AllowedRun(s, es) && Allowed(Run(s, es), e) && Inv(s) && Switched(s)
    ensures AllowedRun(s, es + [e]) && Run(s, es + [e]) == Dispatch(Run(s, es), e)
    ensures Inv(Run(s, es + [e])) && Switched(Run(s, es + [e]))
  {
    hide Dispatch, Inv, Switched;
    var all := es + [e];
    AllowedOne(Run(s, es), e);
    forall k | 0 <= k < |all|
      ensures Allowed(Run(s, all[..k]), all[k])
    {
      if k < |es| { assert all[..k] == es[..k]; } else { assert all[..k] == es; }
    }
    RunAppend(s, es, [e]);
    RunPair(Run(s, es), e, e);
    RunSwitched(s, all);
  }

  lemma AllowedOne(s: Dl, e: Event)
    requires Allowed(s, e)
    ensures WellFormedEvent(e)
  {
    hide Kept;
  }

  lemma NoEvents(s: Dl)
    ensures AllowedRun(s, []) && Run(s, []) == s
  {
  }

  // Where start-up is.
  ghost predicate At(s: Dl, t: Dl, st: MhState, page: PageState) {
    && Rises(s, t) && t.mode.state == ModeStartup2 && t.mode.dlMode == DlStartup && t.mh.state == st
    && t.mh.cmd == MhCmdInactive && Kept(t.log).page == page
  }

  lemma WakesUp(s: Dl, t: Dl)
    requires Unplugged(s)
    requires t == s.(mode := ModeHandler(ModeEstCom1, DlStartup, false), mh := t.mh, link := s.link.(cycByte := 0), typeOctet := t.typeOctet)
    requires t.mh == s.mh.(pdRxLen := t.mh.pdRxLen, pdTxLen := t.mh.pdTxLen, odLen := t.mh.odLen)
    requires Inv(OnWakeUp(t, true, 0)) && Switched(OnWakeUp(t, true, 0))
    ensures At(s, OnWakeUp(t, true, 0), MhStartup2, NoneYet)
  {
    hide Kept, Agree, CmdCall;
    var c := Log(Mh(t.(link := t.link.(cycByte := 0)), MhStartup2), [PageReadCnf(0, NoError)]);
    CmdCallFrame(c.(cmd := c.cmd.(active := true)));
    CodeStays(c.(cmd := c.cmd.(active := true)));
    LogPosts(ConfCmd(c, true), ModeInd(MhModeStartup));
  }

  // The start-up mode is asked for, and the handler sets out to wake the device.
  lemma SetsOut(s: Dl)
    requires Unplugged(s)
    ensures Allowed(s, PLUG[0]) && var a := Dispatch(s, PLUG[0]); Allowed(a, PLUG[1]) && var b := Dispatch(a, PLUG[1]);
      && Allowed(b, PLUG[2]) && Dispatch(b, PLUG[2]) == OnWakeUp(b, true, 0)
      && b == s.(mode := ModeHandler(ModeEstCom1, DlStartup, false), mh := b.mh, link := s.link.(cycByte := 0), typeOctet := b.typeOctet)
      && b.mh == s.mh.(pdRxLen := b.mh.pdRxLen, pdTxLen := b.mh.pdTxLen, odLen := b.mh.odLen)
  {
    hide Kept, Agree, OnWakeUp;
  }

  lemma {:induction false} Plugged(s: Dl)
    requires Unplugged(s)
    ensures AllowedRun(s, PLUG) && At(s, Run(s, PLUG), MhStartup2, NoneYet)
  {
    hide Run, Kept, Agree, AllowedRun, Allowed, Dispatch, OnWakeUp, At;
    SetsOut(s);
    NoEvents(s);
    OneMore(s, [], PLUG[0]);
    assert [] + [PLUG[0]] == [PLUG[0]];
    OneMore(s, [PLUG[0]], PLUG[1]);
    OneMore(s, [PLUG[0]] + [PLUG[1]], PLUG[2]);
    assert [PLUG[0]] + [PLUG[1]] + [PLUG[2]] == PLUG;
    WakesUp(s, Dispatch(Dispatch(s, PLUG[0]), PLUG[1]));
  }

  lemma PageAsked(s: Dl, t: Dl)
    requires At(s, t, MhStartup2, NoneYet) && Inv(Dispatch(t, ASK[0]))
    requires Switched(Dispatch(t, ASK[0]))
    ensures At(s, Dispatch(t, ASK[0]), MhStartup2, Outstanding) && Dispatch(t, ASK[0]).mh.rw == RwRead
  {
    hide Kept, Agree, Blit;
    LogPosts(t, PageAccepted);
  }

  lemma PageSent(s: Dl, t: Dl)
    requires At(s, t, MhStartup2, Outstanding) && t.mh.rw == RwRead && !t.link.dataReady
    requires Inv(Dispatch(t, MessageEvent)) && Switched(Dispatch(t, MessageEvent))
    ensures var u := Dispatch(t, MessageEvent); At(s, u, MhResponse3, Outstanding) && u.mh.rw == RwRead
  {
    hide Kept, Agree, AcyclicMessage;
    LogApart(t, RetryCleared);
    LogApart(ClearRetry(t), Transfer(AcyclicMessage(ClearRetry(t))));
  }

  lemma PageAnswered(s: Dl, t: Dl)
    requires At(s, t, MhResponse3, Outstanding) && t.mh.rw == RwRead && !t.link.dataReady
    requires Inv(Dispatch(t, ASK[2])) && Switched(Dispatch(t, ASK[2]))
    ensures var u := Dispatch(t, ASK[2]); At(s, u, MhStartup2, Answered) && u.mh.rw == RwNone
  {
    hide Kept, Agree;
    LogPosts(t, PageReadCnf(0, NoError));
  }

  // The page access of start-up.
  lemma {:induction false} AskedAndTold(s: Dl, t: Dl)
    requires Unplugged(s) && At(s, t, MhStartup2, NoneYet)
    ensures AllowedRun(t, ASK)
    ensures var u := Run(t, ASK); At(s, u, MhStartup2, Answered) && u.mh.rw == RwNone
  {
    hide Run, Kept, Agree, AllowedRun, Dispatch;
    NoEvents(t);
    assert [] + [ASK[0]] == [ASK[0]] && [ASK[0]] + [ASK[1]] + [ASK[2]] == ASK;
    OneMore(t, [], ASK[0]);
    PageAsked(s, t);
    OneMore(t, [ASK[0]], ASK[1]);
    PageSent(s, Dispatch(t, ASK[0]));
    OneMore(t, [ASK[0]] + [ASK[1]], ASK[2]);
    PageAnswered(s, Dispatch(Dispatch(t, ASK[0]), MessageEvent));
  }

  // The transmit buffer is laid out for OPERATE.
  predicate Laid(s: Dl) { |s.tx| == BUFFER_SIZE && s.od.outOffset == 2 + s.pd.txLen && s.pd.txLen == s.mh.pdTxLen }

  // The handlers are switched on, and the message handler starts the exchange.
  lemma OperateReached(s: Dl, t: Dl)
    requires Rises(s, t) && t.mode.state == ModeStartup2 && t.mode.dlMode == DlOperate && t.mh.state == MhStartup2
    requires !s.od.active && s.od.state == OdInactive0 && s.cmd.code == CodeNone && !s.link.dataReady && !LineFault(s)
    requires t.mh.rw == RwNone && Inv(ModeCall(t, true)) && Switched(ModeCall(t, true))
    ensures var u := ModeCall(t, true);
      && u.mh.state == MhOperate12 && u.mh.rw == RwNone && u.ev.flag == s.ev.flag && u.od.state == OdIsdu1 && u.cmd.code == CodeNone
      && !u.mode.comLost && !u.link.dataReady && !LineFault(u) && u.mh.odLen == t.mh.odLen && u.mh.pdTxLen == t.mh.pdTxLen
      && (t.ev.state == EvInactive0 && !t.ev.confirmation ==> SharedChannel.EventsAtRest(u.ev))
      && u.cmd.state == CmdIdle1 && u.od.addr == s.od.addr && Laid(u)
  {
    hide IsduCall, EvCall, Kept, Agree;
    var a := ConfOd(t, true);
    var b := a.(isdu := a.isdu.(active := true));
    IsduCallFrame(b);
    IM.StepActs(IM.Ctx(b.isdu, b.mh.rw), IsduInput(b));
    var c := ConfIsdu(a, true);
    var d := c.(ev := c.ev.(active := true));
    EvCallFrame(d);
    EM.StepActs(d.ev, EventInput(d));
  }

  const CONNECT: seq<Event> := PLUG + ASK + OPERATE

  lemma {:induction false} JoinRuns(s: Dl, a: seq<Event>, b: seq<Event>)
    requires Inv(s) && Switched(s) && AllowedRun(s, a) && AllowedRun(Run(s, a), b)
    ensures AllowedRun(s, a + b) && Run(s, a + b) == Run(Run(s, a), b)
    decreases |b|
  {
    hide Dispatch, Inv, Switched, Allowed, AllowedRun, Run;
    AllowedWell(s, a);
    AllowedWell(Run(s, a), b);
    if b == [] {
      assert a + b == a;
      NoEvents(Run(s, a));
    } else {
      var front, e := b[..|b| - 1], b[|b| - 1];
      AllowedFront(Run(s, a), b);
      JoinRuns(s, a, front);
      assert a + b == (a + front) + [e];
      OneMore(s, a + front, e);
    }
  }

  lemma AllowedWell(s: Dl, es: seq<Event>)
    requires AllowedRun(s, es)
    ensures forall e :: e in es ==> WellFormedEvent(e)
  {
  }

  lemma {:induction false} AllowedFront(s: Dl, es: seq<Event>)
    requires AllowedRun(s, es) && es != []
    ensures var front, e := es[..|es| - 1], es[|es| - 1];
      AllowedRun(s, front) && Allowed(Run(s, front), e) && Run(s, es) == Dispatch(Run(s, front), e)
  {
    hide Dispatch, Allowed;
    var front := es[..|es| - 1];
    forall k | 0 <= k < |front|
      ensures Allowed(Run(s, front[..k]), front[k])
    {
      assert front[..k] == es[..k];
    }
    assert Allowed(Run(s, es[..|front|]), es[|front|]);
  }

  // A connection, from start-up into OPERATE without PREOPERATE: the event flag
  // is what it was before.
  lemma {:induction false} Connects(s: Dl)
    requires Unplugged(s)
    ensures AllowedRun(s, CONNECT) && Begun(Run(s, CONNECT), s.ev.flag)
    ensures s.ev.state == EvInactive0 && !s.ev.confirmation ==> SharedChannel.EventsAtRest(Run(s, CONNECT).ev)
    ensures Run(s, CONNECT).od.addr == s.od.addr
  {
    hide Run, Kept, Agree, AllowedRun, ModeCall, Inv, Switched, Unplugged;
    Plugged(s);
    var t := Run(s, PLUG);
    AskedAndTold(s, t);
    var u := Run(t, ASK);
    assert Inv(s) && Switched(s) && Inv(u) && Switched(u) by { UnpluggedIs(s); }
    UnpluggedIs(s);
    NoEvents(u);
    OneMore(u, [], OPERATE[0]);
    assert [] + [OPERATE[0]] == [OPERATE[0]] && [OPERATE[0]] + [OPERATE[1]] == OPERATE;
    var v := Dispatch(u, OPERATE[0]);
    OneMore(u, [OPERATE[0]], OPERATE[1]);
    OperateReached(s, v);
    BegunIs(ModeCall(v, true), s.ev.flag);
    JoinRuns(s, PLUG, ASK);
    JoinRuns(s, PLUG + ASK, OPERATE);
  }

  // About to send the first message of a session, from the ISDU handler.
  ghost predicate Begun(s: Dl, flag: bool) {
    && Inv(s) && Switched(s) && Entry(s)
    && s.ev.flag == flag && s.od.state == OdIsdu1 && s.cmd.code == CodeNone && !s.link.dataReady && !LineFault(s)
    && s.mh.odLen == 2 && s.mh.rw == RwNone && s.mh.pdTxLen == 0 && Laid(s) && s.cmd.state == CmdIdle1
  }

  lemma BegunIs(s: Dl, flag: bool)
    requires Inv(s) && Switched(s) && s.mh.state == MhOperate12 && s.mh.rw == RwNone && s.ev.flag == flag && s.od.state == OdIsdu1
    requires s.cmd.code == CodeNone && !s.mode.comLost && !s.link.dataReady && !LineFault(s) && s.mh.odLen == 2
    requires s.mh.pdTxLen == 0 && Laid(s) && s.cmd.state == CmdIdle1
    ensures Begun(s, flag)
  {
    hide Kept, Agree;
  }

  lemma CodeStays(s: Dl)
    requires s.cmd.code == CodeNone
    ensures CmdCall(s).cmd.code == CodeNone && (s.cmd.active ==> CmdCall(s).cmd.state == CmdIdle1)
  {
    hide Perform, IM.Payload;
    PerformFrame(s, CommandActs(s));
  }

  lemma UnpluggedIs(s: Dl)
    requires Unplugged(s)
    ensures Inv(s) && Switched(s) && !s.od.active && s.od.state == OdInactive0 && s.cmd.code == CodeNone
    ensures !s.link.dataReady && !LineFault(s)
  {
    hide Kept, Agree;
  }

  // The port is lost: the event flag stays as it was.
  lemma DropIs(s: Dl)
    requires Inv(s) && s.mode.comLost && s.mode.state in {ModePreoperate3, ModeOperate4}
    requires s.od.state in {OdIsdu1, OdEvent3} && s.cmd.code == CodeNone
    requires !s.link.dataReady && !s.link.elapsed && !LineFault(s)
    requires Inv(ModeCall(s, false)) && Switched(ModeCall(s, false))
    ensures var t := ModeCall(s, false); Unplugged(t) && t.ev.flag == s.ev.flag
  {
    hide ConfHandlers, ConfCmd, Kept, Agree, MhCall;
    PortLost(s);
    HandlersDown(s);
    var a := ConfHandlers(s, false);
    CmdCallFrame(a.(cmd := a.cmd.(active := false)));
    CodeStays(a.(cmd := a.cmd.(active := false)));
    CmdDown(a);
    var b := ConfCmd(a, false);
    StillDown(b.(mh := b.mh.(cmd := MhCmdInactive)));
  }

  lemma HandlersDown(s: Dl)
    requires s.od.state in {OdIsdu1, OdEvent3}
    ensures var t := ConfHandlers(s, false);
      && t.ev.flag == s.ev.flag && t.od.state == OdInactive0 && !t.od.active && t.cmd == s.cmd && t.link == s.link
      && t.mode == s.mode && t.mh == s.mh.(rw := t.mh.rw)
  {
    hide IsduCall, EvCall;
    var a := ConfOd(s, false);
    var b := a.(isdu := a.isdu.(active := false));
    IsduCallFrame(b);
    var c := ConfIsdu(a, false);
    var d := c.(ev := c.ev.(active := false));
    EvCallFrame(d);
    EM.StepActs(d.ev, EventInput(d));
  }

  lemma CmdDown(s: Dl)
    requires s.cmd.code == CodeNone
    ensures var t := ConfCmd(s, false);
      && t.cmd.code == CodeNone && t.ev == s.ev && t.od.state == s.od.state && t.od.active == s.od.active
      && t.link == s.link && t.mode == s.mode && t.mh == s.mh
  {
    hide CmdCall;
    CmdCallFrame(s.(cmd := s.cmd.(active := false)));
    CodeStays(s.(cmd := s.cmd.(active := false)));
  }

  lemma StillDown(s: Dl)
    requires s.mh.state == MhInactive0
    ensures MhCall(s) == s
  {
  }

  function Flagged(s: Dl): Event { Received(Echo(Dispatch(s, MessageEvent), 0x80)) }

  function Drop(s: Dl): seq<Event> { [MessageEvent, Flagged(s), TimerExpired, ModeEvent(false)] }

  // The first message goes out for the ISDU handler.
  lemma FirstOut(s: Dl)
    requires Begun(s, false)
    ensures var t := Dispatch(s, MessageEvent);
      && Watchdog.AwaitingReply(t) && t.link.cycleTimer && t.od.state == OdIsdu1 && t.cmd.code == CodeNone && t.od.active && !t.mode.comLost
      && t.mh.state == MhResponse15 && t.mh.cmd == MhCmdOperate
  {
    hide ToIsdu, Message, Inv, SameSession;
    Watchdog.FirstMessageOut(s, MessageEvent);
    var a := SetTrigger(s, MasterMessage);
    ToIsduIs(a);
    FirstIs(s);
    SameParts(a, ToIsdu(a));
    TriggerFrame(s, MasterMessage);
    ModeIs(s, TriggerOd(s, MasterMessage));
  }

  lemma ModeIs(s: Dl, t: Dl)
    requires SameSession(s, t)
    ensures t.mode == s.mode
  {
  }

  // Its reply reports events, so the event handler is asked next.
  lemma FlagIn(s: Dl)
    requires Watchdog.AwaitingReply(s) && s.od.state == OdIsdu1 && s.cmd.code == CodeNone && s.od.active
    requires s.mh.state == MhResponse15 && s.mh.cmd == MhCmdOperate
    ensures var t := Dispatch(s, Received(Echo(s, 0x80)));
      && Watchdog.AwaitingReply(t) && t.link.cycleTimer && t.od.state == OdEvent3 && t.cmd.code == CodeNone && t.ev.flag && t.mode == s.mode
  {
    hide ToIsdu, ToEvents, NoteReply, Message, Echo, SameSession, Watchdog.AwaitingReply, OnReceived, Dispatch;
    var rx := Echo(s, 0x80);
    assert s.mh.rw != RwWriteParam by { AwaitingIs(s); }
    Watchdog.ReplyGoesOn(s, rx);
    Watchdog.DispatchReceived(s, rx);
    SecondIs(s, 0x80);
    var n := Noted(s, 0x80);
    var a := SetTrigger(n, DeviceMessage);
    ToIsduIs(a);
    SameParts(a, ToIsdu(a));
    var b := SetTrigger(SetOd(ToIsdu(a), OdEvent3), MasterMessage);
    PassedOn(b);
    PassedOnFrame(b);
    EventsKeepCode(b);
    SameParts(b, ToEvents(b));
    ModeIs(a, ToIsdu(a));
    ModeIs(b, ToEvents(b));
    NotedMode(s, 0x80);
  }

  lemma AwaitingIs(s: Dl)
    requires Watchdog.AwaitingReply(s)
    ensures s.mh.rw != RwWriteParam
  {
  }

  lemma NotedMode(s: Dl, o: Octet)
    ensures Noted(s, o).mode == s.mode
  {
  }

  lemma EventsKeepCode(s: Dl)
    ensures ToEvents(s).cmd == s.cmd
  {
    hide EM.Step;
    EvCallFrame(Log(s, [EventTrig(EventInput(s))]));
  }

  lemma Expired(s: Dl)
    requires Watchdog.AwaitingReply(s) && s.link.cycleTimer
    ensures var t := Dispatch(s, TimerExpired);
      && t.mode == s.mode.(comLost := true) && t.ev == s.ev && t.od == s.od && t.cmd == s.cmd
      && !t.link.dataReady && !t.link.elapsed && !LineFault(t)
  {
    hide Exchange, WriteParam, Retry;
  }

  // Events are reported, and the link is lost before they are read.
  lemma {:induction false} Drops(s: Dl)
    requires Begun(s, false)
    ensures AllowedRun(s, Drop(s))
    ensures var t := Run(s, Drop(s)); Unplugged(t) && t.ev.flag
  {
    hide Run, Kept, Agree, AllowedRun, Dispatch, Inv, Switched, Unplugged, Echo, Watchdog.AwaitingReply;
    assert Inv(s) && Switched(s) by { BegunOn(s); }
    var es := Drop(s);
    NoEvents(s);
    assert [] + [es[0]] == [es[0]] && [es[0]] + [es[1]] + [es[2]] + [es[3]] == es;
    OneMore(s, [], es[0]);
    FirstOut(s);
    var a := Dispatch(s, es[0]);
    OneMore(s, [es[0]], es[1]);
    FlagIn(a);
    var b := Dispatch(a, es[1]);
    OneMore(s, [es[0]] + [es[1]], es[2]);
    Expired(b);
    var c := Dispatch(b, es[2]);
    OneMore(s, [es[0]] + [es[1]] + [es[2]], es[3]);
    DispatchMode(c, es[3]);
    assert c.mode.state in {ModePreoperate3, ModeOperate4} by { UpIs(s); FirstMode(s); }
    DropIs(c);
  }

  lemma BegunOn(s: Dl)
    requires Begun(s, false)
    ensures Inv(s) && Switched(s)
  {
    hide Inv, Switched, Entry;
  }

  lemma UpIs(s: Dl)
    requires Begun(s, false)
    ensures s.mode.state in {ModePreoperate3, ModeOperate4}
  {
    hide Kept, Agree;
  }

  lemma FirstMode(s: Dl)
    requires Entry(s) && s.cmd.code == CodeNone
    ensures Dispatch(s, MessageEvent).mode == s.mode
  {
    hide TriggerOd, Message;
    TriggerFrame(s, MasterMessage);
  }

  // Both beginnings are reached by allowed runs from an unplugged port: the
  // first connection begins clean; and after a connection lost just when the
  // device had reported events, the next one does not.
  lemma {:induction false} BothBeginningsReached(s: Dl)
    requires Unplugged(s) && !s.ev.flag
    ensures AllowedRun(s, CONNECT) && Entry(Run(s, CONNECT)) && Clean(Run(s, CONNECT))
    ensures exists es: seq<Event> :: AllowedRun(s, es) && Entry(Run(s, es)) && !Clean(Run(s, es))
  {
    hide Run, AllowedRun, Inv, Switched, Unplugged, Entry;
    Connects(s);
    var a := Run(s, CONNECT);
    BegunEntry(a, false);
    Drops(a);
    var b := Run(a, Drop(a));
    Connects(b);
    BegunEntry(Run(b, CONNECT), true);
    assert Inv(s) && Switched(s) by { UnpluggedIs(s); }
    JoinRuns(s, CONNECT, Drop(a));
    JoinRuns(s, CONNECT + Drop(a), CONNECT);
  }

  lemma BegunEntry(s: Dl, flag: bool)
    requires Begun(s, flag)
    ensures Entry(s) && (Clean(s) <==> !flag) && Inv(s) && Switched(s)
  {
    hide Inv, Switched;
  }

  // From a fresh port, the first connection and its first message lead to a calm
  // session, in which requests can be accepted and events reported.
  lemma {:induction false} CalmReached(s: Dl)
    requires Unplugged(s) && !s.ev.flag && s.ev.state == EvInactive0 && !s.ev.confirmation
    ensures AllowedRun(s, CONNECT + [MessageEvent])
    ensures var t := Run(s, CONNECT + [MessageEvent]);
      && SharedChannelRuns.Calm(t, |Run(s, CONNECT).log|) && SharedChannel.EventsAtRest(t.ev)
      && Inv(t) && Switched(t) && Watchdog.AwaitingReply(t)
  {
    hide Run, AllowedRun, Inv, Switched, Unplugged, Dispatch;
    Connects(s);
    var a := Run(s, CONNECT);
    assert Inv(s) && Switched(s) by { UnpluggedIs(s); }
    OneMore(s, CONNECT, MessageEvent);
    FirstOut(a);
    FirstCalm(a);
  }

  lemma FirstCalm(s: Dl)
    requires Begun(s, false) && SharedChannel.EventsAtRest(s.ev)
    ensures var t := Dispatch(s, MessageEvent); SharedChannelRuns.Calm(t, |s.log|) && SharedChannel.EventsAtRest(t.ev)
  {
    hide ToIsdu, Message, SameSession, OdInterleaving.Session, Inv;
    assert s.isdu.active && s.isdu.state != IsduInactive0 by { ActiveIs(s); }
    CleanBegins(s);
    OdInterleaving.CyclicContinues(s, MessageEvent, |s.log|);
    FirstOut(s);
    FirstIs(s);
    var a := SetTrigger(s, MasterMessage);
    SharedChannelRuns.ToIsduKeeps(a);
    EventsKept(a);
    TriggerFrame(s, MasterMessage);
    RwIs(s, TriggerOd(s, MasterMessage));
    FirstRecord(s);
  }

  lemma ActiveIs(s: Dl)
    requires Begun(s, false)
    ensures s.isdu.active && s.isdu.state != IsduInactive0
  {
    hide Kept, Agree;
  }

  lemma EventsKept(s: Dl)
    ensures ToIsdu(s).ev == s.ev
  {
    hide IM.Step;
    IsduCallFrame(Log(s, [IsduTrig(IsduInput(s))]));
  }

  lemma RwIs(s: Dl, t: Dl)
    requires SameSession(s, t)
    ensures t.mh == s.mh.(rw := t.mh.rw) && t.mh.rw in {s.mh.rw, RwNone}
  {
  }

  lemma FirstRecord(s: Dl)
    requires Entry(s)
    ensures var t := Dispatch(s, MessageEvent); var u := TriggerOd(s, MasterMessage);
      t.isdu == u.isdu && t.mh == u.mh.(state := MhResponse15, retry := 0)
  {
    hide TriggerOd, Message;
  }
}
