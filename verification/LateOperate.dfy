// OPERATE set while an acyclic message is out: the message handler never comes
// to OPERATE_12, and no cyclic message is ever sent.
module LateOperate {
  import opened Octets
  import opened DlTypes
  import opened LinkLayer
  import opened LinkFrames
  import opened Watchdog
  import opened LinkUp
  import IsduAccounting
  import IsduCoding
  import IM = IsduMachine
  import EM = EventMachine

  // ---- when OPERATE_12 is reached ----

  // An acyclic message is to be sent, or out, or to be repeated.
  const ACYCLIC: set<MhState> := {MhGetOd7, MhResponse8, MhAwReply9, MhErrorHandling10}

  // Where the handler can be from there, with OPERATE set.
  const BEYOND: set<MhState> := ACYCLIC + {MhAwReply16, MhInactive0}

  // Between two turns of the link thread.
  ghost predicate Quiet(s: Dl) { !s.link.dataReady && !s.link.elapsed && !LineFault(s) }

  // The mode handler is about to take the port from PREOPERATE to OPERATE.
  ghost predicate AboutToOperate(s: Dl) {
    s.mode.state == ModePreoperate3 && s.mode.dlMode == DlOperate && !s.mode.comLost && Quiet(s)
  }

  // Everything but the mode handler's own events.
  predicate NoModeChange(e: Event) { !e.ModeEvent? && !e.WakeUp? && !e.SetModeService? }

  // The message handler's turns, with OPERATE set, from wherever it can be.
  lemma AcyclicBeyond(s: Dl)
    ensures GetOd7(s).mh == s.mh.(state := MhResponse8, retry := 0, rw := GetOd7(s).mh.rw)
    ensures s.mh.state in ACYCLIC && s.mh.cmd == MhCmdOperate ==>
      AwReply9(s).mh.state in BEYOND && AwReply9(s).mh.cmd == MhCmdOperate
      && ErrorHandling10(s).mh.state in BEYOND && ErrorHandling10(s).mh.cmd == MhCmdOperate
  {
    hide OdCall, TriggerOd, AcyclicMessage, ReportMasterCommand;
    OdCallFrame(s);
    TriggerFrame(NoteFlag(s), DeviceMessage);
    ReportFrame(s, NoComm);
  }

  lemma CyclicBeyond(s: Dl)
    requires s.mh.state == MhAwReply16 && s.mh.cmd == MhCmdOperate
    ensures AwReply16(s).mh.state in BEYOND && AwReply16(s).mh.cmd == MhCmdOperate
  {
    hide TriggerOd, Message, IM.At;
    TriggerFrame(s, MasterMessage);
    var r := NoteReply(s);
    TriggerFrame(r, DeviceMessage);
    TriggerFrame(TriggerOd(r, DeviceMessage), MasterMessage);
  }

  lemma CallBeyond(s: Dl)
    requires s.mh.state in BEYOND && s.mh.cmd == MhCmdOperate
    ensures var t := MhCall(s); t.mh.state in BEYOND && t.mh.cmd == MhCmdOperate
  {
    hide GetOd7, AwReply9, ErrorHandling10, AwReply16;
    AcyclicBeyond(s);
    if s.mh.state == MhAwReply16 { CyclicBeyond(s); }
  }

  lemma StepBeyond(s: Dl, e: Event)
    requires s.mh.state in BEYOND && s.mh.cmd == MhCmdOperate && WellFormedEvent(e) && NoModeChange(e)
    ensures var t := Dispatch(s, e); t.mh.state in BEYOND && t.mh.cmd == MhCmdOperate
  {
    hide MhCall, CmdCall, IsduCoding.EncodeRequest, IM.TotalSegments, Blit, Zeros;
    forall link, rx
      ensures var t := MhCall(s.(link := link, rx := rx)); t.mh.state in BEYOND && t.mh.cmd == MhCmdOperate
    {
      CallBeyond(s.(link := link, rx := rx));
    }
    forall cmd
      ensures CmdCall(s.(cmd := cmd)).mh == s.mh
    {
      CmdCallFrame(s.(cmd := cmd));
    }
  }

  lemma {:induction false} RunBeyond(s: Dl, es: seq<Event>)
    requires s.mh.state in BEYOND && s.mh.cmd == MhCmdOperate && forall e :: e in es ==> WellFormedEvent(e) && NoModeChange(e)
    ensures var t := Run(s, es); t.mh.state in BEYOND && t.mh.cmd == MhCmdOperate
  {
    hide Dispatch, NoModeChange;
    if es != [] {
      RunBeyond(s, es[..|es| - 1]);
      StepBeyond(Run(s, es[..|es| - 1]), es[|es| - 1]);
    }
  }

  // The turn of the mode handler that enters OPERATE takes the message handler
  // to OPERATE_12 if and only if it waits in PREOPERATE_6.
  lemma OperateReachedExactly(s: Dl, sdci: bool)
    requires AboutToOperate(s) && s.mh.state in ACYCLIC + {MhPreoperate6}
    ensures var t := ModeCall(s, sdci);
      && t.mode.state == ModeOperate4 && t.mh.cmd == MhCmdOperate
      && (t.mh.state == MhOperate12 <==> s.mh.state == MhPreoperate6)
      && (s.mh.state in ACYCLIC ==> t.mh.state in BEYOND - {MhAwReply16})
  {
    hide OdCall, AcyclicMessage, ReportMasterCommand;
    var a := s.(mh := s.mh.(cmd := MhCmdOperate));
    OdCallFrame(a);
    ReportFrame(a, NoComm);
  }

  // And if not then, never: no later run comes there before the next change of
  // mode.
  lemma {:induction false} OperateMissed(s: Dl, sdci: bool, es: seq<Event>)
    requires AboutToOperate(s) && s.mh.state in ACYCLIC
    requires forall e :: e in es ==> WellFormedEvent(e) && NoModeChange(e)
    ensures Run(ModeCall(s, sdci), es).mh.state in BEYOND
  {
    hide ModeCall, Run;
    OperateReachedExactly(s, sdci);
    RunBeyond(ModeCall(s, sdci), es);
  }

  // ---- what is sent then ----

  // From s to t no cyclic message is made ready; or nothing is sent at all.
  ghost predicate NoDownload(s: Dl, t: Dl) {
    s.log <= t.log && forall i :: |s.log| <= i < |t.log| ==> !t.log[i].Download?
  }

  ghost predicate Silent(s: Dl, t: Dl) {
    s.log <= t.log && forall i :: |s.log| <= i < |t.log| ==> !t.log[i].Download? && !t.log[i].Transfer? && t.log[i] != Resend
  }

  lemma PassedOnSilent(s: Dl)
    ensures Silent(s, ToIsdu(s)) && Silent(s, ToEvents(s)) && Silent(s, ToCommand(s))
  {
    hide IM.Step, EM.Step, IsduCall, EvCall, CmdCall, IsduInput, EventInput;
    var a := Log(s, [IsduTrig(IsduInput(s))]);
    IsduCallFrame(a);
    IM.StepActs(IM.Ctx(a.isdu, a.mh.rw), IsduInput(a));
    var b := Log(s, [EventTrig(EventInput(s))]);
    EvCallFrame(b);
    EM.StepActs(b.ev, EventInput(b));
    CmdCallFrame(Log(s, [CmdTrig]));
  }

  lemma OdSilent(s: Dl)
    ensures Silent(s, OdCall(s))
  {
    hide ToIsdu, ToEvents, ToCommand, ReportMasterCommand;
    PassedOnSilent(s);
    ReportFrame(SetTrigger(s, TrigNone), NoError);
  }

  lemma AcyclicSends(s: Dl)
    requires s.mh.state in ACYCLIC
    ensures NoDownload(s, GetOd7(s)) && NoDownload(s, ErrorHandling10(s)) && Silent(s, AwReply9(s))
  {
    hide OdCall, AcyclicMessage, ReportMasterCommand;
    OdSilent(s);
    OdSilent(SetTrigger(NoteFlag(s), DeviceMessage));
    ReportFrame(s, NoComm);
  }

  // A turn of the message handler makes a cyclic message ready only with a reply
  // to a cyclic one, or for a parameter write.
  lemma CallSends(s: Dl)
    requires s.mh.state in BEYOND && s.mh.cmd == MhCmdOperate
    requires s.mh.state == MhAwReply16 ==> s.mh.rw != RwWriteParam && !s.link.dataReady
    ensures NoDownload(s, MhCall(s))
  {
    hide GetOd7, AwReply9, ErrorHandling10, Exchange, WriteParam;
    if s.mh.state in ACYCLIC { AcyclicSends(s); }
  }

  lemma ServiceSends(s: Dl, e: Event)
    requires WellFormedEvent(e) && Service(e)
    ensures NoDownload(s, Dispatch(s, e))
  {
    hide CmdCall, IsduCoding.EncodeRequest, IM.TotalSegments, Blit, Zeros, IM.Payload;
    forall cmd
      ensures NoDownload(s, CmdCall(s.(cmd := cmd)))
    {
      CmdCallFrame(s.(cmd := cmd));
    }
  }

  lemma StepSends(s: Dl, e: Event)
    requires s.mh.state in BEYOND && s.mh.cmd == MhCmdOperate && WellFormedEvent(e) && NoModeChange(e) && !s.link.dataReady
    requires s.mh.state == MhAwReply16 ==> s.mh.rw != RwWriteParam && !e.Received?
    ensures NoDownload(s, Dispatch(s, e))
  {
    hide MhCall, CmdCall;
    if Service(e) {
      ServiceSends(s, e);
    } else {
      forall link: LinkFlags, rx | s.mh.state == MhAwReply16 ==> !link.dataReady
        ensures NoDownload(s, MhCall(s.(link := link, rx := rx)))
      {
        CallSends(s.(link := link, rx := rx));
      }
    }
  }

  // Between turns nothing is pending on the link.
  ghost predicate Stiller(s: Dl, t: Dl) {
    && (t.link.dataReady ==> s.link.dataReady) && (t.link.elapsed ==> s.link.elapsed)
    && (t.link.rxTimeout ==> s.link.rxTimeout) && (t.link.rxError ==> s.link.rxError) && (t.link.txError ==> s.link.txError)
  }

  lemma AcyclicStiller(s: Dl)
    ensures Stiller(s, GetOd7(s)) && Stiller(s, AwReply9(s)) && Stiller(s, ErrorHandling10(s))
  {
    hide OdCall, TriggerOd, AcyclicMessage, ReportMasterCommand;
    OdCallFrame(s);
    TriggerFrame(NoteFlag(s), DeviceMessage);
    ReportFrame(s, NoComm);
  }

  lemma CyclicStiller(s: Dl)
    ensures Stiller(s, AwReply16(s))
  {
    hide TriggerOd, Message, IM.At;
    TriggerFrame(s, MasterMessage);
    var r := NoteReply(s);
    TriggerFrame(r, DeviceMessage);
    TriggerFrame(TriggerOd(r, DeviceMessage), MasterMessage);
  }

  lemma CallStiller(s: Dl)
    requires s.mh.state in BEYOND
    ensures Stiller(s, MhCall(s))
  {
    hide GetOd7, AwReply9, ErrorHandling10, AwReply16, Startup2, AwReply4, ErrorHandling5, Preoperate6, Operate12;
    AcyclicStiller(s);
    CyclicStiller(s);
  }

  lemma QuietKept(s: Dl, e: Event)
    requires s.mh.state in BEYOND && Quiet(s) && WellFormedEvent(e) && Regular(e)
    ensures Quiet(Dispatch(s, e))
  {
    hide MhCall, CmdCall, IsduReq, PageReq, ParamReq, ControlReq, DevicemodeReq;
    if Service(e) {
      ServiceGoesOn(s, e);
    } else {
      forall link: LinkFlags, rx
        ensures var a := s.(link := link, rx := rx); Stiller(a, MhCall(a))
      {
        CallStiller(s.(link := link, rx := rx));
      }
    }
  }

  // ---- no session ----

  lemma DownloadsJoined(s: Dl, t: Dl, u: Dl)
    requires NoDownload(s, t) && NoDownload(t, u)
    ensures NoDownload(s, u)
  {
  }

  lemma ModeTurnSends(s: Dl, sdci: bool)
    requires AboutToOperate(s) && s.mh.state in ACYCLIC
    ensures var t := ModeCall(s, sdci); NoDownload(s, t) && Quiet(t)
  {
    hide MhCall;
    var a := s.(mh := s.mh.(cmd := MhCmdOperate));
    CallSends(a);
    CallStiller(a);
  }

  lemma ModeTurnBounded(s: Dl, sdci: bool)
    requires Bounded(s)
    ensures Bounded(ModeCall(s, sdci))
  {
    ModeCallBounded(s, sdci);
  }

  // Where the handler still is with its acyclic messages.
  ghost predicate StillAcyclic(s: Dl, es: seq<Event>)
    requires forall e :: e in es ==> WellFormedEvent(e)
  {
    forall k :: 0 <= k <= |es| ==> Run(s, es[..k]).mh.state in ACYCLIC
  }

  lemma {:induction false} AcyclicRun(s: Dl, es: seq<Event>)
    requires Quiet(s) && Bounded(s) && s.mh.cmd == MhCmdOperate
    requires (forall e :: e in es ==> WellFormedEvent(e) && Regular(e)) && StillAcyclic(s, es)
    ensures var t := Run(s, es); NoDownload(s, t) && Quiet(t) && Bounded(t) && t.mh.cmd == MhCmdOperate && t.mh.state in ACYCLIC
  {
    hide Dispatch, Quiet, Bounded, Regular;
    assert es[..|es|] == es;
    if es != [] {
      var front, e := es[..|es| - 1], es[|es| - 1];
      assert forall k :: 0 <= k <= |front| ==> front[..k] == es[..k];
      AcyclicRun(s, front);
      var before := Run(s, front);
      assert !before.link.dataReady by { QuietIs(before); }
      RegularIs(e);
      StepBeyond(before, e);
      StepSends(before, e);
      QuietKept(before, e);
      DispatchBounded(before, e);
      DownloadsJoined(s, before, Run(s, es));
    }
  }

  lemma QuietIs(s: Dl)
    requires Quiet(s)
    ensures !s.link.dataReady && !LineFault(s)
  {
  }

  lemma RegularIs(e: Event)
    requires Regular(e)
    ensures NoModeChange(e)
  {
  }

  // With no reply to come, none is made ready while the handler waits either.
  lemma {:induction false} WaitingRun(s: Dl, es: seq<Event>)
    requires AwaitingReply(s) && s.mh.state == MhAwReply16 && s.mh.cmd == MhCmdOperate && s.mh.retry <= 3
    requires forall e :: e in es ==> WellFormedEvent(e) && Regular(e) && !Arms(e)
    ensures NoDownload(s, Run(s, es)) && !Run(s, es).link.dataReady
    ensures var t := Run(s, es); t.mh.state in BEYOND && t.mh.cmd == MhCmdOperate && Quiet(t)
  {
    hide Dispatch, Regular, Arms;
    if es != [] {
      var front, e := es[..|es| - 1], es[|es| - 1];
      WaitingRun(s, front);
      var before := Run(s, front);
      LostExactly(s, front);
      assert !e.Received? by { NotReply(e); }
      RegularIs(e);
      StepBeyond(before, e);
      StepSends(before, e);
      QuietKept(before, e);
      DownloadsJoined(s, before, Run(s, es));
    }
  }

  lemma NotReply(e: Event)
    requires !Arms(e)
    ensures !e.Received?
  {
  }

  lemma ReplyEnters(s: Dl, rx: seq<Octet>)
    requires s.mh.state in ACYCLIC && s.mh.cmd == MhCmdOperate && Quiet(s)
    ensures var t := Dispatch(s, Received(rx));
      t.mh.state == MhAwReply16 ==>
        && Silent(s, t) && t.mh.retry == s.mh.retry && t.link.cycleTimer && t.mh.cmd == MhCmdOperate
        && (t.mh.rw != RwWriteParam ==> AwaitingReply(t))
  {
    hide GetOd7, ErrorHandling10, AwReply9;
    var g := SetReady(s.(rx := rx), true);
    AcyclicBeyond(g);
    if s.mh.state == MhErrorHandling10 { StillErrors(s, rx); }
    if s.mh.state in {MhResponse8, MhAwReply9} { ReplyIs(g); }
  }

  lemma ReplyIs(g: Dl)
    requires g.mh.cmd == MhCmdOperate && g.link.dataReady
    ensures var t := AwReply9(g);
      t.mh.state == MhAwReply16 ==>
        && Silent(g, t) && t.mh.retry == g.mh.retry && t.link == g.link.(cycleTimer := true, elapsed := false) && t.mh.cmd == MhCmdOperate
  {
    hide TriggerOd;
    var a := NoteFlag(g);
    TriggerFrame(a, DeviceMessage);
    TriggerSilent(a);
  }

  lemma TriggerSilent(s: Dl)
    ensures Silent(s, TriggerOd(s, DeviceMessage))
  {
    hide OdCall;
    OdSilent(SetTrigger(s, DeviceMessage));
  }

  lemma StillErrors(s: Dl, rx: seq<Octet>)
    requires s.mh.state == MhErrorHandling10
    ensures Dispatch(s, Received(rx)).mh.state != MhAwReply16
  {
    hide ReportMasterCommand;
    ReportFrame(SetReady(s.(rx := rx), true), NoComm);
  }

  // From the turn that sets OPERATE amid an acyclic message: the reply that ends
  // the transfer leads to AW_REPLY_16 with nothing sent, no cyclic message has
  // been or is made ready, so no reply can come, and the link is lost if and
  // only if the timer expires.
  lemma {:induction false} NoSession(s: Dl, sdci: bool, es: seq<Event>, rx: seq<Octet>, later: seq<Event>)
    requires AboutToOperate(s) && s.mh.state in ACYCLIC && Bounded(s)
    requires (forall e :: e in es ==> WellFormedEvent(e) && Regular(e)) && StillAcyclic(ModeCall(s, sdci), es)
    requires var u := Dispatch(Run(ModeCall(s, sdci), es), Received(rx)); u.mh.state == MhAwReply16 && u.mh.rw != RwWriteParam
    requires forall e :: e in later ==> WellFormedEvent(e) && Regular(e) && !Arms(e)
    ensures var t := Run(ModeCall(s, sdci), es); var u := Dispatch(t, Received(rx)); var v := Run(u, later);
      && Silent(t, u) && NoDownload(s, v)
      && (Lost(v) <==> TimerExpired in later)
  {
    hide Run, Regular, Dispatch, ModeCall, Bounded, Quiet, AboutToOperate, Arms;
    OperateReachedExactly(s, sdci);
    ModeTurnSends(s, sdci);
    ModeTurnBounded(s, sdci);
    var a := ModeCall(s, sdci);
    AcyclicRun(a, es);
    var t := Run(a, es);
    ReplyEnters(t, rx);
    var u := Dispatch(t, Received(rx));
    assert u.mh.retry <= 3 by { BoundedIs(t); }
    WaitingRun(u, later);
    DownloadsJoined(s, a, t);
    DownloadsJoined(s, t, u);
    DownloadsJoined(s, u, Run(u, later));
    LostExactly(u, later);
    NoErrors(later);
    ExpiresIs(later);
  }

  lemma BoundedIs(s: Dl)
    requires Bounded(s)
    ensures s.mh.retry <= 3
  {
  }

  lemma {:induction false} NoErrors(es: seq<Event>)
    requires forall e :: e in es ==> !Arms(e)
    ensures Errors(es) == 0
  {
    if es != [] {
      NoErrors(es[..|es| - 1]);
      assert es[|es| - 1] in es;
    }
  }

  lemma ExpiresIs(es: seq<Event>)
    ensures Expires(true, es) <==> TimerExpired in es
  {
  }

  // ---- and it does happen ----

  const PREOPERATE: seq<Event> := [SetModeService(DlPreoperate, 0x12, 0, 0, 0, 2), ModeEvent(true)]

  // A parameter is read, and OPERATE asked for while the read is out.
  const READ: seq<Event> :=
    [ParamService(false, 5, 0), MessageEvent, MessageEvent, SetModeService(DlOperate, 0x12, 0, 0, 0, 2)]

  // The handlers are switched on, and the message handler waits in PREOPERATE_6.
  ghost predicate InPreoperate(t: Dl) {
    && IsduAccounting.Inv(t) && Switched(t) && t.mode == ModeHandler(ModePreoperate3, DlPreoperate, false)
    && t.mh.cmd == MhCmdPreoperate && t.mh.odLen == 2 && Quiet(t)
    && t.isdu.active && t.isdu.state == IsduIdle1 && t.od.active && t.od.state == OdIsdu1 && t.cmd.code == CodeNone && !t.ev.flag
  }

  lemma PreoperateReached(s: Dl, t: Dl)
    requires Rises(s, t) && t.mode.state == ModeStartup2 && t.mode.dlMode == DlPreoperate && t.mh.state == MhStartup2
    requires !s.od.active && s.od.state == OdInactive0 && s.cmd.code == CodeNone && Quiet(s) && !s.ev.flag
    requires t.mh.rw == RwNone && t.mh.odLen == 2 && !t.isdu.active
    requires IsduAccounting.Inv(ModeCall(t, true)) && Switched(ModeCall(t, true))
    ensures var u := ModeCall(t, true); InPreoperate(u) && u.mh.state == MhPreoperate6
  {
    hide IsduCall, EvCall, IsduAccounting.Kept, IsduAccounting.Agree;
    var a := ConfOd(t, true);
    var b := a.(isdu := a.isdu.(active := true));
    IsduCallFrame(b);
    assert t.isdu.state == IsduInactive0;
    var c := ConfIsdu(a, true);
    var d := c.(ev := c.ev.(active := true));
    EvCallFrame(d);
    EM.StepActs(d.ev, EventInput(d));
  }

  // A read of a parameter is asked for, and its message goes out.
  ghost predicate ReadIsOut(t: Dl) {
    && t.mode == ModeHandler(ModePreoperate3, DlPreoperate, false) && Quiet(t) && t.mh.state == MhResponse8
    && t.isdu.active && t.isdu.state == IsduIdle1 && t.od.active && t.od.state == OdIsdu1 && t.cmd.code == CodeNone && t.mh.rw == RwReadParam
  }

  lemma ReadAsked(t: Dl)
    requires InPreoperate(t) && t.mh.state == MhPreoperate6
    ensures var u := Dispatch(t, READ[0]);
      u == t.(mh := t.mh.(rw := RwReadParam), od := t.od.(addr := 5))
    ensures var v := Dispatch(Dispatch(t, READ[0]), READ[1]);
      && v == t.(mh := t.mh.(rw := RwReadParam, retry := 0, state := MhGetOd7), od := t.od.(addr := 5, trigger := MasterMessage),
                 link := t.link.(cycleTimer := true), log := v.log)
  {
    hide IsduAccounting.Kept, IsduAccounting.Agree;
  }

  lemma ReadSent(t: Dl)
    requires t.mh.state == MhGetOd7 && t.mh.rw == RwReadParam && t.mode == ModeHandler(ModePreoperate3, DlPreoperate, false) && Quiet(t)
    requires t.isdu.active && t.isdu.state == IsduIdle1 && t.od.active && t.od.state == OdIsdu1 && t.od.trigger == MasterMessage
    requires t.cmd.code == CodeNone && !t.ev.flag
    ensures ReadIsOut(Dispatch(t, READ[2]))
  {
    hide AcyclicMessage, Perform, IM.At;
    var a := Log(t, [IsduTrig(IsduInput(t))]);
    IsduCallFrame(a);
    OdCallFrame(t);
  }

  // Its reply ends the transfer: the ISDU handler is idle again.
  lemma ReadEnds(t: Dl, rx: seq<Octet>)
    requires ReadIsOut(t.(mode := ModeHandler(ModePreoperate3, DlPreoperate, false))) && t.mh.cmd == MhCmdOperate
    ensures var u := Dispatch(t, Received(rx)); u.mh.state == MhAwReply16 && u.mh.rw == RwNone
  {
    hide Perform, IM.At;
    var n := NoteFlag(SetReady(t.(rx := rx), true));
    var a := SetTrigger(n, DeviceMessage);
    IsduCallFrame(Log(a, [IsduTrig(IsduInput(a))]));
  }

  lemma PlainAllowed(s: Dl, e: Event)
    requires e.ParamService? || e.MessageEvent?
    ensures IsduAccounting.Allowed(s, e)
  {
    hide IsduAccounting.Kept;
  }

  // OPERATE is asked for.
  lemma OperateAsked(s: Dl)
    requires ReadIsOut(s)
    ensures IsduAccounting.Allowed(s, READ[3])
    ensures var t := Dispatch(s, READ[3]);
      && AboutToOperate(t) && t.mh.state == MhResponse8
      && ReadIsOut(t.(mode := ModeHandler(ModePreoperate3, DlPreoperate, false)))
  {
    hide IsduAccounting.Kept;
  }

  lemma {:induction false} ReadAndOperate(s: Dl)
    requires InPreoperate(s) && s.mh.state == MhPreoperate6
    ensures IsduAccounting.AllowedRun(s, READ)
    ensures var t := Run(s, READ);
      && AboutToOperate(t) && t.mh.state == MhResponse8 && IsduAccounting.Inv(t) && Switched(t)
      && ReadIsOut(t.(mode := ModeHandler(ModePreoperate3, DlPreoperate, false)))
  {
    hide Run, IsduAccounting.AllowedRun, IsduAccounting.Allowed, Switched, IsduAccounting.Inv, Dispatch, ReadIsOut, AboutToOperate;
    NoEvents(s);
    assert [] + [READ[0]] == [READ[0]] && [READ[0]] + [READ[1]] + [READ[2]] + [READ[3]] == READ;
    PlainAllowed(s, READ[0]);
    OneMore(s, [], READ[0]);
    PlainAllowed(Dispatch(s, READ[0]), READ[1]);
    OneMore(s, [READ[0]], READ[1]);
    ReadAsked(s);
    var v := Dispatch(Dispatch(s, READ[0]), READ[1]);
    PlainAllowed(v, READ[2]);
    OneMore(s, [READ[0]] + [READ[1]], READ[2]);
    ReadSent(v);
    OperateAsked(Dispatch(v, READ[2]));
    OneMore(s, [READ[0]] + [READ[1]] + [READ[2]], READ[3]);
  }

  const LATE: seq<Event> := PLUG + ASK + PREOPERATE + READ

  // From a fresh port to OPERATE set amid the reading of a parameter: an allowed
  // run, after which the mode handler's turn and the reply are all NoSession asks.
  lemma {:induction false} LateReached(s: Dl)
    requires Unplugged(s) && !s.ev.flag
    ensures IsduAccounting.AllowedRun(s, LATE)
    ensures var t := Run(s, LATE); var u := Dispatch(ModeCall(t, true), Received([0, 0]));
      && AboutToOperate(t) && t.mh.state in ACYCLIC && ModeCall(t, true).mh.state in ACYCLIC
      && u.mh.state == MhAwReply16 && u.mh.rw != RwWriteParam
  {
    hide Run, IsduAccounting.Kept, IsduAccounting.Agree, IsduAccounting.AllowedRun, ModeCall, IsduAccounting.Inv, Switched, Unplugged,
      InPreoperate, ReadIsOut, AboutToOperate, Dispatch;
    Plugged(s);
    var t := Run(s, PLUG);
    AskedAndTold(s, t);
    var u := Run(t, ASK);
    UnpluggedIs(s);
    PreoperateEntered(s, u);
    var v := Run(u, PREOPERATE);
    ReadAndOperate(v);
    JoinRuns(s, PLUG, ASK);
    JoinRuns(s, PLUG + ASK, PREOPERATE);
    JoinRuns(s, PLUG + ASK + PREOPERATE, READ);
    var w := Run(v, READ);
    TurnKeeps(w);
    ReadEnds(ModeCall(w, true), [0, 0]);
  }

  lemma {:induction false} PreoperateEntered(s: Dl, u: Dl)
    requires Unplugged(s) && !s.ev.flag && At(s, u, MhStartup2, IsduAccounting.Answered) && u.mh.rw == RwNone
    ensures IsduAccounting.AllowedRun(u, PREOPERATE) && InPreoperate(Run(u, PREOPERATE)) && Run(u, PREOPERATE).mh.state == MhPreoperate6
    ensures IsduAccounting.Inv(u) && Switched(u)
  {
    hide Run, IsduAccounting.Kept, IsduAccounting.Agree, IsduAccounting.AllowedRun, ModeCall, Switched;
    NoEvents(u);
    OneMore(u, [], PREOPERATE[0]);
    assert [] + [PREOPERATE[0]] == [PREOPERATE[0]] && [PREOPERATE[0]] + [PREOPERATE[1]] == PREOPERATE;
    var v := Dispatch(u, PREOPERATE[0]);
    OneMore(u, [PREOPERATE[0]], PREOPERATE[1]);
    PreoperateReached(s, v);
  }

  // The mode handler's turn changes nothing of that.
  lemma TurnKeeps(s: Dl)
    requires AboutToOperate(s) && s.mh.state == MhResponse8 && ReadIsOut(s.(mode := ModeHandler(ModePreoperate3, DlPreoperate, false)))
    ensures var t := ModeCall(s, true);
      ReadIsOut(t.(mode := ModeHandler(ModePreoperate3, DlPreoperate, false))) && t.mh.cmd == MhCmdOperate && t.mh.state in ACYCLIC
  {
  }
}
