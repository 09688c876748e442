// Every accepted ISDU request is confirmed at most once, on every run.
module IsduAccounting {
  import opened Octets
  import opened DlTypes
  import opened LinkLayer
  import opened LinkFrames
  import IM = IsduMachine
  import EM = EventMachine
  import IsduCoding
  import IsduTransfer

  // How far the page accesses of start-up have come.
  datatype PageState = NoneYet | Outstanding | Answered | Failed

  // The books: is a request accepted and not yet answered, and has every
  // confirmation so far answered exactly one accepted request? `page` is the
  // last page access since the last start-up.
  datatype Books = Books(ok: bool, pending: bool, page: PageState)

  const FRESH := Books(true, false, NoneYet)

  function PageDone(p: PageState, st: DlTypes.Status): PageState {
    if p != Outstanding then p else if st == NoError then Answered else Failed
  }

  function Post(b: Books, a: Act): Books {
    match a
    case IsduAccepted => b.(ok := b.ok && !b.pending, pending := true)
    case IsduCnf(_, _, _) => b.(ok := b.ok && b.pending, pending := false)
    case IsduDropped => b.(ok := b.ok && b.pending, pending := false)
    case PageAccepted => b.(page := Outstanding)
    case PageReadCnf(_, st) => b.(page := PageDone(b.page, st))
    case PageWriteCnf(st) => b.(page := PageDone(b.page, st))
    case ModeInd(m) => if m == MhModeStartup then b.(page := NoneYet) else b
    case _ => b
  }

  function PostAll(b: Books, acts: seq<Act>): Books {
    if acts == [] then b else Post(PostAll(b, acts[..|acts| - 1]), acts[|acts| - 1])
  }

  lemma {:induction false} PostAllAppend(b: Books, x: seq<Act>, y: seq<Act>)
    ensures PostAll(b, x + y) == PostAll(PostAll(b, x), y)
  {
    if y == [] {
      assert x + y == x;
    } else {
      var xy := x + y;
      assert xy[..|xy| - 1] == x + y[..|y| - 1];
      PostAllAppend(b, x, y[..|y| - 1]);
    }
  }

  function Kept(log: seq<Act>): Books { PostAll(FRESH, log) }

  predicate PageAct(a: Act) { a.PageAccepted? || a.PageReadCnf? || a.PageWriteCnf? }

  predicate Unrelated(a: Act) {
    !a.IsduAccepted? && !a.IsduCnf? && !a.IsduDropped? && !PageAct(a) && a != ModeInd(MhModeStartup)
  }

  lemma {:induction false} UnrelatedKeep(b: Books, acts: seq<Act>)
    requires forall i :: 0 <= i < |acts| ==> Unrelated(acts[i])
    ensures PostAll(b, acts) == b
  {
    if acts != [] {
      UnrelatedKeep(b, acts[..|acts| - 1]);
    }
  }

  // What handler state and pending command say about the books; a command left
  // over from an earlier connection says nothing to a handler switched off.
  ghost predicate Agree(h: IsduHandler, rw: RwCmd, b: Books) {
    && b.ok
    && (rw == RwIsduTransport && h.state != IsduInactive0 ==> b.pending)
    && (match h.state
        case IsduInactive0 => !b.pending
        case IsduIdle1 => (h.totalSeg != 0 <==> b.pending)
        case _ => b.pending)
  }

  ghost predicate OutAgrees(o: IM.Out, b: Books) {
    Agree(o.c.h, o.c.rw, PostAll(b, o.acts))
  }

  // The ways a request ends: each confirms or drops what was pending.
  lemma EndsAgree(c: IM.Ctx, i: IsduIn, b: Books)
    requires b.ok && b.pending
    ensures OutAgrees(IM.Error4(c, i), b)
    ensures c.h.state in {IsduRequest2, IsduWait3, IsduResponse5} ==> OutAgrees(IM.EnterError4(c, i), b)
    ensures OutAgrees(IM.ReceptionComplete(c), b)
  {
    hide XorAll, Slice, IM.ValidHeader, IM.TotalLen, IM.TimerElapsed, PostAll;
    PostFew(b, IM.Error4(c, i).acts);
    PostFew(b, IM.EnterError4(c, i).acts);
    PostFew(b, IM.ReceptionComplete(c).acts);
  }

  // One step of the ISDU handler keeps them in agreement. A handler being
  // switched on must not find a transport command left over.
  lemma StepAgrees(c: IM.Ctx, i: IsduIn, b: Books)
    requires Agree(c.h, c.rw, b)
    requires c.h.state == IsduInactive0 && c.h.active ==> c.rw != RwIsduTransport
    ensures OutAgrees(IM.Step(c, i), b)
  {
    hide XorAll, Slice, Blit, IM.ValidHeader, IM.TotalLen, IM.TotalSegments, IM.TimerElapsed, IM.At,
      IM.Error4, IM.EnterError4, IM.ReceptionComplete, PostAll;
    PostFew(b, IM.Step(c, i).acts);
    match c.h.state {
      case IsduWait3 =>
        forall x: IM.Ctx | x.h.state == IsduWait3
          ensures OutAgrees(IM.EnterError4(x, i), b) && OutAgrees(IM.ReceptionComplete(x), b)
        {
          EndsAgree(x, i, b);
        }
      case IsduResponse5 =>
        forall x: IM.Ctx | x.h.state == IsduResponse5
          ensures OutAgrees(IM.EnterError4(x, i), b) && OutAgrees(IM.ReceptionComplete(x), b)
        {
          EndsAgree(x, i, b);
        }
      case IsduRequest2 => EndsAgree(c, i, b);
      case IsduError4 => EndsAgree(c, i, b);
      case _ =>
    }
  }

  lemma {:induction false} PostFew(b: Books, acts: seq<Act>)
    ensures |acts| == 0 ==> PostAll(b, acts) == b
    ensures |acts| == 1 ==> PostAll(b, acts) == Post(b, acts[0])
    ensures |acts| == 2 ==> PostAll(b, acts) == Post(Post(b, acts[0]), acts[1])
  {
    if acts != [] {
      PostFew(b, acts[..|acts| - 1]);
    }
  }

  // ---- frames: what the other handlers leave alone ----

  ghost predicate Apart(s: Dl, t: Dl) {
    t.isdu == s.isdu && t.mh.rw == s.mh.rw && Kept(t.log) == Kept(s.log)
  }

  lemma LogPosts(s: Dl, a: Act)
    ensures Kept(Log(s, [a]).log) == Post(Kept(s.log), a)
  {
    PostAllAppend(FRESH, s.log, [a]);
    PostFew(Kept(s.log), [a]);
  }

  lemma LogApart(s: Dl, a: Act)
    requires Unrelated(a)
    ensures Apart(s, Log(s, [a]))
  {
    PostAllAppend(FRESH, s.log, [a]);
    UnrelatedKeep(Kept(s.log), [a]);
  }

  // The other handlers keep the books as they are.
  lemma EvCallApart(s: Dl)
    ensures Apart(s, EvCall(s))
  {
    hide EM.Step, PostAll, EvCall;
    EvCallFrame(s);
    EM.StepActs(s.ev, EventInput(s));
    var acts := EM.Step(s.ev, EventInput(s)).acts;
    PostAllAppend(FRESH, s.log, acts);
    UnrelatedKeep(Kept(s.log), acts);
  }

  lemma CmdCallApart(s: Dl)
    ensures Apart(s, CmdCall(s))
  {
    hide PostAll, IM.Payload, CmdCall;
    CmdCallFrame(s);
    PostAllAppend(FRESH, s.log, CommandActs(s));
    UnrelatedKeep(Kept(s.log), CommandActs(s));
  }

  lemma ReportApart(s: Dl, status: Status)
    ensures Apart(s, ReportMasterCommand(s, status))
  {
    hide PostAll;
    LogApart(s, DevicemodeCnf(status, s.cmd.masterCommand));
  }

  // ---- the invariant ----

  ghost predicate Inv(s: Dl) {
    && Agree(s.isdu, s.mh.rw, Kept(s.log))
    && (s.isdu.active <==> s.isdu.state != IsduInactive0)
    && Settled(s)
  }

  // How modes, OD length and handler activity go together between events.
  ghost predicate Settled(s: Dl) {
    && (s.mode.comLost ==> s.mh.state == MhInactive0)
    && (s.isdu.active ==> s.mh.odLen >= 1)
    && (s.mode.dlMode in {DlPreoperate, DlOperate} ==> s.mh.odLen >= 1)
    && (s.mode.dlMode == DlInactive ==> s.mode.state == ModeIdle0 || (s.mode.state == ModeStartup2 && s.mode.comLost))
    && (match s.mode.state
        case ModeIdle0 => Resting(s)
        case ModeEstCom1 => Resting(s) && s.mode.dlMode == DlStartup
        case ModeStartup2 => StartingUp(s, Kept(s.log).page)
        case _ =>
          s.mode.dlMode in {DlPreoperate, DlOperate} && s.mh.cmd in {MhCmdPreoperate, MhCmdOperate} && s.mh.state !in STARTUP)
  }

  const STARTUP: set<MhState> := {MhStartup2, MhResponse3, MhAwReply4, MhErrorHandling5}

  ghost predicate Resting(s: Dl) {
    !s.isdu.active && !s.mode.comLost && s.mh.state == MhInactive0 && s.mh.cmd == MhCmdInactive
  }

  // During start-up: a page access overwrites whatever command was left over,
  // and when it is answered nothing is.
  ghost predicate StartingUp(s: Dl, page: PageState) {
    && !s.isdu.active && s.mh.cmd == MhCmdInactive && s.mh.state in STARTUP + {MhInactive0}
    && (page in {Outstanding, Answered} ==> s.mh.rw != RwIsduTransport)
    && (page == Answered ==> s.mh.state == MhStartup2 && !s.mode.comLost && s.mh.rw !in {RwRead, RwWrite})
    && (s.mode.dlMode in {DlPreoperate, DlOperate} ==> page == Answered)
  }

  // A connection is up, and nobody has noticed a loss yet.
  ghost predicate Live(s: Dl) {
    !s.mode.comLost && s.mode.state in {ModePreoperate3, ModeOperate4}
  }

  // What a message or OD handler call leaves alone.
  ghost predicate Quiet(s: Dl, t: Dl) {
    && t.mode == s.mode && t.mh == s.mh.(rw := t.mh.rw) && t.link == s.link
    && t.isdu.active == s.isdu.active
    && (t.mh.rw == RwIsduTransport ==> s.mh.rw == RwIsduTransport)
  }

  lemma StepFrame(c: IM.Ctx, i: IsduIn)
    requires c.h.active <==> c.h.state != IsduInactive0
    ensures var o := IM.Step(c, i);
      && o.c.h.active == c.h.active && (o.c.h.active <==> o.c.h.state != IsduInactive0)
      && (o.c.rw == RwIsduTransport ==> c.rw == RwIsduTransport)
  {
    hide XorAll, Slice, Blit, IM.ValidHeader, IM.TotalLen, IM.TotalSegments, IM.TimerElapsed, IM.At;
  }

  lemma IsduCallInv(s: Dl)
    requires Inv(s)
    ensures Inv(IsduCall(s)) && Quiet(s, IsduCall(s))
  {
    hide IM.Step, PostAll, IsduCall;
    var c := IM.Ctx(s.isdu, s.mh.rw);
    IsduCallFrame(s);
    StepFrame(c, IsduInput(s));
    StepAgrees(c, IsduInput(s), Kept(s.log));
    PostAllAppend(FRESH, s.log, IM.Step(c, IsduInput(s)).acts);
    IM.StepActs(c, IsduInput(s));
    PageKept(Kept(s.log), IM.Step(c, IsduInput(s)).acts);
  }

  lemma {:induction false} PageKept(b: Books, acts: seq<Act>)
    requires forall i :: 0 <= i < |acts| ==> IM.OwnAct(acts[i])
    ensures PostAll(b, acts).page == b.page
  {
    if acts != [] {
      PageKept(b, acts[..|acts| - 1]);
    }
  }

  // The three ways the OD handler passes a trigger on.
  lemma PassedOnInv(s: Dl)
    requires Inv(s)
    ensures Inv(ToIsdu(s)) && Quiet(s, ToIsdu(s))
    ensures Inv(ToEvents(s)) && Quiet(s, ToEvents(s))
    ensures Inv(ToCommand(s)) && Quiet(s, ToCommand(s))
  {
    hide IsduCall, EvCall, CmdCall, Kept, Agree, IsduInput, EventInput;
    var a := Log(s, [IsduTrig(IsduInput(s))]);
    LogApart(s, IsduTrig(IsduInput(s)));
    IsduCallInv(a);
    var b := Log(s, [EventTrig(EventInput(s))]);
    LogApart(s, EventTrig(EventInput(s)));
    EvCallFrame(b);
    EvCallApart(b);
    var c := Log(s, [CmdTrig]);
    LogApart(s, CmdTrig);
    CmdCallFrame(c);
    CmdCallApart(c);
  }

  // Nothing the invariant speaks of is in the OD handler's own record.
  lemma OdRecordInv(s: Dl, t: Dl, od: OdHandler)
    requires Inv(t) && Quiet(s, t)
    ensures Inv(t.(od := od)) && Quiet(s, t.(od := od))
  {
    hide Kept, Agree;
  }

  lemma OdCallInv(s: Dl)
    requires Inv(s)
    ensures Inv(OdCall(s)) && Quiet(s, OdCall(s))
  {
    hide ToIsdu, ToEvents, ToCommand, ReportMasterCommand, Inv;
    PassedOnInv(s);
    assert Quiet(s, s);
    OdRecordInv(s, s, OdCall(s).od);
    OdRecordInv(s, ToIsdu(s), OdCall(s).od);
    OdRecordInv(s, ToEvents(s), OdCall(s).od);
    OdRecordInv(s, ToCommand(s), OdCall(s).od);
    OdCommand2Inv(s);
  }

  lemma OdCommand2Inv(s: Dl)
    requires Inv(s)
    ensures Inv(OdCommand2Call(s)) && Quiet(s, OdCommand2Call(s))
  {
    hide ReportMasterCommand, Kept, Agree;
    ReportFrame(SetTrigger(s, TrigNone), NoError);
    ReportApart(SetTrigger(s, TrigNone), NoError);
  }

  lemma TriggerInv(s: Dl, t: Trigger)
    requires Inv(s)
    ensures Inv(TriggerOd(s, t)) && Quiet(s, TriggerOd(s, t))
  {
    hide OdCall, Kept, Agree;
    OdCallInv(SetTrigger(s, t));
  }

  // ---- the message handler ----

  // Between events the message handler changes nothing the modes depend on,
  // apart from noting that the link is lost.
  ghost predicate MhQuiet(s: Dl, t: Dl) {
    && t.mode == s.mode.(comLost := t.mode.comLost)
    && t.mh.odLen == s.mh.odLen && t.isdu.active == s.isdu.active
  }

  lemma ExchangeInv(s: Dl)
    requires Inv(s) && Live(s)
    ensures Inv(Exchange(s)) && MhQuiet(s, Exchange(s))
  {
    hide TriggerOd, Kept, Agree, Message, IM.At;
    var cks := IM.At(s.rx, s.od.rxLen + s.pd.rxLen);
    var t0 := s.(mh := s.mh.(cks := cks));
    LogApart(t0, FlagInd(cks >= 0x80));
    LogApart(NoteFlag(t0), ControlInd(cks % 0x80 < 0x40));
    var t := NoteReply(s);
    TriggerInv(t, DeviceMessage);
    TriggerInv(TriggerOd(t, DeviceMessage), MasterMessage);
    var u := TriggerOd(TriggerOd(t, DeviceMessage), MasterMessage);
    LogApart(u, Download(Message(u)));
  }

  lemma LoseLinkInv(s: Dl)
    requires Inv(s) && Live(s)
    ensures Inv(LoseLink(s)) && MhQuiet(s, LoseLink(s))
  {
    hide PostAll;
    PostAllAppend(FRESH, s.log, [RetryCleared, ComLost]);
    UnrelatedKeep(Kept(s.log), [RetryCleared, ComLost]);
  }

  // Clearing the retry counter and one transmission, after an OD call.
  lemma SendInv(s: Dl, act: Act)
    requires Inv(s) && Unrelated(act)
    ensures Inv(Log(ClearRetry(s), [act])) && Inv(ClearRetry(s)) && Inv(DoResend(s)) && Inv(Log(s, [act]))
  {
    hide Kept, Agree;
    LogApart(s, RetryCleared);
    LogApart(ClearRetry(s), act);
    LogApart(s, Resend);
    LogApart(s, act);
  }

  lemma RetryInv(s: Dl)
    requires Inv(s) && Live(s)
    ensures Inv(Retry(s)) && MhQuiet(s, Retry(s))
  {
    hide Kept, Agree;
    SendInv(s.(link := s.link.(rxTimeout := false, rxError := false, txError := false)), ComLost);
  }

  lemma WriteParamInv(s: Dl)
    requires Inv(s) && Live(s)
    ensures Inv(WriteParam(s)) && MhQuiet(s, WriteParam(s))
  {
    hide TriggerOd, Kept, Agree, Message;
    TriggerInv(s, MasterMessage);
    var t := TriggerOd(s, MasterMessage);
    SendInv(t, Download(Message(ClearRetry(t))));
  }

  lemma AwReply16Inv(s: Dl)
    requires Inv(s) && Live(s)
    ensures Inv(AwReply16(s)) && MhQuiet(s, AwReply16(s))
  {
    hide Exchange, WriteParam, Retry, LoseLink, Kept, Agree;
    ExchangeInv(s);
    WriteParamInv(s);
    RetryInv(s);
    LoseLinkInv(s);
  }

  lemma FirstMessageInv(s: Dl)
    requires Inv(s) && Live(s)
    ensures Inv(FirstMessage(s)) && MhQuiet(s, FirstMessage(s))
  {
    hide TriggerOd, Kept, Agree, Message;
    TriggerInv(s, MasterMessage);
    var t := TriggerOd(s, MasterMessage);
    SendInv(t, Transfer(Message(ClearRetry(t))));
  }

  lemma GetOd7Inv(s: Dl)
    requires Inv(s) && Live(s)
    ensures Inv(GetOd7(s)) && MhQuiet(s, GetOd7(s))
  {
    hide OdCall, Kept, Agree, AcyclicMessage;
    OdCallInv(s);
    SendInv(OdCall(s), Transfer(AcyclicMessage(ClearRetry(OdCall(s)))));
  }

  lemma AwReply9Inv(s: Dl)
    requires Inv(s) && Live(s)
    ensures Inv(AwReply9(s)) && MhQuiet(s, AwReply9(s))
  {
    hide TriggerOd, Kept, Agree;
    LogApart(s, FlagInd(s.mh.cks >= 0x80));
    TriggerInv(NoteFlag(s), DeviceMessage);
  }

  // Once the connection is up, page acts are of no account.
  lemma LiveLogInv(s: Dl, a: Act)
    requires Inv(s) && Live(s) && PageAct(a)
    ensures Inv(Log(s, [a]))
  {
    hide Kept;
    LogPosts(s, a);
  }

  lemma ErrorHandling10Inv(s: Dl)
    requires Inv(s) && Live(s)
    ensures Inv(ErrorHandling10(s)) && MhQuiet(s, ErrorHandling10(s))
  {
    hide LoseLink, Kept, Agree, ReportMasterCommand;
    ReportFrame(s, NoComm);
    ReportApart(s, NoComm);
    var t := ReportMasterCommand(s, NoComm);
    SendInv(t, ReadParamCnf(0, NoComm));
    SendInv(t, WriteParamCnf(NoComm));
    SendInv(s, ComLost);
    LoseLinkInv(t);
    LiveLogInv(t, PageReadCnf(0, NoComm));
    LiveLogInv(t, PageWriteCnf(NoComm));
    LoseLinkInv(Log(t, [PageReadCnf(0, NoComm)]));
    LoseLinkInv(Log(t, [PageWriteCnf(NoComm)]));
    LoseLinkInv(Log(t, [ReadParamCnf(0, NoComm)]));
    LoseLinkInv(Log(t, [WriteParamCnf(NoComm)]));
  }

  lemma Preoperate6Inv(s: Dl)
    requires Inv(s) && Live(s)
    ensures Inv(Preoperate6(s)) && MhQuiet(s, Preoperate6(s))
  {
    hide Kept, Agree, AcyclicMessage;
    SendInv(s, ComLost);
  }

  // A page access on its way: sent, answered or given up.
  lemma StartupCallInv(s: Dl)
    requires Inv(s) && s.mode.state == ModeStartup2 && s.mh.state in STARTUP
    ensures Inv(MhCall(s)) && MhQuiet(s, MhCall(s))
  {
    hide Kept, Agree, AcyclicMessage, IM.At, AwReply9, AwReply16, ErrorHandling10, FirstMessage, GetOd7, Preoperate6;
    match s.mh.state {
      case MhStartup2 => SendInv(s, Transfer(AcyclicMessage(ClearRetry(s))));
      case MhErrorHandling5 => ErrorHandling5Inv(s);
      case MhResponse3 => AwReply4Inv(Mh(s, MhAwReply4));
      case _ => AwReply4Inv(s);
    }
  }

  lemma AwReply4Inv(s: Dl)
    requires Inv(s) && s.mode.state == ModeStartup2 && s.mh.state == MhAwReply4
    ensures Inv(AwReply4(s)) && MhQuiet(s, AwReply4(s))
  {
    hide Kept, Agree, IM.At;
    var t := s.(mh := s.mh.(state := MhStartup2, rw := RwNone));
    LogPosts(t, PageReadCnf(IM.At(s.rx, 0), NoError));
    LogPosts(t, PageWriteCnf(NoError));
    AgreeNone(s);
  }

  lemma ErrorHandling5Inv(s: Dl)
    requires Inv(s) && s.mode.state == ModeStartup2 && s.mh.state == MhErrorHandling5
    ensures Inv(ErrorHandling5(s)) && MhQuiet(s, ErrorHandling5(s))
  {
    hide Kept, Agree;
    LogApart(s, Resend);
    LogApart(s, ComLost);
    var t := Log(s, [ComLost]);
    LogPosts(t, PageReadCnf(0, NoComm));
    LogPosts(t, PageWriteCnf(NoComm));
    AgreeNone(s);
  }

  // Switched off, the handler agrees with the same books whatever the command.
  lemma AgreeNone(s: Dl)
    requires Inv(s) && !s.isdu.active
    ensures forall rw, b: Books :: b.ok == Kept(s.log).ok && b.pending == Kept(s.log).pending ==> Agree(s.isdu, rw, b)
  {
    hide Kept;
  }

  lemma MhCallInv(s: Dl)
    requires Inv(s)
    ensures Inv(MhCall(s)) && MhQuiet(s, MhCall(s))
  {
    hide AwReply16, AwReply9, ErrorHandling10, FirstMessage, GetOd7, Preoperate6, Kept, Agree, AwReply4, ErrorHandling5;
    if s.mode.state == ModeStartup2 && s.mh.state in STARTUP {
      StartupCallInv(s);
    } else if Live(s) {
      match s.mh.state {
        case MhResponse15 => AwReply16Inv(Mh(s, MhAwReply16));
        case MhAwReply16 => AwReply16Inv(s);
        case MhOperate12 => FirstMessageInv(s);
        case MhPreoperate6 => Preoperate6Inv(s);
        case MhGetOd7 => GetOd7Inv(s);
        case MhErrorHandling10 => ErrorHandling10Inv(s);
        case _ => AwReply9Inv(s);
      }
    }
  }

  // ---- switching the handlers off and on ----

  // Switched off after the loss of the link, the ISDU handler is inactive
  // whatever it was doing, and what it owed is settled: one "no communication"
  // confirmation, except that a handler already in its error state drops it.
  lemma SwitchOff(s: Dl)
    requires Inv(s) && s.mode.comLost
    ensures var t := ConfIsdu(s, false);
      && t == s.(isdu := t.isdu, tx := t.tx, od := s.od.(txLen := t.od.txLen, rxLen := t.od.rxLen), log := t.log)
      && t.isdu.state == IsduInactive0 && !t.isdu.active && Agree(t.isdu, t.mh.rw, Kept(t.log))
      && t.log == s.log + (if !Kept(s.log).pending then []
                           else if s.isdu.state == IsduError4 then [IsduDropped]
                           else [IsduCnf([], 0, NoComm)])
  {
    hide XorAll, Slice, Blit, IM.ValidHeader, IM.TotalLen, IM.TotalSegments, IM.TimerElapsed, IM.At, PostAll, IsduCall;
    var u := s.(isdu := s.isdu.(active := false));
    var c := IM.Ctx(u.isdu, u.mh.rw);
    IsduCallFrame(u);
    StepAgrees(c, IsduInput(u), Kept(s.log));
    PostAllAppend(FRESH, s.log, IM.Step(c, IsduInput(u)).acts);
  }

  // The OD handler switched on or off calls nobody with an active ISDU handler
  // who would notice.
  lemma ConfOdInv(s: Dl, active: bool)
    requires Inv(s)
    ensures Inv(ConfOd(s, active)) && Quiet(s, ConfOd(s, active))
  {
    hide OdCall, Kept, Agree;
    OdCallInv(s.(od := s.od.(active := active)));
  }

  // Switching off never reaches the ISDU handler through the OD handler.
  lemma ConfOdOff(s: Dl)
    ensures var t := ConfOd(s, false); t == s.(od := t.od, cmd := t.cmd)
  {
    hide CmdCall, ToIsdu, ToEvents, ReportMasterCommand;
  }

  lemma CmdCallInv(s: Dl)
    requires Inv(s)
    ensures Inv(CmdCall(s)) && Quiet(s, CmdCall(s))
  {
    hide CmdCall, Kept, Agree;
    CmdCallFrame(s);
    CmdCallApart(s);
  }

  // Losing the port: the mode handler's turn after the link was lost.
  lemma PortLost(s: Dl)
    requires Inv(s) && s.mode.comLost
    ensures var t := ModeCall(s, false);
      && Inv(t) && t.mode.state == ModeIdle0 && t.isdu.state == IsduInactive0
      && Kept(t.log) == (if !Kept(s.log).pending then Kept(s.log)
                         else if s.isdu.state == IsduError4 then Post(Kept(s.log), IsduDropped)
                         else Post(Kept(s.log), IsduCnf([], 0, NoComm)))
    ensures forall b :: ModeCall(s, b) == ModeCall(s, false)
  {
    hide OdCall, IsduCall, EvCall, CmdCall, PostAll, Agree;
    var a := ConfOd(s, false);
    ConfOdOff(s);
    SwitchOff(a);
    var b := ConfIsdu(a, false);
    PostAllAppend(FRESH, a.log, if |b.log| > |a.log| then [b.log[|a.log|]] else []);
    PostFew(Kept(a.log), if |b.log| > |a.log| then [b.log[|a.log|]] else []);
    EvCallFrame(b.(ev := b.ev.(active := false)));
    EvCallApart(b.(ev := b.ev.(active := false)));
    var c := ConfEvents(b, false);
    CmdCallFrame(c.(cmd := c.cmd.(active := false)));
    CmdCallApart(c.(cmd := c.cmd.(active := false)));
    var d := ConfCmd(c, false);
    var e := ConfMh(d, MhCmdInactive);
    LogApart(e, ModeInd(MhModeComLost));
    LogApart(e, ModeInd(MhModeInactive));
  }

  // Switching on, from an inactive ISDU handler.
  lemma {:induction false} SwitchOn(s: Dl)
    requires Inv(s) && !s.isdu.active && s.mh.odLen >= 1 && s.mh.rw != RwIsduTransport
    ensures var t := ConfHandlers(s, true);
      && Agree(t.isdu, t.mh.rw, Kept(t.log)) && t.isdu.active && t.isdu.state == IsduIdle1
      && t.mode == s.mode && t.mh == s.mh.(rw := t.mh.rw)
  {
    hide OdCall, EvCall, PostAll, IsduCall;
    ConfOdInv(s, true);
    var a := ConfOd(s, true);
    var u := a.(isdu := a.isdu.(active := true));
    IsduCallFrame(u);
    assert u.log + [] == u.log;
    var b := ConfIsdu(a, true);
    EvCallFrame(b.(ev := b.ev.(active := true)));
    EvCallApart(b.(ev := b.ev.(active := true)));
  }

  // ---- every event ----

  // What the layers above keep to: one ISDU request outstanding at a time, and
  // one page access; PREOPERATE or OPERATE only once the page accesses of
  // start-up have been answered (iolink_sm.c asks for neither before); a
  // connection given up only when the link is lost; and legal OD lengths.
  ghost predicate Allowed(s: Dl, e: Event) {
    && WellFormedEvent(e)
    && (e.IsduService? ==> !Kept(s.log).pending)
    && (e.PageService? && s.mode.state == ModeStartup2 ==> Kept(s.log).page != Outstanding && s.mode.dlMode == DlStartup)
    && (e.WakeUp? ==> s.mode.state == ModeEstCom1)
    && (e.SetModeService? ==> AllowedMode(s, e.mode, e.odLen))
  }

  ghost predicate AllowedMode(s: Dl, m: DlMode, odLen: nat) {
    match m
    case DlStartup => s.mode.state == ModeIdle0
    case DlInactive => s.mode.state == ModeIdle0 || (s.mode.state == ModeStartup2 && s.mode.comLost)
    case _ => odLen >= 1 && s.mode.state != ModeEstCom1 && (s.mode.state == ModeStartup2 ==> Kept(s.log).page == Answered)
  }

  lemma ModeCallInv(s: Dl, sdci: bool)
    requires Inv(s)
    ensures Inv(ModeCall(s, sdci))
  {
    hide ConfHandlers, Kept, Agree, MhCall, GotoIdle;
    if s.mode.comLost {
      PortLost(s);
    } else if s.mode.state == ModeStartup2 && s.mode.dlMode in {DlPreoperate, DlOperate} {
      SwitchOn(s);
      var t := ConfHandlers(s, true);
      var c := if s.mode.dlMode == DlPreoperate then MhCmdPreoperate else MhCmdOperate;
      StartUp(t.(mh := t.mh.(cmd := c)));
      var u := MhCall(t.(mh := t.mh.(cmd := c)));
      LogApart(u, ModeInd(MhModePreoperate));
      LogApart(u, ModeInd(MhModeOperate));
    } else if s.mode.state == ModePreoperate3 && s.mode.dlMode == DlOperate {
      var t := s.(mh := s.mh.(cmd := MhCmdOperate));
      MhCallInv(t);
      LogApart(MhCall(t), ModeInd(MhModeOperate));
    }
  }

  lemma {:induction false} StartUp(s: Dl)
    requires s.mh.state == MhStartup2 && s.mh.cmd in {MhCmdPreoperate, MhCmdOperate}
    ensures var t := MhCall(s);
      && t.isdu == s.isdu && t.log == s.log && t.mode == s.mode
      && t.mh == s.mh.(state := if s.mh.cmd == MhCmdPreoperate then MhPreoperate6 else MhOperate12)
  {
  }

  lemma IsduServiceInv(s: Dl, r: IsduCoding.Request)
    requires Inv(s) && Allowed(s, IsduService(r))
    ensures Inv(IsduReq(s, r))
  {
    hide Kept, Agree, IsduCoding.EncodeRequest, IM.TotalSegments, Zeros;
    LogApart(s, IsduRejected(NoComm));
    LogApart(s, IsduRejected(ValueOutOfRange));
    LogApart(s, IsduRejected(StateConflict));
    if s.isdu.state == IsduIdle1 && r.index >= 2 {
      AcceptInv(s, r);
    }
  }

  lemma PageServiceInv(s: Dl, write: bool, addr: nat, value: Octet)
    requires Inv(s) && Allowed(s, PageService(write, addr, value))
    ensures Inv(PageReq(s, write, addr, value))
  {
    hide Kept, Agree, Blit;
    PageAgrees(s);
    if s.mh.state == MhStartup2 && addr <= 15 && (write || addr != MIN_CYCL || !s.link.firstRead) {
      LogPosts(s, PageAccepted);
      AgreeNone(s);
    } else {
      PageRefusedInv(s, write, addr, value);
    }
  }

  lemma PageRefusedInv(s: Dl, write: bool, addr: nat, value: Octet)
    requires Inv(s) && Allowed(s, PageService(write, addr, value)) && PageReq(s, write, addr, value).mh == s.mh
    ensures Inv(PageReq(s, write, addr, value))
  {
    hide Kept, Agree, Blit;
    PageAgrees(s);
    var t := PageReq(s, write, addr, value);
    LogPosts(s, t.log[|s.log|]);
  }

  lemma PageAgrees(s: Dl)
    requires Inv(s)
    ensures forall b: Books :: b.ok == Kept(s.log).ok && b.pending == Kept(s.log).pending ==> Agree(s.isdu, s.mh.rw, b)
  {
    hide Kept;
  }

  lemma ParamServiceInv(s: Dl, write: bool, addr: nat, value: Octet)
    requires Inv(s)
    ensures Inv(ParamReq(s, write, addr, value))
  {
    hide Kept;
    var t := s.(mh := s.mh.(rw := if write then RwWriteParam else RwReadParam));
    forall x | Unrelated(x)
      ensures Kept(Log(t, [x]).log) == Kept(t.log)
    {
      LogApart(t, x);
    }
  }

  lemma ControlServiceInv(s: Dl, code: ControlCode)
    requires Inv(s)
    ensures Inv(ControlReq(s, code))
  {
    hide CmdCall, Kept, Agree;
    CmdCallInv(s.(cmd := s.cmd.(code := code)));
  }

  lemma SetModeServiceInv(s: Dl, m: DlMode, mseq: Octet, cycByte: Octet, pdRx: nat, pdTx: nat, odLen: nat)
    requires Inv(s) && Allowed(s, SetModeService(m, mseq, cycByte, pdRx, pdTx, odLen))
    ensures Inv(SetModeReq(s, m, mseq, cycByte, pdRx, pdTx, odLen))
  {
    hide Kept, Agree;
  }

  lemma DevicemodeServiceInv(s: Dl, m: DlMode)
    requires Inv(s)
    ensures Inv(DevicemodeReq(s, m))
  {
    hide CmdCall, Kept, Agree;
    LogApart(s, DevicemodeCnf(StateConflict, MASTERCMD_NONE));
    forall c: Octet
      ensures var t := CmdCall(s.(cmd := s.cmd.(masterCommand := c, code := CodeDeviceMode)));
        Inv(t) && Inv(Log(t, [DevicemodeCnf(NoError, MASTERCMD_FALLBACK)]))
    {
      CmdCallInv(s.(cmd := s.cmd.(masterCommand := c, code := CodeDeviceMode)));
      LogApart(CmdCall(s.(cmd := s.cmd.(masterCommand := c, code := CodeDeviceMode))), DevicemodeCnf(NoError, MASTERCMD_FALLBACK));
    }
  }

  lemma AcceptInv(s: Dl, r: IsduCoding.Request)
    requires Inv(s) && s.isdu.state == IsduIdle1 && !Kept(s.log).pending
    requires IsduCoding.Encodable(r)
    ensures Inv(IsduReq(s, r))
  {
    hide IsduCoding.Frame, Zeros, PostAll, IM.TotalSegments;
    var e := IsduCoding.EncodeRequest(r);
    IsduTransfer.SegmentCount(|e|, s.mh.odLen);
    PostAllAppend(FRESH, s.log, [IsduAccepted]);
    PostFew(Kept(s.log), [IsduAccepted]);
  }

  lemma LinkEventsInv(s: Dl, rx: seq<Octet>, a: bool, b: bool, c: bool)
    requires Inv(s)
    ensures Inv(OnReceived(s, rx)) && Inv(OnReceiveFailed(s)) && Inv(OnLineErrors(s, a, b, c)) && Inv(OnTimer(s))
  {
    hide MhCall, Inv;
    forall t: Dl, link: LinkFlags, rx: seq<Octet> | Inv(t)
      ensures Inv(t.(link := link, rx := rx))
    {
      LinkApart(t, link, rx);
    }
    forall t: Dl | Inv(t)
      ensures Inv(MhCall(t))
    {
      MhCallInv(t);
    }
  }

  // The invariant does not look at the receive buffer and the link's flags.
  lemma LinkApart(s: Dl, link: LinkFlags, rx: seq<Octet>)
    requires Inv(s)
    ensures Inv(s.(link := link, rx := rx))
  {
    hide Kept, Agree;
  }

  lemma WakeUpInv(s: Dl, found: bool, cycle: Octet)
    requires Inv(s) && s.mode.state == ModeEstCom1
    ensures Inv(OnWakeUp(s, found, cycle))
  {
    hide CmdCall, Kept, Agree;
    LogApart(s.(mode := s.mode.(comLost := false)), ModeInd(MhModeInactive));
    var t0 := Mh(s.(link := s.link.(cycByte := cycle)), MhStartup2);
    LogPosts(t0, PageReadCnf(cycle, NoError));
    var t := Log(t0, [PageReadCnf(cycle, NoError)]);
    CmdCallFrame(t.(cmd := t.cmd.(active := true)));
    CmdCallApart(t.(cmd := t.cmd.(active := true)));
    LogPosts(ConfCmd(t, true), ModeInd(MhModeStartup));
    AgreeNone(s);
  }

  lemma DispatchInv(s: Dl, e: Event)
    requires Inv(s) && Allowed(s, e)
    ensures Inv(Dispatch(s, e))
  {
    hide MhCall, ModeCall, Kept, Agree, OnReceived, OnReceiveFailed, OnLineErrors, OnTimer, OnWakeUp,
      IsduReq, PageReq, ParamReq, ControlReq, DevicemodeReq, SetModeReq;
    match e {
      case Received(rx) => LinkEventsInv(s, rx, false, false, false);
      case ReceiveFailed => LinkEventsInv(s, [], false, false, false);
      case LineErrors(a, b, c) => LinkEventsInv(s, [], a, b, c);
      case TimerExpired => LinkEventsInv(s, [], false, false, false);
      case ModeEvent(sdci) => ModeCallInv(s, sdci);
      case MessageEvent => MhCallInv(s);
      case WakeUp(found, cycle) => WakeUpInv(s, found, cycle);
      case ClockTick(now) =>
      case IsduService(r) => IsduServiceInv(s, r);
      case PageService(w, a, v) => PageServiceInv(s, w, a, v);
      case ParamService(w, a, v) => ParamServiceInv(s, w, a, v);
      case ControlService(c) => ControlServiceInv(s, c);
      case DevicemodeService(m) => DevicemodeServiceInv(s, m);
      case SetModeService(m, t, y, a, b, c) => SetModeServiceInv(s, m, t, y, a, b, c);
    }
  }

  ghost predicate AllowedRun(s: Dl, es: seq<Event>)
  {
    && (forall e :: e in es ==> WellFormedEvent(e))
    && forall k :: 0 <= k < |es| ==> Allowed(Run(s, es[..k]), es[k])
  }

  // Confirmation accounting. On every run, however link losses, commands,
  // events and resends fall, each accepted request is confirmed at most once
  // and nothing else is; in the idle state the segment count is nonzero exactly
  // while an accepted request is unanswered.
  lemma {:induction false} RunKeepsBooks(s: Dl, es: seq<Event>)
    requires Inv(s) && AllowedRun(s, es)
    ensures Inv(Run(s, es)) && Kept(Run(s, es).log).ok
  {
    hide Dispatch, Kept, Settled;
    if es != [] {
      var front := es[..|es| - 1];
      forall k | 0 <= k < |front|
        ensures Allowed(Run(s, front[..k]), front[k])
      {
        assert front[..k] == es[..k];
      }
      RunKeepsBooks(s, front);
      DispatchInv(Run(s, front), es[|es| - 1]);
    }
  }
}
