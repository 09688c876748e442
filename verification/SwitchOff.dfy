// What switching a handler off leaves behind when the link has not been lost.
module SwitchOff {
  import opened Octets
  import opened DlTypes
  import opened LinkLayer
  import opened LinkFrames
  import IM = IsduMachine
  import OdMarks
  import OdInterleaving
  import SessionEntry
  import SharedChannelRuns
  import Watchdog
  import opened LinkUp
  import IA = IsduAccounting

  // ---- the ISDU handler ----

  // The first segment of a reply that is neither "busy" nor a legal answer.
  predicate BadStart(s: Dl) {
    var d := Blit(s.isdu.data, s.isdu.currentSeg * s.mh.odLen, Slice(s.rx, 0, s.mh.odLen));
    IM.At(d, 0) != 1 && (IM.At(d, 0) == 0 || !IM.ValidHeader(d, s.isdu.dirRead))
  }

  // The handler has a reason to give its transfer up, or none to give up.
  predicate GivesUp(s: Dl) {
    || s.isdu.state in {IsduInactive0, IsduIdle1, IsduError4}
    || s.mh.rw == RwIsduAbort || s.mode.comLost
    || (s.isdu.state == IsduWait3 &&
        (IM.TimerElapsed(s.isdu.timer, s.link.now) || (s.od.trigger == DeviceMessage && BadStart(s))))
  }

  // Switched off, the ISDU handler is brought to rest exactly then: otherwise it
  // stays amid its transfer, though inactive.
  lemma OffExactly(s: Dl)
    ensures ConfIsdu(s, false).isdu.state == IsduInactive0 <==> GivesUp(s)
    ensures !ConfIsdu(s, false).isdu.active
  {
    hide IM.ValidHeader, IM.TimerElapsed, IM.TotalLen, IM.TotalSegments, Blit, Slice, IM.At, XorAll, Perform, IM.ErrorCause;
    var u := s.(isdu := s.isdu.(active := false));
    IsduCallFrame(u);
  }

  lemma OdOffApart(s: Dl)
    ensures var t := ConfOd(s, false); t == s.(od := t.od, cmd := t.cmd) && t.od.trigger == s.od.trigger
  {
    hide CmdCall, ToIsdu, ToEvents, ReportMasterCommand;
  }

  // The layer above gives up a running connection: after the mode handler's turn
  // the port is idle, but a transfer is at rest only if it had a reason to be.
  lemma {:induction false} GivenUp(s: Dl, mseq: Octet, cycByte: Octet, n: nat, sdci: bool)
    requires s.mode.state == ModeOperate4 && s.mh.state in {MhResponse15, MhAwReply16} && !s.mode.comLost
    ensures var t := Run(s, [SetModeService(DlInactive, mseq, cycByte, n, n, n), ModeEvent(sdci)]);
      && t.mode.state == ModeIdle0 && !t.isdu.active && !t.mode.comLost
      && (t.isdu.state == IsduInactive0 <==> GivesUp(s))
  {
    hide Run, ConfHandlers, ConfCmd, ConfMh, GivesUp;
    var givingUp := SetModeService(DlInactive, mseq, cycByte, n, n, n);
    SessionEntry.RunPair(s, givingUp, ModeEvent(sdci));
    var u := Dispatch(s, givingUp);
    HandlersOff(u);
    SameGround(s, u);
    RestOff(ConfHandlers(u, false));
  }

  // The handlers switched off in turn.
  lemma HandlersOff(s: Dl)
    ensures var t := ConfHandlers(s, false);
      && !t.isdu.active && (t.isdu.state == IsduInactive0 <==> GivesUp(s)) && t.mh == s.mh.(rw := t.mh.rw) && t.mode == s.mode
  {
    hide OdCall, IsduCall, EvCall, GivesUp;
    var a := ConfOd(s, false);
    OdOffApart(s);
    OffExactly(a);
    SameGround(s, a);
    var b := ConfIsdu(a, false);
    IsduCallFrame(a.(isdu := a.isdu.(active := false)));
    EvCallFrame(b.(ev := b.ev.(active := false)));
  }

  // Command and message handler after them.
  lemma RestOff(s: Dl)
    requires s.mh.state in {MhResponse15, MhAwReply16}
    ensures var t := ConfMh(ConfCmd(s, false), MhCmdInactive); t.isdu == s.isdu
  {
    hide CmdCall, Exchange, WriteParam, Retry, LoseLink;
    CmdCallFrame(s.(cmd := s.cmd.(active := false)));
  }

  lemma SameGround(s: Dl, t: Dl)
    requires t.isdu == s.isdu && t.mh == s.mh && t.mode.comLost == s.mode.comLost && t.link.now == s.link.now && t.rx == s.rx
    requires t.od.trigger == s.od.trigger
    ensures GivesUp(t) <==> GivesUp(s)
  {
  }

  // ---- the OD handler ----

  // Switched off, the OD handler is brought to rest unless it is amid a command:
  // then the command handler's state is set instead.
  lemma OdOffExactly(s: Dl)
    ensures ConfOd(s, false).od.state == OdInactive0 <==> s.od.state != OdCommand2
  {
    hide CmdCall, ToIsdu, ToEvents, ReportMasterCommand;
  }

  // What becomes of the command when the handler is switched on again: if its
  // message had gone out it is confirmed, though no device has answered it;
  // otherwise the handler goes on waiting where it was.
  lemma CommandLeftOver(s: Dl)
    requires s.od.state == OdCommand2
    ensures var t := ConfOd(ConfOd(s, false), true); var c := s.cmd.masterCommand;
      if s.od.trigger != TrigNone && s.cmd.code == CodeNone then
        && t.od.state == (if s.ev.flag then OdEvent3 else OdIsdu1)
        && t.log == s.log + (if c in {MASTERCMD_OPERATE, MASTERCMD_PREOP, MASTERCMD_FALLBACK} then [DevicemodeCnf(NoError, c)] else [])
      else
        t.od.state == OdCommand2 && t.log == s.log
  {
  }

  // And there it spoils the next session's first trigger: nobody is asked, and
  // the message that goes out carries the last request once more.
  lemma FirstTriggerLost(s: Dl)
    requires s.od.state == OdCommand2 && s.od.active
    ensures var t := TriggerOd(s, MasterMessage);
      && t.tx == s.tx && t.od.txLen == s.od.txLen && t.od.rxLen == s.od.rxLen
      && s.log <= t.log && OdMarks.Marks(OdInterleaving.New(s, t)) == []
  {
    hide ReportMasterCommand, OdMarks.Marks;
    var a := SetTrigger(s, MasterMessage);
    ReportFrame(SetTrigger(a, TrigNone), NoError);
    SessionEntry.NothingMarked(s, TriggerOd(s, MasterMessage), s.cmd.masterCommand);
  }

  // ---- a run that leaves a command over ----

  const COMMAND := ControlService(CodePdOutInvalid)

  // In a session, with no command going.
  ghost predicate Calm(s: Dl) {
    && Watchdog.AwaitingReply(s) && s.od.active && s.od.state == OdIsdu1 && !s.mode.comLost
    && s.mode.state in {ModePreoperate3, ModeOperate4} && s.mode.dlMode !in {DlInactive, DlStartup}
    && s.cmd.active && s.cmd.state in {CmdIdle1, CmdMasterCommand2}
  }

  lemma CalmIs(s: Dl, base: nat)
    requires SharedChannelRuns.Calm(s, base) && Watchdog.AwaitingReply(s) && IA.Inv(s) && Switched(s)
    ensures Calm(s) && s.cmd.code == CodeNone
  {
    hide OdMarks.Marks, OdMarks.Paired, IA.Kept, IA.Agree;
  }

  // Its message has been made ready, but the device has not answered it.
  ghost predicate CommandOut(s: Dl) {
    s.od.state == OdCommand2 && s.od.trigger == MasterMessage && s.cmd.code == CodeNone && s.cmd.masterCommand == MASTERCMD_OPERATE
  }

  // The command is taken at once, or, if one is still to be written, at the
  // second asking.
  lemma CommandTaken(s: Dl)
    requires Calm(s)
    ensures var t := Dispatch(s, COMMAND);
      && Calm(t)
      && (s.cmd.state == CmdMasterCommand2 ==> t.cmd.state == CmdIdle1)
      && (s.cmd.state == CmdIdle1 ==>
            t.cmd == s.cmd.(state := CmdMasterCommand2, code := CodePdOutInvalid, masterCommand := MASTERCMD_OPERATE))
  {
    hide Perform, IM.Payload;
    var a := s.(cmd := s.cmd.(code := CodePdOutInvalid));
    PerformFrame(a, CommandActs(a));
  }

  // The next reply is dealt with, and the command written into the message after
  // it.
  lemma CommandWritten(s: Dl, rx: seq<Octet>)
    requires Calm(s) && s.cmd.state == CmdMasterCommand2 && s.cmd.code == CodePdOutInvalid && s.cmd.masterCommand == MASTERCMD_OPERATE
    requires IM.At(rx, s.od.rxLen + s.pd.rxLen) < 0x80
    ensures var t := Dispatch(s, Received(rx)); Watchdog.AwaitingReply(t) && t.link.cycleTimer && CommandOut(t) && t.mode == s.mode
  {
    hide TriggerOd, Message, IM.At;
    Watchdog.ReplyGoesOn(s, rx);
    var n := NoteReply(Mh(SetReady(s.(rx := rx), true), MhAwReply16));
    assert n == s.(mh := n.mh, ev := s.ev.(flag := false), link := n.link, rx := rx, log := n.log);
    TriggerFrame(n, DeviceMessage);
    ReplyToIsdu(n);
    var d := TriggerOd(n, DeviceMessage);
    TriggerFrame(d, MasterMessage);
    CommandTurn(d);
  }

  lemma ReplyToIsdu(s: Dl)
    requires s.od.active && s.od.state == OdIsdu1 && !s.ev.flag
    ensures var t := TriggerOd(s, DeviceMessage); t.cmd == s.cmd && t.od.state == OdIsdu1 && t.od.active && t.od.trigger == TrigNone
  {
    hide IsduCall;
    var a := SetTrigger(s, DeviceMessage);
    IsduCallFrame(Log(a, [IsduTrig(IsduInput(a))]));
  }

  lemma CommandTurn(s: Dl)
    requires s.od.active && s.od.state == OdIsdu1 && s.cmd.state == CmdMasterCommand2 && s.cmd.code == CodePdOutInvalid
    requires s.cmd.masterCommand == MASTERCMD_OPERATE
    ensures CommandOut(TriggerOd(s, MasterMessage))
  {
    hide Perform, IM.Payload;
    var a := Log(SetTrigger(s, MasterMessage), [CmdTrig]);
    PerformFrame(a, CommandActs(a));
  }

  // The link is lost and the handlers switched off.
  lemma SwitchedOffThen(s: Dl)
    requires s.mode.comLost && s.mode.state in {ModePreoperate3, ModeOperate4} && s.mode.dlMode !in {DlInactive, DlStartup}
    requires s.mh.state == MhInactive0 && CommandOut(s)
    ensures var t := ModeCall(s, false); t.mode.state == ModeIdle0 && !t.od.active && CommandOut(t)
  {
    hide IsduCall, EvCall;
    var a := ConfOd(s, false);
    var b := a.(isdu := a.isdu.(active := false));
    IsduCallFrame(b);
    var c := ConfIsdu(a, false);
    EvCallFrame(c.(ev := c.ev.(active := false)));
  }

  // Switched on again, with nothing asked of it meanwhile, the OD handler reports
  // the command as done.
  lemma ReportedThen(s: Dl)
    requires CommandOut(s)
    ensures ConfOd(s, true).log == s.log + [DevicemodeCnf(NoError, MASTERCMD_OPERATE)]
  {
  }

  // The command is asked for,
  function Asked(s: Dl): seq<Event> { if s.cmd.state == CmdIdle1 then [COMMAND] else [COMMAND, COMMAND] }

  // the device answers the message before it and falls silent, and the mode
  // handler has its turn.
  function Leaving(s: Dl, rx: seq<Octet>): seq<Event> { Asked(s) + [Received(rx)] + [TimerExpired] + [ModeEvent(false)] }

  lemma PlainAllowed(s: Dl, e: Event)
    requires e == COMMAND || e.Received? || e.TimerExpired? || e.ModeEvent?
    ensures IA.Allowed(s, e)
  {
    hide IA.Kept;
  }

  lemma {:induction false} CommandsAsked(s: Dl)
    requires Calm(s) && IA.Inv(s) && Switched(s)
    ensures IA.AllowedRun(s, Asked(s))
    ensures var t := Run(s, Asked(s));
      && Calm(t) && IA.Inv(t) && Switched(t)
      && t.cmd.state == CmdMasterCommand2 && t.cmd.code == CodePdOutInvalid && t.cmd.masterCommand == MASTERCMD_OPERATE
  {
    hide Run, IA.AllowedRun, IA.Allowed, IA.Inv, Switched, Dispatch, Watchdog.AwaitingReply;
    NoEvents(s);
    PlainAllowed(s, COMMAND);
    OneMore(s, [], COMMAND);
    CommandTaken(s);
    assert [] + [COMMAND] == [COMMAND] && [COMMAND] + [COMMAND] == [COMMAND, COMMAND];
    if s.cmd.state != CmdIdle1 {
      PlainAllowed(Dispatch(s, COMMAND), COMMAND);
      OneMore(s, [COMMAND], COMMAND);
      CommandTaken(Dispatch(s, COMMAND));
    }
  }

  // A command left over, on an allowed run from any calm session, such as the one
  // a fresh link comes to: the device falls silent with the command on its way,
  // and the port goes idle with the OD handler still in COMMAND_2. The next time
  // the handler is switched on, it confirms the command.
  lemma {:induction false} CommandLeftAtSwitchOff(s: Dl, base: nat, rx: seq<Octet>)
    requires SharedChannelRuns.Calm(s, base) && Watchdog.AwaitingReply(s) && IA.Inv(s) && Switched(s)
    requires var u := Run(s, Asked(s)); IM.At(rx, u.od.rxLen + u.pd.rxLen) < 0x80
    ensures IA.AllowedRun(s, Leaving(s, rx))
    ensures var t := Run(s, Leaving(s, rx));
      && t.mode.state == ModeIdle0 && !t.od.active && CommandOut(t)
      && ConfOd(t, true).log == t.log + [DevicemodeCnf(NoError, MASTERCMD_OPERATE)]
  {
    hide Run, IA.AllowedRun, IA.Allowed, IA.Inv, Switched, Dispatch, Watchdog.AwaitingReply, Asked, SharedChannelRuns.Calm, CommandOut, ConfOd;
    CalmIs(s, base);
    CommandsAsked(s);
    AllowedWell(s, Asked(s));
    var u := Run(s, Asked(s));
    PlainAllowed(u, Received(rx));
    OneMore(s, Asked(s), Received(rx));
    CommandWritten(u, rx);
    var v := Dispatch(u, Received(rx));
    PlainAllowed(v, TimerExpired);
    OneMore(s, Asked(s) + [Received(rx)], TimerExpired);
    Expired(v);
    var w := Dispatch(v, TimerExpired);
    assert w.mh.state == MhInactive0 by { LostIs(w); }
    assert CommandOut(w) by { SameCommand(v, w); }
    PlainAllowed(w, ModeEvent(false));
    OneMore(s, Asked(s) + [Received(rx)] + [TimerExpired], ModeEvent(false));
    SwitchedOffThen(w);
    DispatchMode(w, ModeEvent(false));
    ReportedThen(ModeCall(w, false));
  }

  lemma LostIs(s: Dl)
    requires IA.Inv(s) && s.mode.comLost
    ensures s.mh.state == MhInactive0
  {
    hide IA.Kept, IA.Agree;
  }

  lemma SameCommand(s: Dl, t: Dl)
    requires CommandOut(s) && t.od == s.od && t.cmd == s.cmd
    ensures CommandOut(t)
  {
  }
}
