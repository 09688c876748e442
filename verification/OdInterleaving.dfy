// In OPERATE the handlers do not notice that they share the on-request channel:
// requests and replies stay paired, and the ISDU and the event handler each go
// exactly where their own triggers lead them, with exactly the requests,
// confirmations and indications these call for.
module OdInterleaving {
  import opened Octets
  import opened DlTypes
  import opened LinkLayer
  import opened LinkFrames
  import opened OdMarks
  import IM = IsduMachine
  import EM = EventMachine
  import IsduCoding

  // ---- each handler runs on its inputs alone ----

  // What was logged from s to t.
  function New(s: Dl, t: Dl): seq<Act> { if |s.log| <= |t.log| then t.log[|s.log|..] else [] }

  // What was logged since the log had length b.
  function Said(s: Dl, b: nat): seq<Act> { if b <= |s.log| then s.log[b..] else [] }

  ghost predicate IsduFollows(s: Dl, t: Dl) {
    var o := IM.Run(IsduContext(s), Inputs(New(s, t)));
    IsduContext(t) == o.c && Traffic(New(s, t)) == Traffic(o.acts)
  }

  ghost predicate EventsFollow(s: Dl, t: Dl) {
    var o := EM.Run(EM.Core(s.ev), EvInputs(New(s, t)));
    EM.Core(t.ev) == o.e && EvTraffic(New(s, t)) == EvTraffic(o.acts)
  }

  // From s to t both handlers have gone where their own inputs lead them.
  ghost predicate Follows(s: Dl, t: Dl) { s.log <= t.log && IsduFollows(s, t) && EventsFollow(s, t) }

  lemma NewOn(s: Dl, t: Dl, u: Dl)
    requires s.log <= t.log <= u.log
    ensures New(s, u) == New(s, t) + New(t, u)
  {
  }

  lemma FollowsOn(s: Dl, t: Dl, u: Dl)
    requires Follows(s, t) && Follows(t, u)
    ensures Follows(s, u)
  {
    hide IM.Run, EM.Run, Inputs, Traffic, EvInputs, EvTraffic, New;
    NewOn(s, t, u);
    Joined(New(s, t), New(t, u));
    JoinedTraffic(New(s, t), New(t, u));
    var i := IM.Run(IsduContext(s), Inputs(New(s, t)));
    JoinedTraffic(i.acts, IM.Run(i.c, Inputs(New(t, u))).acts);
    IM.RunAppend(IsduContext(s), Inputs(New(s, t)), Inputs(New(t, u)));
    var e := EM.Run(EM.Core(s.ev), EvInputs(New(s, t)));
    JoinedTraffic(e.acts, EM.Run(e.e, EvInputs(New(t, u))).acts);
    EM.RunAppend(EM.Core(s.ev), EvInputs(New(s, t)), EvInputs(New(t, u)));
  }

  // Acts of nobody on the channel.
  predicate Foreign(a: Act) { !IsMark(a) && !OnChannel(a) && !OnDiagnosis(a) }

  // The records the handlers keep are as they were.
  predicate SameRecords(s: Dl, t: Dl) { IsduContext(t) == IsduContext(s) && EM.Core(t.ev) == EM.Core(s.ev) }

  ghost predicate NothingNew(s: Dl, t: Dl) {
    s.log <= t.log && Marks(New(s, t)) == [] && Inputs(New(s, t)) == [] && EvInputs(New(s, t)) == []
  }

  lemma ForeignActs(s: Dl, t: Dl, acts: seq<Act>)
    requires t.log == s.log + acts && SameRecords(s, t) && forall k :: 0 <= k < |acts| ==> Foreign(acts[k])
    ensures NothingNew(s, t) && Follows(s, t)
  {
    hide IM.Step, EM.Step, Marks, Inputs, Traffic, EvInputs, EvTraffic, SameRecords;
    assert New(s, t) == acts;
    NoMarks(acts);
    NoTraffic(acts);
    NoEvTraffic(acts);
    IM.RunNothing(IsduContext(s));
    EM.RunNothing(EM.Core(s.ev));
    NoTraffic([]);
    NoEvTraffic([]);
    assert SameRecords(s, t) ==> IsduContext(t) == IsduContext(s) && EM.Core(t.ev) == EM.Core(s.ev) by { SameIs(s, t); }
  }

  lemma SameIs(s: Dl, t: Dl)
    ensures SameRecords(s, t) ==> IsduContext(t) == IsduContext(s) && EM.Core(t.ev) == EM.Core(s.ev)
  {
  }

  // ---- between two messages ----

  // On a live link.
  ghost predicate Steady(log: seq<Act>, odLen: nat) {
    && (forall i :: i in Inputs(log) ==> !i.comLost && i.odLen == odLen)
    && (forall i :: i in EvInputs(log) ==> !i.comLost && i.odLen == odLen)
  }

  // Since the log had length b.
  ghost predicate Fine(s: Dl, b: nat) {
    b <= |s.log| && Paired(Marks(Said(s, b))) && Steady(Said(s, b), s.mh.odLen) && !s.mode.comLost && s.od.active
  }

  function OpenSince(s: Dl, b: nat): Option<Act> { Open(Marks(Said(s, b))) }

  predicate NobodyWaits(s: Dl, b: nat) { OpenSince(s, b) == None || OpenSince(s, b) == Some(CmdTrig) }

  // A message is out: the OD handler's state tells whose request it carries.
  ghost predicate MessageOut(s: Dl, b: nat) {
    var o := OpenSince(s, b);
    match s.od.state
    case OdInactive0 => false
    case OdIsdu1 => o.Some? && o.value.IsduTrig?
    case OdCommand2 => o == Some(CmdTrig)
    case OdEvent3 => s.ev.flag && o.Some? && o.value.EventTrig?
  }

  // Its reply is in, and has said whether events are pending.
  ghost predicate ReplyHere(s: Dl, b: nat) {
    if s.od.state == OdEvent3 && !s.ev.flag then OpenSince(s, b) == None else MessageOut(s, b)
  }

  // The reply is dealt with and the next message not yet made.
  ghost predicate ReplyIn(s: Dl, b: nat) {
    && NobodyWaits(s, b)
    && match s.od.state
       case OdInactive0 => false
       case OdIsdu1 => !s.ev.flag
       case OdCommand2 => s.cmd.code != CodeNone && OpenSince(s, b) == Some(CmdTrig)
       case OdEvent3 => s.ev.flag
  }

  // What is added to the log is added to what was said since b.
  lemma SaidOn(s: Dl, t: Dl, b: nat)
    requires b <= |s.log| && s.log <= t.log
    ensures Said(t, b) == Said(s, b) + New(s, t)
    ensures Marks(Said(t, b)) == Marks(Said(s, b)) + Marks(New(s, t))
    ensures Inputs(Said(t, b)) == Inputs(Said(s, b)) + Inputs(New(s, t))
    ensures EvInputs(Said(t, b)) == EvInputs(Said(s, b)) + EvInputs(New(s, t))
  {
    hide Marks, Inputs, EvInputs;
    Joined(Said(s, b), New(s, t));
  }

  // Nothing new leaves everything said as it was.
  lemma QuietSince(s: Dl, t: Dl, b: nat)
    requires b <= |s.log| && NothingNew(s, t)
    ensures b <= |t.log| && Marks(Said(t, b)) == Marks(Said(s, b))
    ensures Steady(Said(t, b), s.mh.odLen) == Steady(Said(s, b), s.mh.odLen)
  {
    hide Marks, Inputs, EvInputs, Said, New;
    SaidOn(s, t, b);
  }

  // Passing a trigger on adds one mark.
  ghost predicate PassesOn(s: Dl, t: Dl, mark: Act) {
    && SameSession(s, t) && t.od.state == s.od.state && t.od.trigger == s.od.trigger
    && Marks(New(s, t)) == [mark]
    && Inputs(New(s, t)) == (if mark.IsduTrig? then [mark.input] else [])
    && EvInputs(New(s, t)) == (if mark.EventTrig? then [mark.einput] else [])
    && Follows(s, t)
  }

  // A mark and the acts of the handler it calls.
  lemma OneMark(s: Dl, t: Dl, mark: Act, acts: seq<Act>)
    requires IsMark(mark) && !OnChannel(mark) && !OnDiagnosis(mark)
    requires t.log == s.log + [mark] + acts && forall k :: 0 <= k < |acts| ==> !IsMark(acts[k])
    ensures s.log <= t.log && New(s, t) == [mark] + acts
    ensures Marks(New(s, t)) == [mark]
    ensures Inputs(New(s, t)) == (if mark.IsduTrig? then [mark.input] else [])
    ensures EvInputs(New(s, t)) == (if mark.EventTrig? then [mark.einput] else [])
    ensures Traffic(New(s, t)) == Traffic(acts) && EvTraffic(New(s, t)) == EvTraffic(acts)
  {
    hide Marks, Inputs, EvInputs, Traffic, EvTraffic;
    assert New(s, t) == [mark] + acts;
    Joined([mark], acts);
    JoinedTraffic([mark], acts);
    NoMarks(acts);
    Alone(mark);
  }

  lemma SameInput(s: Dl)
    ensures IsduInput(Log(s, [IsduTrig(IsduInput(s))])) == IsduInput(s)
    ensures EventInput(Log(s, [EventTrig(EventInput(s))])) == EventInput(s)
  {
  }

  lemma {:induction false} RunOne(c: IM.Ctx, i: IsduIn)
    ensures IM.Run(c, [i]) == IM.Step(c, i)
  {
    hide IM.Step;
    IM.RunNothing(c);
    assert [i][..0] == [];
    assert [] + IM.Step(c, i).acts == IM.Step(c, i).acts;
  }

  lemma IsduPasses(s: Dl)
    ensures PassesOn(s, ToIsdu(s), IsduTrig(IsduInput(s)))
  {
    hide IM.Step, EM.Step, IsduCall, Marks, Inputs, EvInputs, Traffic, EvTraffic, IsduInput, IM.Run, EM.Run, New;
    var a := Log(s, [IsduTrig(IsduInput(s))]);
    var t, o := ToIsdu(s), IM.Step(IsduContext(s), IsduInput(s));
    SameInput(s);
    IsduCallFrame(a);
    IM.StepActs(IsduContext(s), IsduInput(s));
    OneMark(s, t, IsduTrig(IsduInput(s)), o.acts);
    RunOne(IsduContext(s), IsduInput(s));
    NoEvTraffic(o.acts);
    EM.RunNothing(EM.Core(s.ev));
    NoEvTraffic([]);
  }

  lemma EventsPass(s: Dl)
    ensures PassesOn(s, ToEvents(s), EventTrig(EventInput(s)))
  {
    hide IM.Step, EM.Step, EvCall, Marks, Inputs, EvInputs, Traffic, EvTraffic, EventInput, IM.Run, EM.Run, New;
    var a := Log(s, [EventTrig(EventInput(s))]);
    var t, o := ToEvents(s), EM.Step(s.ev, EventInput(s));
    SameInput(s);
    EvCallFrame(a);
    EM.StepActs(s.ev, EventInput(s));
    OneMark(s, t, EventTrig(EventInput(s)), o.acts);
    EM.RunOne(EM.Core(s.ev), EventInput(s));
    EM.FlagIrrelevant(s.ev, EventInput(s));
    NoTraffic(o.acts);
    IM.RunNothing(IsduContext(s));
    NoTraffic([]);
  }

  lemma CommandPasses(s: Dl)
    ensures PassesOn(s, ToCommand(s), CmdTrig)
  {
    hide IM.Step, EM.Step, CmdCall, Marks, Inputs, EvInputs, Traffic, EvTraffic, IM.Payload, IM.Run, EM.Run, New;
    var a := Log(s, [CmdTrig]);
    var t := ToCommand(s);
    CmdCallFrame(a);
    OneMark(s, t, CmdTrig, CommandActs(a));
    NoTraffic(CommandActs(a));
    NoEvTraffic(CommandActs(a));
    IM.RunNothing(IsduContext(s));
    EM.RunNothing(EM.Core(s.ev));
    NoTraffic([]);
    NoEvTraffic([]);
  }

  // Follows looks at the log, the two handlers and the pending command only.
  lemma FollowsAs(s0: Dl, s: Dl, t: Dl, t0: Dl)
    requires Follows(s, t) && s0.log == s.log && t0.log == t.log && SameRecords(s0, s) && SameRecords(t0, t)
    ensures Follows(s0, t0)
  {
    hide IM.Run, EM.Run, Inputs, Traffic, EvInputs, EvTraffic;
  }

  // One more mark that fits: p is what passing it on made of a, which is s with
  // its trigger set, and t differs from p in the OD handler's own record only.
  lemma MarkAdded(s: Dl, a: Dl, p: Dl, t: Dl, mark: Act, b: nat)
    requires Fine(s, b) && a == SetTrigger(s, a.od.trigger) && PassesOn(a, p, mark) && Fits(Marks(Said(s, b)), mark)
    requires mark.IsduTrig? ==> mark.input == IsduInput(a)
    requires mark.EventTrig? ==> mark.einput == EventInput(a)
    requires t == p.(od := t.od) && t.od.active == p.od.active
    ensures Fine(t, b) && SameSession(s, t) && Follows(s, t) && Marks(Said(t, b)) == Marks(Said(s, b)) + [mark]
    ensures !mark.FlagInd? ==> OpenSince(t, b) == (if Asks(mark) then Some(mark) else None)
  {
    hide Marks, Inputs, EvInputs, Follows, Paired, Fits, Said, New, Open;
    PairedNext(Marks(Said(s, b)), mark);
    assert s.log <= t.log && New(s, t) == New(a, p) by { FollowsGrows(a, p); NewAs(s, a, p, t); }
    SaidOn(s, t, b);
    FollowsAs(s, a, p, t);
  }

  lemma FollowsGrows(s: Dl, t: Dl)
    requires Follows(s, t)
    ensures s.log <= t.log
  {
  }

  lemma NewAs(s: Dl, a: Dl, p: Dl, t: Dl)
    requires s.log == a.log && p.log == t.log
    ensures New(s, t) == New(a, p)
  {
  }

  // Nothing passed on, and nothing else that matters.
  lemma NothingPassed(s: Dl, t: Dl, acts: seq<Act>, b: nat)
    requires Fine(s, b) && t.log == s.log + acts && SameRecords(s, t) && forall k :: 0 <= k < |acts| ==> Foreign(acts[k])
    requires t.mh.odLen == s.mh.odLen && t.mode.comLost == s.mode.comLost && t.od.active == s.od.active
    ensures Fine(t, b) && Follows(s, t) && Marks(Said(t, b)) == Marks(Said(s, b))
  {
    hide Marks, Inputs, EvInputs, Follows, Paired, Said, New, Open;
    ForeignActs(s, t, acts);
    QuietSince(s, t, b);
  }

  // The reply comes in.
  lemma DeviceTurn(s: Dl, b: nat)
    requires Fine(s, b) && ReplyHere(s, b)
    ensures var t := TriggerOd(s, DeviceMessage); Fine(t, b) && ReplyIn(t, b) && SameSession(s, t) && Follows(s, t)
  {
    hide ToIsdu, ToEvents, ToCommand, ReportMasterCommand, Marks, Inputs, EvInputs, Follows, Paired, Said, New, Open, Fine;
    FineIs(s, b);
    var a := SetTrigger(s, DeviceMessage);
    var t := TriggerOd(s, DeviceMessage);
    match s.od.state {
      case OdIsdu1 =>
        IsduPasses(a);
        MarkAdded(s, a, ToIsdu(a), t, IsduTrig(IsduInput(a)), b);
      case OdEvent3 =>
        if s.ev.flag {
          EventsPass(a);
          MarkAdded(s, a, ToEvents(a), t, EventTrig(EventInput(a)), b);
        } else {
          NothingPassed(s, t, [], b);
        }
      case OdCommand2 =>
        ReportFrame(SetTrigger(a, TrigNone), NoError);
        if t.log == s.log {
          assert t.log == s.log + [];
          NothingPassed(s, t, [], b);
        } else {
          NothingPassed(s, t, [DevicemodeCnf(NoError, s.cmd.masterCommand)], b);
        }
    }
  }

  // The next message is made.
  lemma MasterTurn(s: Dl, b: nat)
    requires Fine(s, b) && ReplyIn(s, b)
    ensures var t := TriggerOd(s, MasterMessage); Fine(t, b) && MessageOut(t, b) && SameSession(s, t) && Follows(s, t)
  {
    hide ToIsdu, ToEvents, ToCommand, Marks, Inputs, EvInputs, Follows, Paired, Said, New, Open, Fine;
    FineIs(s, b);
    var a := SetTrigger(s, MasterMessage);
    var t := TriggerOd(s, MasterMessage);
    if s.od.state == OdCommand2 {
      assert t.log == s.log + [];
      NothingPassed(s, t, [], b);
    } else if s.cmd.code != CodeNone {
      CommandPasses(a);
      MarkAdded(s, a, ToCommand(a), t, CmdTrig, b);
    } else if s.od.state == OdIsdu1 {
      IsduPasses(a);
      MarkAdded(s, a, ToIsdu(a), t, IsduTrig(IsduInput(a)), b);
    } else {
      EventsPass(a);
      MarkAdded(s, a, ToEvents(a), t, EventTrig(EventInput(a)), b);
    }
  }

  // ---- the session ----

  // One OPERATE session, entered when the log had length b: before its first
  // message, between messages, or over because the link was lost.
  ghost predicate Session(s: Dl, b: nat) {
    && b <= |s.log| && Paired(Marks(Said(s, b))) && s.mh.rw != RwWriteParam
    && s.mh.cmd !in {MhCmdStartup, MhCmdInactive}
    && match s.mh.state
       case MhInactive0 => s.mode.comLost
       case MhOperate12 => Fine(s, b) && ReplyIn(s, b) && s.od.state != OdCommand2
       case MhResponse15 => Fine(s, b) && MessageOut(s, b)
       case MhAwReply16 => Fine(s, b) && MessageOut(s, b)
       case _ => false
  }

  // From s to t the session goes on, or the link is lost.
  ghost predicate Continues(s: Dl, t: Dl, b: nat) {
    && Session(t, b) && t.mh.odLen == s.mh.odLen
    && (t.mode.comLost || (!s.mode.comLost && Follows(s, t)))
  }

  lemma FineIs(s: Dl, b: nat)
    requires Fine(s, b)
    ensures b <= |s.log| && Paired(Marks(Said(s, b))) && !s.mode.comLost && s.od.active
  {
  }

  // What a reply says of events.
  lemma ReplyNoted(s: Dl, b: nat)
    requires Fine(s, b) && MessageOut(s, b)
    ensures var t := NoteReply(s);
      Fine(t, b) && ReplyHere(t, b) && Follows(s, t) && t.mode == s.mode && t.mh == s.mh.(cks := t.mh.cks)
  {
    hide Marks, Inputs, EvInputs, Follows, Paired, Said, New, Open, IM.At, IM.Run, EM.Run, Traffic, EvTraffic;
    var t := NoteReply(s);
    var f, c := FlagInd(t.ev.flag), ControlInd(t.mh.cks % 0x80 < 0x40);
    assert t.log == s.log + [f] + [c];
    OneMark(s, t, f, [c]);
    SaidOn(s, t, b);
    PairedNext(Marks(Said(s, b)), f);
    NoTraffic([c]);
    NoEvTraffic([c]);
    NoTraffic([]);
    NoEvTraffic([]);
    assert Follows(s, t) by { FollowsIdle(s, t); }
  }

  // Without inputs the handlers stay where they are.
  lemma FollowsIdle(s: Dl, t: Dl)
    requires s.log <= t.log && SameRecords(s, t) && Inputs(New(s, t)) == [] && EvInputs(New(s, t)) == []
    requires Traffic(New(s, t)) == [] && EvTraffic(New(s, t)) == []
    ensures Follows(s, t)
  {
    hide Inputs, EvInputs, IM.Run, EM.Run, New, Traffic, EvTraffic;
    NoTraffic([]);
    NoEvTraffic([]);
    IM.RunNothing(IsduContext(s));
    EM.RunNothing(EM.Core(s.ev));
  }

  // The next message goes out.
  lemma NextSent(s: Dl, b: nat)
    requires Fine(s, b) && MessageOut(s, b)
    ensures var t := SendNext(s);
      Fine(t, b) && MessageOut(t, b) && Follows(s, t) && t.mode == s.mode && t.mh == s.mh.(state := MhAwReply16)
  {
    hide Marks, Inputs, EvInputs, Follows, Paired, Said, New, Open, Message, Fine;
    NothingPassed(s, SendNext(s), [Download(Message(s))], b);
  }

  lemma ExchangeContinues(s: Dl, b: nat)
    requires Session(s, b) && s.mh.state in {MhResponse15, MhAwReply16}
    ensures Continues(s, Exchange(s), b)
  {
    hide TriggerOd, Marks, Follows, Paired, NoteReply, SendNext, Fine, MessageOut, ReplyIn, ReplyHere, Said;
    var t := NoteReply(s);
    ReplyNoted(s, b);
    DeviceTurn(t, b);
    var u := TriggerOd(t, DeviceMessage);
    MasterTurn(u, b);
    var v := TriggerOd(u, MasterMessage);
    NextSent(v, b);
    FollowsOn(s, t, u);
    FollowsOn(s, u, v);
    FollowsOn(s, v, Exchange(s));
    FineIs(s, b);
    FineIs(Exchange(s), b);
  }

  lemma FirstMessageContinues(s: Dl, b: nat)
    requires Session(s, b) && s.mh.state == MhOperate12
    ensures Continues(s, FirstMessage(s), b)
  {
    hide TriggerOd, Marks, Inputs, EvInputs, Follows, Paired, Message, Fine, MessageOut, ReplyIn, Said, New, Open;
    MasterTurn(s, b);
    var t := TriggerOd(s, MasterMessage);
    var u := FirstMessage(s);
    var acts := [RetryCleared, Transfer(Message(ClearRetry(t)))];
    assert u.log == t.log + acts;
    NothingPassed(t, u, acts, b);
    FollowsOn(s, t, u);
    FineIs(u, b);
    assert MessageOut(u, b) by { OutAs(t, u, b); }
  }

  lemma OutAs(s: Dl, t: Dl, b: nat)
    requires MessageOut(s, b) && Marks(Said(t, b)) == Marks(Said(s, b)) && t.od.state == s.od.state && t.ev.flag == s.ev.flag
    ensures MessageOut(t, b)
  {
    hide Marks, Said, Open;
  }

  // Whatever else the message handler does leaves all that alone.
  lemma QuietContinues(s: Dl, t: Dl, acts: seq<Act>, b: nat)
    requires Session(s, b) && s.mh.state in {MhResponse15, MhAwReply16, MhOperate12}
    requires t.log == s.log + acts && forall k :: 0 <= k < |acts| ==> Foreign(acts[k])
    requires t == s.(mode := t.mode, mh := t.mh, link := t.link, rx := t.rx, cmd := t.cmd, tx := t.tx, od := t.od, log := t.log)
    requires t.mh == s.mh.(state := t.mh.state, retry := t.mh.retry, rw := t.mh.rw) && t.mh.rw != RwWriteParam
    requires t.od.state == s.od.state && t.od.active == s.od.active
    requires if t.mode.comLost then t.mh.state == MhInactive0
      else t.mode == s.mode && t.mh.rw == s.mh.rw && (t.mh.state == s.mh.state || (s.mh.state == MhResponse15 && t.mh.state == MhAwReply16))
    ensures Continues(s, t, b)
  {
    hide Marks, Inputs, EvInputs, Follows, Paired, Said, New, Open, IM.Run, EM.Run;
    assert Fine(s, b);
    var t0 := t.(mode := s.mode, mh := t.mh.(rw := s.mh.rw));
    NothingPassed(s, t0, acts, b);
    assert Said(t0, b) == Said(t, b) by { SaidAs(t0, t, b); }
    if !t.mode.comLost { FollowsAs(s, s, t0, t); }
  }

  lemma SaidAs(s: Dl, t: Dl, b: nat)
    requires s.log == t.log
    ensures Said(s, b) == Said(t, b)
  {
  }

  lemma MhCallContinues(s: Dl, b: nat)
    requires Session(s, b)
    ensures Continues(s, MhCall(s), b)
  {
    hide Exchange, FirstMessage, WriteParam, Follows, Fine, Marks, MessageOut, ReplyIn, Said, Retry, LoseLink;
    if s.mh.state == MhOperate12 {
      FirstMessageContinues(s, b);
    } else if s.mh.state in {MhResponse15, MhAwReply16} {
      var t := Mh(s, MhAwReply16);
      FineIs(s, b);
      assert s.log == s.log + [];
      QuietContinues(s, t, [], b);
      if s.link.dataReady {
        ExchangeContinues(t, b);
        ContinuesAs(s, t, Exchange(t), b);
      } else {
        RetryContinues(t, b);
        ContinuesAs(s, t, AwReply16(t), b);
      }
    }
  }

  lemma RetryContinues(s: Dl, b: nat)
    requires Session(s, b) && s.mh.state == MhAwReply16 && !s.link.dataReady
    ensures Continues(s, AwReply16(s), b)
  {
    hide Exchange, WriteParam, Follows, Fine, Marks, MessageOut, ReplyIn, Said, Continues, Retry, LoseLink;
    FineIs(s, b);
    assert s.log == s.log + [];
    QuietContinues(s, s, [], b);
    ResendContinues(s, b);
    LossContinues(s, b);
  }

  lemma ResendContinues(s: Dl, b: nat)
    requires Session(s, b) && s.mh.state == MhAwReply16
    ensures Continues(s, Retry(s), b)
  {
    hide Follows, Fine, Marks, MessageOut, ReplyIn, Said, Continues;
    FineIs(s, b);
    QuietContinues(s, Retry(s), [Resend], b);
  }

  lemma LossContinues(s: Dl, b: nat)
    requires Session(s, b) && s.mh.state == MhAwReply16
    ensures Continues(s, LoseLink(s), b)
  {
    hide Follows, Fine, Marks, MessageOut, ReplyIn, Said, Continues;
    QuietContinues(s, LoseLink(s), [RetryCleared, ComLost], b);
  }

  lemma ContinuesAs(s: Dl, t: Dl, u: Dl, b: nat)
    requires s.log == t.log && SameRecords(s, t) && s.mode == t.mode && s.mh.odLen == t.mh.odLen && Continues(t, u, b)
    ensures Continues(s, u, b)
  {
    hide Follows, Session, SameRecords;
    if !u.mode.comLost {
      assert SameRecords(u, u) by { SameSelf(u); }
      FollowsAs(s, t, u, u);
    }
  }

  lemma SameSelf(s: Dl)
    ensures SameRecords(s, s)
  {
  }

  // ---- whole sessions ----

  // The link's flags and the receive buffer are of no account.
  lemma LinkAs(s: Dl, t: Dl, b: nat)
    requires Session(s, b) && t == s.(link := t.link, rx := t.rx)
    ensures Session(t, b)
  {
    hide Paired, Marks, Inputs, EvInputs, Open, Steady;
    SaidAs(s, t, b);
  }

  lemma LinkContinues(s: Dl, a: Dl, t: Dl, b: nat)
    requires Session(s, b) && a == s.(link := a.link, rx := a.rx) && t == MhCall(a).(link := t.link)
    ensures Continues(s, t, b)
  {
    hide MhCall, Follows, Session;
    LinkAs(s, a, b);
    MhCallContinues(a, b);
    var u := MhCall(a);
    LinkAs(u, t, b);
    if !t.mode.comLost {
      assert SameRecords(s, a) && SameRecords(t, u) by { SameSelf(s); SameSelf(u); }
      FollowsAs(s, a, u, t);
    }
  }

  // What a service may change without the session noticing: the command, and
  // the pending request.
  lemma ServiceKeeps(s: Dl, t: Dl, acts: seq<Act>, b: nat)
    requires Session(s, b) && t.log == s.log + acts && forall k :: 0 <= k < |acts| ==> Foreign(acts[k])
    requires t == s.(isdu := t.isdu, mh := s.mh.(rw := t.mh.rw), cmd := t.cmd, tx := t.tx, log := t.log, link := t.link, od := t.od)
    requires t.od.state == s.od.state && t.od.active == s.od.active && t.mh.rw != RwWriteParam
    ensures Session(t, b)
    ensures SameRecords(s, t) && !s.mode.comLost ==> Continues(s, t, b)
  {
    hide Marks, Inputs, EvInputs, Paired, Open, Steady, IM.Run, EM.Run, Traffic, EvTraffic;
    var t0 := t.(isdu := s.isdu, mh := s.mh, ev := s.ev);
    ForeignActs(s, t0, acts);
    QuietSince(s, t0, b);
    SaidAs(t0, t, b);
    if SameRecords(s, t) { FollowsAs(s, s, t0, t); }
  }

  lemma SessionIs(s: Dl, b: nat)
    requires Session(s, b)
    ensures s.mh.rw != RwWriteParam && s.mh.state !in {MhStartup2, MhPreoperate6} && (s.mode.comLost ==> s.mh.state == MhInactive0)
  {
    hide Marks, Inputs, EvInputs, Paired, Open, Steady;
  }

  lemma RecordsAs(s: Dl, t: Dl)
    requires t.isdu == s.isdu && t.mh == s.mh && t.ev == s.ev
    ensures SameRecords(s, t)
  {
  }

  lemma CmdForeign(s: Dl)
    ensures var u := CmdCall(s);
      && u == s.(cmd := u.cmd, tx := u.tx, od := s.od.(txLen := u.od.txLen, rxLen := u.od.rxLen), log := u.log)
      && s.log <= u.log && forall a :: a in New(s, u) ==> Foreign(a)
  {
    hide CmdCall, IM.Payload;
    CmdCallFrame(s);
  }

  lemma CnfForeign()
    ensures forall st, c :: Foreign(DevicemodeCnf(st, c))
  {
  }

  // A command service does nothing, one request or one confirmation.
  lemma CommandContinues(s: Dl, e: Event, b: nat)
    requires Session(s, b) && (e.ControlService? || e.DevicemodeService?)
    ensures var t := Dispatch(s, e); Session(t, b) && t.mode == s.mode && (!s.mode.comLost ==> Continues(s, t, b))
  {
    hide Session, SameRecords, Continues, CmdCall, IM.Payload, Foreign;
    SessionIs(s, b);
    var t := Dispatch(s, e);
    forall cmd
      ensures var u := CmdCall(s.(cmd := cmd));
        && u == s.(cmd := u.cmd, tx := u.tx, od := s.od.(txLen := u.od.txLen, rxLen := u.od.rxLen), log := u.log)
        && s.log <= u.log && forall a :: a in New(s, u) ==> Foreign(a)
    {
      CmdForeign(s.(cmd := cmd));
    }
    CnfForeign();
    RecordsAs(s, t);
    ServiceKeeps(s, t, New(s, t), b);
  }

  lemma PageContinues(s: Dl, write: bool, addr: nat, value: Octet, b: nat)
    requires Session(s, b)
    ensures var t := PageReq(s, write, addr, value); Session(t, b) && t.mode == s.mode && (!s.mode.comLost ==> Continues(s, t, b))
  {
    hide Session, SameRecords, Continues;
    SessionIs(s, b);
    var t := PageReq(s, write, addr, value);
    RecordsAs(s, t);
    ServiceKeeps(s, t, t.log[|s.log|..], b);
  }

  lemma NothingContinues(s: Dl, t: Dl, b: nat)
    requires Session(s, b) && !s.mode.comLost && t == s.(link := t.link)
    ensures Continues(s, t, b)
  {
    hide Session, SameRecords;
    SessionIs(s, b);
    RecordsAs(s, t);
    assert t.log == s.log + [];
    ServiceKeeps(s, t, [], b);
  }

  lemma CyclicContinues(s: Dl, e: Event, b: nat)
    requires Session(s, b) && !s.mode.comLost && Cyclic(e)
    ensures Continues(s, Dispatch(s, e), b)
  {
    hide MhCall, Session, Continues, PageReq, CmdCall, DevicemodeReq;
    var t := Dispatch(s, e);
    match e {
      case Received(rx) => LinkContinues(s, SetReady(s.(rx := rx), true), t, b);
      case ReceiveFailed => LinkContinues(s, s.(link := s.link.(rxError := true)), t, b);
      case LineErrors(x, y, z) =>
        var a := NoteErrors(s, x, y, z);
        NothingContinues(s, a, b);
        LinkContinues(s, a, ClearErrors(MhCall(a)), b);
      case TimerExpired =>
        if s.link.cycleTimer {
          LinkContinues(s, s.(link := s.link.(elapsed := true)), t, b);
        } else {
          NothingContinues(s, t, b);
        }
      case MessageEvent => MhCallContinues(s, b);
      case ClockTick(now) => NothingContinues(s, t, b);
      case PageService(w, n, v) => PageContinues(s, w, n, v, b);
      case _ => CommandContinues(s, e, b);
    }
  }

  // A lost link stays lost; services are only noted.
  lemma LostKeeps(s: Dl, e: Event, b: nat)
    requires Session(s, b) && s.mode.comLost && WellFormedEvent(e) && Cyclic(e)
    ensures Session(Dispatch(s, e), b) && Dispatch(s, e).mode.comLost
  {
    hide Session, PageReq, CmdCall, IM.Payload;
    SessionIs(s, b);
    var t := Dispatch(s, e);
    if e.PageService? {
      PageContinues(s, e.pwrite, e.page, e.octet, b);
    } else if e.ControlService? || e.DevicemodeService? {
      CommandContinues(s, e, b);
    } else {
      LinkAs(s, t, b);
    }
  }

  lemma IsduServiceKeeps(s: Dl, r: IsduCoding.Request, b: nat)
    requires Session(s, b) && WellFormedEvent(IsduService(r))
    ensures Session(IsduReq(s, r), b)
  {
    hide Session, IsduCoding.EncodeRequest, IM.TotalSegments, Zeros;
    SessionIs(s, b);
    var t := IsduReq(s, r);
    ServiceKeeps(s, t, t.log[|s.log|..], b);
  }

  lemma ReadServiceKeeps(s: Dl, addr: nat, value: Octet, b: nat)
    requires Session(s, b)
    ensures Session(ParamReq(s, false, addr, value), b)
  {
    hide Session;
    SessionIs(s, b);
    var t := ParamReq(s, false, addr, value);
    assert t.log == s.log + t.log[|s.log|..];
    ServiceKeeps(s, t, t.log[|s.log|..], b);
  }

  lemma RegularKeeps(s: Dl, e: Event, b: nat)
    requires Session(s, b) && WellFormedEvent(e) && Regular(e)
    ensures Session(Dispatch(s, e), b)
  {
    hide Session, IsduReq, ParamReq;
    if e.IsduService? {
      IsduServiceKeeps(s, e.request, b);
    } else if e.ParamService? {
      ReadServiceKeeps(s, e.addr, e.value, b);
    } else if s.mode.comLost {
      LostKeeps(s, e, b);
    } else {
      CyclicContinues(s, e, b);
    }
  }

  lemma {:induction false} SessionKept(s: Dl, es: seq<Event>, b: nat)
    requires Session(s, b) && forall e :: e in es ==> WellFormedEvent(e) && Regular(e)
    ensures Session(Run(s, es), b)
  {
    hide Session, Dispatch, Regular;
    if es != [] {
      SessionKept(s, es[..|es| - 1], b);
      RegularKeeps(Run(s, es[..|es| - 1]), es[|es| - 1], b);
    }
  }

  lemma {:induction false} SessionContinues(s: Dl, es: seq<Event>, b: nat)
    requires Session(s, b) && !s.mode.comLost && forall e :: e in es ==> WellFormedEvent(e) && Cyclic(e)
    ensures Continues(s, Run(s, es), b)
  {
    hide Dispatch, Session, Follows, Cyclic;
    if es == [] {
      NothingContinues(s, s, b);
    } else {
      var before, last := Run(s, es[..|es| - 1]), es[|es| - 1];
      SessionContinues(s, es[..|es| - 1], b);
      if before.mode.comLost {
        LostKeeps(before, last, b);
        SessionIs(before, b);
        LostLength(before, last);
      } else {
        CyclicContinues(before, last, b);
        if !Run(s, es).mode.comLost { FollowsOn(s, before, Run(s, es)); }
      }
    }
  }

  lemma LostLength(s: Dl, e: Event)
    requires s.mh.state == MhInactive0 && Cyclic(e)
    ensures Dispatch(s, e).mh.odLen == s.mh.odLen
  {
    hide CmdCall, Blit;
    forall cmd
      ensures CmdCall(s.(cmd := cmd)).mh == s.mh
    {
      CmdCallFrame(s.(cmd := cmd));
    }
  }

  // Interleaving. On every run of a session, however commands and event
  // readouts cut in and messages are repeated, the triggers passed to the ISDU
  // handler strictly alternate from the session's start, and every reply goes
  // to the handler whose request the message before it carried.
  lemma {:induction false} TriggersAlternate(s: Dl, es: seq<Event>, b: nat)
    requires Session(s, b) && forall e :: e in es ==> WellFormedEvent(e) && Regular(e)
    ensures var said := Said(Run(s, es), b); var ins := Inputs(said);
      && (forall k :: 0 <= k < |ins| ==> ins[k].trigger == Turn(k))
      && Paired(Marks(said))
  {
    hide Run, Marks, Inputs, Paired;
    SessionKept(s, es, b);
    PairedAlternates(Marks(Said(Run(s, es), b)));
    InputsOfMarks(Said(Run(s, es), b));
  }
}
