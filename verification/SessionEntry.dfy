// How an OPERATE session begins, and exactly when its requests and replies stay
// paired from there on.
module SessionEntry {
  import opened Octets
  import opened DlTypes
  import opened LinkLayer
  import opened LinkFrames
  import opened OdMarks
  import opened OdInterleaving
  import IM = IsduMachine
  import EM = EventMachine

  // Before the first message of a session, with the handlers switched on.
  ghost predicate Entry(s: Dl) {
    && s.mh.state == MhOperate12 && s.mh.cmd == MhCmdOperate && s.mh.rw != RwWriteParam && !s.mode.comLost
    && s.od.active && s.od.state != OdInactive0 && s.cmd.active && s.cmd.state != CmdInactive0
  }

  // Nothing is left over from before: the OD handler is not amid a command, and
  // looks at events exactly if there are any.
  predicate Clean(s: Dl) { (s.od.state == OdIsdu1 && !s.ev.flag) || (s.od.state == OdEvent3 && s.ev.flag) }

  lemma CleanBegins(s: Dl)
    requires Entry(s) && Clean(s)
    ensures Session(s, |s.log|)
  {
    assert Said(s, |s.log|) == [];
  }

  // ---- a run that goes wrong ----

  lemma {:induction false} RunAppend(s: Dl, a: seq<Event>, b: seq<Event>)
    requires forall e :: e in a + b ==> WellFormedEvent(e)
    ensures (forall e :: e in a ==> WellFormedEvent(e)) && (forall e :: e in b ==> WellFormedEvent(e))
    ensures Run(s, a + b) == Run(Run(s, a), b)
  {
    hide Dispatch, WellFormedEvent;
    assert forall e :: e in a ==> e in a + b;
    assert forall e :: e in b ==> e in a + b;
    if b == [] {
      assert a + b == a;
    } else {
      var ab := a + b;
      assert ab[..|ab| - 1] == a + b[..|b| - 1];
      RunAppend(s, a, b[..|b| - 1]);
    }
  }

  lemma {:induction false} RunPair(s: Dl, x: Event, y: Event)
    requires WellFormedEvent(x) && WellFormedEvent(y)
    ensures Run(s, [x]) == Dispatch(s, x) && Run(s, [x, y]) == Dispatch(Dispatch(s, x), y)
  {
    hide Dispatch, WellFormedEvent;
    assert [x, y][..1] == [x] && [x][..0] == [];
  }

  const SWITCH := ControlService(CodePdOutValid)

  lemma SwitchIs(s: Dl)
    requires Entry(s)
    ensures var t := Dispatch(s, SWITCH);
      && Entry(t) && t.od.state == s.od.state && t.ev == s.ev && NothingNew(s, t) && t.pd == s.pd
      && (s.cmd.state == CmdMasterCommand2 ==> t.cmd.code == CodeNone)
      && (s.cmd.state == CmdIdle1 ==> t.cmd.state == CmdMasterCommand2)
  {
    hide IM.Payload, Perform, Marks, Inputs, EvInputs, Follows;
    var a := s.(cmd := s.cmd.(code := CodePdOutValid));
    CmdCallFrame(a);
    var t := CmdCall(a);
    ForeignActs(s, t, CommandActs(a));
  }

  // A command left over can be sent off by further commands.
  lemma CommandSentOff(s: Dl) returns (es: seq<Event>)
    requires Entry(s)
    ensures forall e :: e in es ==> WellFormedEvent(e) && Regular(e)
    ensures var t := Run(s, es);
      Entry(t) && t.od.state == s.od.state && t.ev == s.ev && t.cmd.code == CodeNone && NothingNew(s, t)
  {
    hide Dispatch, Marks, Inputs, EvInputs;
    if s.cmd.code == CodeNone {
      es := [];
      NoMarks([]);
      assert New(s, s) == [];
    } else if s.cmd.state == CmdMasterCommand2 {
      es := [SWITCH];
      SwitchIs(s);
      RunPair(s, SWITCH, SWITCH);
    } else {
      es := [SWITCH, SWITCH];
      var t := Dispatch(s, SWITCH);
      SwitchIs(s);
      SwitchIs(t);
      RunPair(s, SWITCH, SWITCH);
      NewOn(s, t, Dispatch(t, SWITCH));
      Joined(New(s, t), New(t, Dispatch(t, SWITCH)));
    }
  }

  // A reply of the length the first message asked for.
  function Echo(s: Dl, o: Octet): (rx: seq<Octet>) {
    seq(s.od.rxLen + s.pd.rxLen + 1, i => o)
  }

  // The OD handler's part of the first message, and the rest.
  lemma FirstIs(s: Dl)
    requires Entry(s) && s.cmd.code == CodeNone
    ensures var u := TriggerOd(s, MasterMessage); var v := Dispatch(s, MessageEvent);
      && SameSession(s, u) && u.log <= v.log && Marks(New(u, v)) == []
      && v.od == u.od && v.ev == u.ev && v.cmd == u.cmd && v.pd == u.pd
      && v.mh.state == MhResponse15 && v.mh.cmd == MhCmdOperate && v.mh.rw != RwWriteParam
  {
    hide TriggerOd, Message, Marks, Inputs, EvInputs;
    var u := TriggerOd(s, MasterMessage);
    TriggerFrame(s, MasterMessage);
    var v := FirstMessage(s);
    assert New(u, v) == [RetryCleared, Transfer(Message(ClearRetry(u)))];
    NoMarks(New(u, v));
  }

  lemma SecondIs(s: Dl, o: Octet)
    requires s.mh.state == MhResponse15 && s.mh.cmd == MhCmdOperate && s.mh.rw != RwWriteParam
    ensures var g := Mh(SetReady(s.(rx := Echo(s, o)), true), MhAwReply16); var n := NoteReply(g);
      && Dispatch(s, Received(Echo(s, o))) == SetReady(Exchange(g), false)
      && n.ev.flag == (o >= 0x80) && n.od == s.od && n.cmd == s.cmd
      && s.log <= n.log && Marks(New(s, n)) == [FlagInd(o >= 0x80)]
  {
    hide Exchange, WriteParam, LoseLink, Retry, Marks, Inputs, EvInputs, Traffic, EvTraffic;
    var g := Mh(SetReady(s.(rx := Echo(s, o)), true), MhAwReply16);
    var n := NoteReply(g);
    var c := ControlInd(n.mh.cks % 0x80 < 0x40);
    assert n.log == g.log + [FlagInd(o >= 0x80)] + [c];
    OneMark(g, n, FlagInd(o >= 0x80), [c]);
  }

  // The marks of the parts of a run make up those of the whole.
  lemma MarksOn(s: Dl, t: Dl, u: Dl)
    requires s.log <= t.log <= u.log
    ensures s.log <= u.log && Marks(New(s, u)) == Marks(New(s, t)) + Marks(New(t, u))
  {
    hide Marks, Inputs, EvInputs;
    NewOn(s, t, u);
    Joined(New(s, t), New(t, u));
  }

  lemma NotPaired(m: seq<Act>, f: bool, a: Act, rest: seq<Act>)
    requires Asks(a) ==> IsduOpen(m)
    requires Answers(a) ==> Open(m) == None
    requires Asks(a) || (Answers(a) && !a.CmdTrig?)
    ensures !Paired(m + [FlagInd(f)] + [a] + rest)
  {
    var all := m + [FlagInd(f)] + [a] + rest;
    assert all[..|m| + 2] == m + [FlagInd(f)] + [a];
    PairedNext(m, FlagInd(f));
    PairedNext(m + [FlagInd(f)], a);
    if Paired(all) {
      PairedFront(all, |m| + 2);
    }
  }

  lemma ToIsduIs(s: Dl)
    ensures var t := ToIsdu(s);
      && s.log <= t.log && Marks(New(s, t)) == [IsduTrig(IsduInput(s))] && SameSession(s, t) && t.cmd == s.cmd && t.od.state == s.od.state
  {
    hide IM.Step, Marks, Inputs, EvInputs, Traffic, EvTraffic, IM.Run, EM.Run;
    IsduPasses(s);
    IsduCallFrame(Log(s, [IsduTrig(IsduInput(s))]));
  }

  // The rest of an exchange after the reply has been dealt with.
  lemma ExchangeEnd(x: Dl)
    ensures var t := SetReady(SendNext(x), false); x.log <= t.log && Marks(New(x, t)) == []
  {
    hide Message, Marks, Inputs, EvInputs;
    var t := SetReady(SendNext(x), false);
    assert New(x, t) == [Download(Message(x))];
    NoMarks(New(x, t));
  }

  function Noted(s: Dl, o: Octet): Dl { NoteReply(Mh(SetReady(s.(rx := Echo(s, o)), true), MhAwReply16)) }

  // The OD handler's two turns in one exchange.
  function BothTurns(n: Dl): Dl { TriggerOd(TriggerOd(n, DeviceMessage), MasterMessage) }

  lemma TurnGrows(s: Dl, t: Trigger)
    ensures s.log <= TriggerOd(s, t).log
  {
    hide ToIsdu, ToEvents, ToCommand, ReportMasterCommand, IM.Run, EM.Run, IsduFollows, EventsFollow, Marks, Inputs, EvInputs, New;
    var a := SetTrigger(s, t);
    IsduPasses(a);
    EventsPass(a);
    CommandPasses(a);
    ReportFrame(SetTrigger(a, TrigNone), NoError);
  }

  // The second message of a session, as far as marks go.
  lemma ExchangeMarks(s: Dl, o: Octet)
    requires s.mh.state == MhResponse15 && s.mh.cmd == MhCmdOperate && s.mh.rw != RwWriteParam
    ensures var t := Dispatch(s, Received(Echo(s, o))); var n := Noted(s, o);
      && s.log <= t.log && n.log <= BothTurns(n).log
      && Marks(New(s, t)) == [FlagInd(o >= 0x80)] + Marks(New(n, BothTurns(n)))
      && n.ev.flag == (o >= 0x80) && n.od == s.od && n.cmd == s.cmd
  {
    hide TriggerOd, Marks, Inputs, EvInputs, SendNext, NoteReply, New, Dispatch, Echo;
    SecondIs(s, o);
    var n := Noted(s, o);
    var y := BothTurns(n);
    TurnGrows(n, DeviceMessage);
    TurnGrows(TriggerOd(n, DeviceMessage), MasterMessage);
    ExchangeEnd(y);
    var t := SetReady(SendNext(y), false);
    MarksOn(s, n, y);
    MarksOn(s, y, t);
  }

  // Events are over, as the reply says: the ISDU handler is asked.
  lemma TurnsAfterEvents(n: Dl)
    requires n.od.active && n.od.state == OdEvent3 && !n.ev.flag && n.cmd.code == CodeNone
    ensures exists b: Dl :: b.od.trigger == MasterMessage && Marks(New(n, BothTurns(n))) == [IsduTrig(IsduInput(b))]
  {
    hide ToIsdu, Marks, Inputs, EvInputs, New, IsduInput, SameSession;
    var b := SetTrigger(SetOd(SetTrigger(n, DeviceMessage), OdIsdu1), MasterMessage);
    ToIsduIs(b);
    NewAs(n, b, ToIsdu(b), BothTurns(n));
  }

  // The ISDU handler is given the reply.
  lemma TurnsInIsdu(n: Dl)
    requires n.od.active && n.od.state == OdIsdu1 && !n.ev.flag && n.cmd.code == CodeNone
    ensures var a := SetTrigger(n, DeviceMessage);
      exists rest: seq<Act> :: Marks(New(n, BothTurns(n))) == [IsduTrig(IsduInput(a))] + rest
  {
    hide ToIsdu, Marks, Inputs, EvInputs, New, IsduInput, SameSession;
    var a := SetTrigger(n, DeviceMessage);
    ToIsduIs(a);
    var x := TriggerOd(n, DeviceMessage);
    NewAs(n, a, ToIsdu(a), x);
    TurnGrows(x, MasterMessage);
    MarksOn(n, x, BothTurns(n));
  }

  // The event handler is given the reply.
  lemma TurnsInEvents(n: Dl)
    requires n.od.active && n.od.state == OdEvent3 && n.ev.flag && n.cmd.code == CodeNone
    ensures var a := SetTrigger(n, DeviceMessage);
      exists rest: seq<Act> :: Marks(New(n, BothTurns(n))) == [EventTrig(EventInput(a))] + rest
  {
    hide ToEvents, Marks, Inputs, EvInputs, New, EventInput, SameSession, IsduFollows, EventsFollow;
    var a := SetTrigger(n, DeviceMessage);
    EventsPass(a);
    var x := TriggerOd(n, DeviceMessage);
    NewAs(n, a, ToEvents(a), x);
    TurnGrows(x, MasterMessage);
    MarksOn(n, x, BothTurns(n));
  }

  lemma OpenIsdu(s: Dl)
    requires s.od.trigger == MasterMessage
    ensures Asks(IsduTrig(IsduInput(s))) && IsduOpen([IsduTrig(IsduInput(s))])
  {
    assert [IsduTrig(IsduInput(s))][..0] == [];
  }

  lemma DeviceAnswers(s: Dl)
    requires s.od.trigger == DeviceMessage
    ensures Answers(IsduTrig(IsduInput(s))) && !Asks(IsduTrig(IsduInput(s)))
    ensures Answers(EventTrig(EventInput(s))) && !Asks(EventTrig(EventInput(s)))
  {
  }

  // The flag is set but the OD handler still asks the ISDU handler: its request
  // goes out, and its reply, without events, to nobody.
  lemma WrongIsdu(s: Dl)
    requires Entry(s) && s.cmd.code == CodeNone && s.od.state == OdIsdu1 && s.ev.flag
    ensures var v := Dispatch(s, MessageEvent); !Paired(Marks(New(s, Dispatch(v, Received(Echo(v, 0))))))
  {
    hide ToIsdu, Marks, Inputs, EvInputs, New, IsduInput, SameSession, Dispatch, Echo, BothTurns, Noted, Open, Paired, Asks;
    var a := SetTrigger(s, MasterMessage);
    ToIsduIs(a);
    FirstIs(s);
    var u, v := TriggerOd(s, MasterMessage), Dispatch(s, MessageEvent);
    assert a.od.active && v.od.active by { SameParts(a, ToIsdu(a)); }
    NewAs(s, a, ToIsdu(a), u);
    MarksOn(s, u, v);
    ExchangeMarks(v, 0);
    TurnsAfterEvents(Noted(v, 0));
    var b: Dl :| b.od.trigger == MasterMessage && Marks(New(Noted(v, 0), BothTurns(Noted(v, 0)))) == [IsduTrig(IsduInput(b))];
    var t := Dispatch(v, Received(Echo(v, 0)));
    MarksOn(s, v, t);
    OpenIsdu(a);
    OpenIsdu(b);
    var i, j := IsduTrig(IsduInput(a)), IsduTrig(IsduInput(b));
    assert Marks(New(s, t)) == [i] + [FlagInd(false)] + [j] + [];
    NotPaired([i], false, j, []);
  }

  lemma SameParts(s: Dl, t: Dl)
    requires SameSession(s, t)
    ensures t.od.active == s.od.active && t.ev.flag == s.ev.flag
  {
  }

  // The first message carries nobody's request, and its reply goes to a handler
  // all the same.
  lemma WrongReply(s: Dl)
    requires Entry(s) && s.cmd.code == CodeNone && (s.od.state == OdCommand2 || (s.od.state == OdEvent3 && !s.ev.flag))
    ensures var v := Dispatch(s, MessageEvent); var o := if s.ev.flag then 0x80 else 0;
      !Paired(Marks(New(s, Dispatch(v, Received(Echo(v, o))))))
  {
    hide ReportMasterCommand, Marks, Inputs, EvInputs, New, IsduInput, EventInput, SameSession, Dispatch, Echo, BothTurns, Noted,
      Open, Paired, Asks, Answers;
    var a := SetTrigger(s, MasterMessage);
    FirstIs(s);
    var u, v := TriggerOd(s, MasterMessage), Dispatch(s, MessageEvent);
    var o: Octet := if s.ev.flag then 0x80 else 0;
    ReportFrame(SetTrigger(a, TrigNone), NoError);
    assert s.log <= u.log && Marks(New(s, u)) == [] by { NothingMarked(s, u, s.cmd.masterCommand); }
    MarksOn(s, u, v);
    ExchangeMarks(v, o);
    var n := Noted(v, o);
    var d := SetTrigger(n, DeviceMessage);
    DeviceAnswers(d);
    var t := Dispatch(v, Received(Echo(v, o)));
    MarksOn(s, v, t);
    OpenNothing();
    if s.ev.flag {
      TurnsInEvents(n);
      var rest: seq<Act> :| Marks(New(n, BothTurns(n))) == [EventTrig(EventInput(d))] + rest;
      assert Marks(New(s, t)) == [] + [FlagInd(true)] + [EventTrig(EventInput(d))] + rest;
      NotPaired([], true, EventTrig(EventInput(d)), rest);
    } else {
      TurnsInIsdu(n);
      var rest: seq<Act> :| Marks(New(n, BothTurns(n))) == [IsduTrig(IsduInput(d))] + rest;
      assert Marks(New(s, t)) == [] + [FlagInd(false)] + [IsduTrig(IsduInput(d))] + rest;
      NotPaired([], false, IsduTrig(IsduInput(d)), rest);
    }
  }

  lemma OpenNothing()
    ensures Open([]) == None
  {
  }

  lemma NothingMarked(s: Dl, t: Dl, c: Octet)
    requires t.log in {s.log, s.log + [DevicemodeCnf(NoError, c)]}
    ensures s.log <= t.log && Marks(New(s, t)) == []
  {
    hide Marks, Inputs, EvInputs;
    NoMarks(New(s, t));
  }

  lemma WrongRun(s: Dl)
    requires Entry(s) && s.cmd.code == CodeNone && !Clean(s)
    ensures forall o: Octet :: s.log <= Run(s, [MessageEvent, Received(Echo(Dispatch(s, MessageEvent), o))]).log
    ensures exists o: Octet :: !Paired(Marks(New(s, Run(s, [MessageEvent, Received(Echo(Dispatch(s, MessageEvent), o))]))))
  {
    hide Dispatch, Run, Marks, Paired, New, Echo;
    var v := Dispatch(s, MessageEvent);
    var o: Octet := if s.od.state != OdIsdu1 && s.ev.flag then 0x80 else 0;
    if s.od.state == OdIsdu1 { WrongIsdu(s); } else { WrongReply(s); }
    forall x: Octet
      ensures var t := Run(s, [MessageEvent, Received(Echo(v, x))]); t == Dispatch(v, Received(Echo(v, x))) && s.log <= t.log
    {
      RunPair(s, MessageEvent, Received(Echo(v, x)));
      FirstIs(s);
      TurnGrows(s, MasterMessage);
      ExchangeMarks(v, x);
    }
  }

  // The pairing of requests and replies holds on every run of a session if and
  // only if it begins clean; otherwise, once pending commands are sent off, the
  // first two messages with full-length replies break it.
  lemma SessionStart(s: Dl)
    requires Entry(s)
    ensures (forall es: seq<Event> | forall e :: e in es ==> WellFormedEvent(e) && Regular(e) :: Paired(Marks(New(s, Run(s, es)))))
      <==> Clean(s)
  {
    hide Run, Marks, Paired, New, Session, Echo, Dispatch, NothingNew;
    if Clean(s) {
      CleanBegins(s);
      forall es: seq<Event> | forall e :: e in es ==> WellFormedEvent(e) && Regular(e)
        ensures Paired(Marks(New(s, Run(s, es))))
      {
        SessionKept(s, es, |s.log|);
        SessionSays(s, Run(s, es));
      }
    } else {
      var es := CommandSentOff(s);
      var u := Run(s, es);
      WrongRun(u);
      var o: Octet :| !Paired(Marks(New(u, Run(u, [MessageEvent, Received(Echo(Dispatch(u, MessageEvent), o))]))));
      var more := [MessageEvent, Received(Echo(Dispatch(u, MessageEvent), o))];
      var all := es + more;
      RunAppend(s, es, more);
      NothingBefore(s, u, Run(u, more));
      assert forall e :: e in all ==> WellFormedEvent(e) && Regular(e);
      assert !Paired(Marks(New(s, Run(s, all))));
    }
  }

  lemma SessionSays(s: Dl, t: Dl)
    requires Session(t, |s.log|)
    ensures Paired(Marks(New(s, t)))
  {
  }

  lemma NothingBefore(s: Dl, t: Dl, u: Dl)
    requires NothingNew(s, t) && t.log <= u.log
    ensures Marks(New(s, u)) == Marks(New(t, u))
  {
    hide Marks, Inputs, EvInputs;
    NewOn(s, t, u);
    Joined(New(s, t), New(t, u));
  }
}
