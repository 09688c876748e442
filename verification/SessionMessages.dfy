// The messages of a session against the requests of the handlers: each request
// is carried by exactly one message, and each new message carries one.
module SessionMessages {
  import opened Octets
  import opened DlTypes
  import opened LinkLayer
  import opened LinkFrames
  import opened OdInterleaving
  import opened Watchdog
  import EventReadout
  import SharedChannel
  import LinkUp
  import IsduAccounting
  import IsduCoding
  import IM = IsduMachine
  import EM = EventMachine

  // ---- requests and messages in the log ----

  function Requests(log: seq<Act>): (r: seq<Act>) {
    if log == [] then []
    else Requests(log[..|log| - 1]) + (if log[|log| - 1].OdRequest? then [log[|log| - 1]] else [])
  }

  // New messages; a resend repeats one of them.
  function Messages(log: seq<Act>): (m: seq<seq<Octet>>) {
    if log == [] then []
    else
      var a := log[|log| - 1];
      Messages(log[..|log| - 1]) + (if a.Transfer? then [a.message] else if a.Download? then [a.next] else [])
  }

  lemma {:induction false} BothJoined(a: seq<Act>, b: seq<Act>)
    ensures Requests(a + b) == Requests(a) + Requests(b) && Messages(a + b) == Messages(a) + Messages(b)
  {
    if b == [] {
      assert a + b == a;
    } else {
      assert (a + b)[..|a + b| - 1] == a + b[..|b| - 1];
      BothJoined(a, b[..|b| - 1]);
    }
  }

  lemma {:induction false} NeitherIn(acts: seq<Act>)
    requires forall k :: 0 <= k < |acts| ==> !acts[k].OdRequest? && !acts[k].Transfer? && !acts[k].Download?
    ensures Requests(acts) == [] && Messages(acts) == []
  {
    if acts != [] { NeitherIn(acts[..|acts| - 1]); }
  }

  lemma {:induction false} OneRequest(acts: seq<Act>)
    requires acts != [] && acts[0].OdRequest?
    requires forall k :: 0 < k < |acts| ==> !acts[k].OdRequest? && !acts[k].Transfer? && !acts[k].Download?
    ensures Requests(acts) == [acts[0]] && Messages(acts) == []
  {
    BothJoined([acts[0]], acts[1..]);
    NeitherIn(acts[1..]);
    assert acts == [acts[0]] + acts[1..];
    assert [acts[0]][..0] == [];
  }

  // ---- the message a request makes ----

  // A request as OD_req takes it.
  predicate Proper(a: Act, odLen: nat) { a.OdRequest? && a.ctrl <= 31 && (a.write ==> |a.payload| == odLen) }

  // Control octet, M-sequence type, the process data, and what is written.
  function Carrier(a: Act, typeOctet: Octet, pdOut: seq<Octet>): seq<Octet>
    requires a.OdRequest? && a.ctrl <= 31
  {
    [MasterControl(a.write, a.channel, a.ctrl), typeOctet] + pdOut + (if a.write then a.payload else [])
  }

  function Carriers(requests: seq<Act>, typeOctet: Octet, pdOut: seq<Octet>): (m: seq<seq<Octet>>)
    requires forall k :: 0 <= k < |requests| ==> requests[k].OdRequest? && requests[k].ctrl <= 31
    ensures |m| == |requests| && forall k :: 0 <= k < |m| ==> m[k] == Carrier(requests[k], typeOctet, pdOut)
  {
    seq(|requests|, k requires 0 <= k < |requests| => Carrier(requests[k], typeOctet, pdOut))
  }

  // The process data in the transmit buffer.
  function PdOut(s: Dl): seq<Octet> { Slice(s.tx, 2, s.pd.txLen) }

  // The message fits the transmit buffer, behind the process data.
  ghost predicate Fits(s: Dl) {
    && |s.tx| == BUFFER_SIZE && s.od.outOffset == 2 + s.pd.txLen && s.od.outOffset + s.mh.odLen <= BUFFER_SIZE
    && 1 <= s.mh.odLen <= 32
  }

  // What no turn changes in a message.
  ghost predicate SameLayout(s: Dl, t: Dl) {
    && t.typeOctet == s.typeOctet && t.pd == s.pd && t.mh.odLen == s.mh.odLen && t.od.outOffset == s.od.outOffset
    && |t.tx| == |s.tx| && PdOut(t) == PdOut(s)
  }

  lemma RequestMakes(s: Dl, a: Act)
    requires Fits(s) && Proper(a, s.mh.odLen)
    ensures var t := Request(s, a); Message(t) == Carrier(a, s.typeOctet, PdOut(s)) && Fits(t) && SameLayout(s, t)
  {
    MessageCarriesRequest(s, a);
    var t := Request(s, a);
    assert s.tx[2..2 + s.pd.txLen] == PdOut(s);
    assert forall i :: 0 <= i < s.pd.txLen ==> PdOut(t)[i] == PdOut(s)[i];
  }

  lemma {:induction false} PerformNone(s: Dl, acts: seq<Act>)
    requires forall k :: 0 <= k < |acts| ==> !acts[k].OdRequest?
    ensures Perform(s, acts) == Log(s, acts)
    decreases |acts|
  {
    if acts == [] {
      assert s.log + acts == s.log;
    } else {
      PerformNone(Log(s, [acts[0]]), acts[1..]);
      assert s.log + [acts[0]] + acts[1..] == s.log + acts;
    }
  }

  lemma {:induction false} PerformOne(s: Dl, acts: seq<Act>)
    requires acts != [] && acts[0].OdRequest? && forall k :: 0 < k < |acts| ==> !acts[k].OdRequest?
    ensures Perform(s, acts) == Log(Request(s, acts[0]), acts)
  {
    hide Request;
    RequestFrame(s, acts[0]);
    PerformNone(Log(Request(s, acts[0]), [acts[0]]), acts[1..]);
    assert s.log + [acts[0]] + acts[1..] == s.log + acts;
  }

  // ---- the handlers ----

  // Acts with one request, the first, or with none.
  predicate Asks(acts: seq<Act>, odLen: nat) {
    acts != [] && Proper(acts[0], odLen) && forall k :: 0 < k < |acts| ==> !acts[k].OdRequest? && !acts[k].Transfer? && !acts[k].Download?
  }

  predicate AsksNothing(acts: seq<Act>) {
    forall k :: 0 <= k < |acts| ==> !acts[k].OdRequest? && !acts[k].Transfer? && !acts[k].Download?
  }

  // Asked for the next message the ISDU handler makes one request.
  lemma IsduAsks(c: IM.Ctx, i: IsduIn)
    requires i.trigger == MasterMessage && c.h.active && c.h.state != IsduInactive0 && !i.comLost && i.addr <= 31
    ensures var o := IM.Step(c, i); Asks(o.acts, i.odLen) && o.c.h.active && o.c.h.state !in {IsduInactive0, IsduError4}
  {
    hide XorAll, Slice, Blit, IM.ValidHeader, IM.TotalLen, IM.TotalSegments, IM.TimerElapsed, IM.At, IM.ErrorCause, IM.Payload;
  }

  // Given a reply it makes none, unless it has an error to report.
  lemma IsduHears(c: IM.Ctx, i: IsduIn)
    requires i.trigger == DeviceMessage && c.h.active && c.h.state !in {IsduInactive0, IsduError4}
    ensures var o := IM.Step(c, i); AsksNothing(o.acts) && o.c.h.active && o.c.h.state != IsduInactive0
  {
    hide XorAll, Slice, Blit, IM.ValidHeader, IM.TotalLen, IM.TotalSegments, IM.TimerElapsed, IM.At, IM.ErrorCause, IM.Payload;
  }

  lemma EventsAsk(e: EventHandler, i: EvIn)
    requires i.trigger == MasterMessage && e.active && e.state != EvInactive0 && !i.comLost && EventReadout.AddressOk(e)
    ensures var o := EM.Step(e, i); Asks(o.acts, i.odLen) && o.e.active && o.e.state != EvInactive0 && EventReadout.AddressOk(o.e)
  {
    hide EM.ReadStatusCode, EM.ReadMemoryByte;
    EventReadout.StepOk(e, i);
  }

  lemma EventsHear(e: EventHandler, i: EvIn)
    requires i.trigger == DeviceMessage && e.active && e.state != EvInactive0 && !i.comLost && EventReadout.AddressOk(e)
    ensures var o := EM.Step(e, i); AsksNothing(o.acts) && o.e.active && o.e.state != EvInactive0 && EventReadout.AddressOk(o.e)
  {
    hide EM.ReadStatusCode, EM.ReadMemoryByte;
    EventReadout.StepOk(e, i);
    EM.StepActs(e, i);
    if e.state == EvReadEvent2 { RepliesAskNothing(e, IM.At(i.rx, 0)); }
  }

  lemma RepliesAskNothing(e: EventHandler, b: Octet)
    ensures AsksNothing(EM.ReadStatusCode(e, b).acts) && AsksNothing(EM.ReadMemoryByte(e, b).acts)
    ensures e.state == EvReadEvent2 ==> EM.ReadStatusCode(e, b).e.state != EvInactive0 && EM.ReadMemoryByte(e, b).e.state != EvInactive0
  {
    hide EM.Signal, Bit, EM.NextBit, EM.CountBits, AsksNothing, EM.Indications;
    forall x
      ensures AsksNothing(EM.Signal(x).acts) && EM.Signal(x).e.state == EvIdle1
    {
      EM.SignalActs(x);
      IndicationsAskNothing(EM.Signal(x).acts);
      EventReadout.SignalIdle(x);
    }
    IndicationsAskNothing([]);
    assert EM.Indications([]) by { NoIndications(); }
  }

  lemma NoIndications()
    ensures EM.Indications([])
  {
  }

  lemma IndicationsAskNothing(acts: seq<Act>)
    ensures EM.Indications(acts) ==> AsksNothing(acts)
  {
  }

  // ---- the OD handler's turns ----

  // One command at a time, of a kind that is written to the device.
  ghost predicate OneCommand(s: Dl) {
    || (s.cmd.code == CodeNone && s.cmd.state == CmdIdle1)
    || (s.cmd.code in {CodePdOutValid, CodePdOutInvalid, CodeDeviceMode} && s.cmd.state == CmdMasterCommand2 && s.od.state != OdCommand2)
  }

  ghost predicate Working(s: Dl) {
    && Fits(s) && !s.mode.comLost && OneCommand(s) && s.cmd.active
    && s.od.active && s.od.state != OdInactive0 && s.od.addr <= 31
    && s.isdu.active && s.isdu.state != IsduInactive0
    && s.ev.active && s.ev.state != EvInactive0 && EventReadout.AddressOk(s.ev)
  }

  // Between two messages: the ISDU handler has no error to report on a reply.
  ghost predicate Between(s: Dl) { Working(s) && (s.od.state == OdIsdu1 ==> s.isdu.state != IsduError4) }

  // From s to t one request is made, which the next message will carry; or none.
  ghost predicate AskedOnce(s: Dl, t: Dl) {
    && s.log <= t.log && SameLayout(s, t) && Messages(New(s, t)) == []
    && var r := Requests(New(s, t)); |r| == 1 && Proper(r[0], s.mh.odLen) && Message(t) == Carrier(r[0], s.typeOctet, PdOut(s))
  }

  ghost predicate AskedNobody(s: Dl, t: Dl) {
    s.log <= t.log && SameLayout(s, t) && Messages(New(s, t)) == [] && Requests(New(s, t)) == []
  }

  lemma IsduTurn(s: Dl)
    requires Working(s) && s.od.trigger != TrigNone && (s.od.trigger == DeviceMessage ==> s.isdu.state != IsduError4)
    ensures var t := ToIsdu(s);
      && t == s.(isdu := t.isdu, mh := t.mh, tx := t.tx, od := t.od, log := t.log) && t.od.state == s.od.state && Working(t)
      && (if s.od.trigger == MasterMessage then AskedOnce(s, t) && t.isdu.state != IsduError4 else AskedNobody(s, t))
  {
    hide IM.Step, Perform, Request, Message, Asks, AsksNothing, Requests, Messages, EventReadout.AddressOk, Proper;
    var a := Log(s, [IsduTrig(IsduInput(s))]);
    var c, i := IM.Ctx(a.isdu, a.mh.rw), IsduInput(a);
    var o := IM.Step(c, i);
    IsduCallFrame(a);
    var b := a.(isdu := o.c.h, mh := a.mh.(rw := o.c.rw));
    if s.od.trigger == MasterMessage {
      IsduAsks(c, i);
      AskedBy(s, b, IsduTrig(IsduInput(s)), o.acts);
    } else {
      IsduHears(c, i);
      SilentBy(s, b, IsduTrig(IsduInput(s)), o.acts);
    }
  }

  // Acts with one request performed after a mark.
  lemma AskedBy(s: Dl, b: Dl, mark: Act, acts: seq<Act>)
    requires Fits(s) && b.log == s.log + [mark] && (mark.IsduTrig? || mark.EventTrig? || mark.CmdTrig?)
    requires b.tx == s.tx && b.od == s.od && b.pd == s.pd && b.typeOctet == s.typeOctet && b.mh.odLen == s.mh.odLen
    requires Asks(acts, s.mh.odLen)
    ensures var t := Perform(b, acts); AskedOnce(s, t) && Fits(t) && t.od.trigger == s.od.trigger
  {
    hide Request, Message, Requests, Messages;
    PerformOne(b, acts);
    RequestMakes(b, acts[0]);
    RequestFrame(b, acts[0]);
    var t := Perform(b, acts);
    assert t.log == s.log + ([mark] + acts);
    assert New(s, t) == [mark] + acts;
    BothJoined([mark], acts);
    NeitherIn([mark]);
    OneRequest(acts);
    assert Message(t) == Message(Request(b, acts[0])) by { MessageOf(t, Request(b, acts[0])); }
  }

  lemma MessageOf(s: Dl, t: Dl)
    requires s.tx == t.tx && s.od.txLen == t.od.txLen && s.pd == t.pd
    ensures Message(s) == Message(t)
  {
  }

  lemma SilentBy(s: Dl, b: Dl, mark: Act, acts: seq<Act>)
    requires Fits(s) && b.log == s.log + [mark] && (mark.IsduTrig? || mark.EventTrig? || mark.CmdTrig?)
    requires b.tx == s.tx && b.od == s.od && b.pd == s.pd && b.typeOctet == s.typeOctet && b.mh.odLen == s.mh.odLen
    requires AsksNothing(acts)
    ensures var t := Perform(b, acts); AskedNobody(s, t) && Fits(t) && t == Log(b, acts)
  {
    hide Request, Requests, Messages;
    PerformNone(b, acts);
    var t := Perform(b, acts);
    assert t.log == s.log + ([mark] + acts);
    assert New(s, t) == [mark] + acts;
    BothJoined([mark], acts);
    NeitherIn([mark]);
    NeitherIn(acts);
  }

  lemma EventTurn(s: Dl)
    requires Working(s) && s.od.trigger != TrigNone
    ensures var t := ToEvents(s);
      && t == s.(ev := t.ev, tx := t.tx, od := t.od, log := t.log) && t.od.state == s.od.state && t.ev.flag == s.ev.flag && Working(t)
      && (if s.od.trigger == MasterMessage then AskedOnce(s, t) else AskedNobody(s, t))
  {
    hide EM.Step, Perform, Request, Message, Asks, AsksNothing, Requests, Messages, EventReadout.AddressOk, Proper;
    var a := Log(s, [EventTrig(EventInput(s))]);
    var i := EventInput(a);
    var o := EM.Step(a.ev, i);
    EvCallFrame(a);
    EM.StepActs(a.ev, i);
    var b := a.(ev := o.e);
    if s.od.trigger == MasterMessage {
      EventsAsk(a.ev, i);
      AskedBy(s, b, EventTrig(EventInput(s)), o.acts);
    } else {
      EventsHear(a.ev, i);
      SilentBy(s, b, EventTrig(EventInput(s)), o.acts);
    }
  }

  lemma CommandTurn(s: Dl)
    requires Working(s) && s.cmd.code != CodeNone
    ensures var t := ToCommand(s);
      && t == s.(cmd := t.cmd, tx := t.tx, od := t.od, log := t.log) && t.od.state == s.od.state
      && t.cmd.code == CodeNone && t.cmd.state == CmdIdle1 && Working(SetOd(t, OdCommand2)) && AskedOnce(s, t)
  {
    hide Perform, Request, Message, Requests, Messages, EventReadout.AddressOk, IM.Payload;
    var a := Log(s, [CmdTrig]);
    CmdCallFrame(a);
    assert Asks(CommandActs(a), s.mh.odLen);
    AskedBy(s, a, CmdTrig, CommandActs(a));
    var t, u := ToCommand(s), Perform(a, CommandActs(a));
    MessageOf(t, u);
  }

  // Its own state and trigger play no part.
  lemma OnlyState(s: Dl, t: Dl, u: Dl)
    requires u == t.(od := t.od.(state := u.od.state, trigger := u.od.trigger))
    ensures Fits(u) <==> Fits(t)
    ensures AskedOnce(s, u) <==> AskedOnce(s, t)
    ensures AskedNobody(s, u) <==> AskedNobody(s, t)
  {
    hide Requests, Messages;
    MessageOf(u, t);
  }

  lemma NothingAsked(s: Dl)
    ensures AskedNobody(s, s)
  {
    assert New(s, s) == [];
  }

  lemma ReportAsksNobody(s: Dl)
    ensures var t := ReportMasterCommand(s, NoError);
      AskedNobody(s, t) && t == s.(cmd := s.cmd.(masterCommand := MASTERCMD_NONE), log := t.log) && (Fits(s) ==> Fits(t))
  {
    hide Requests, Messages;
    var c := s.cmd.masterCommand;
    var t := ReportMasterCommand(s, NoError);
    ReportFrame(s, NoError);
    if t.log == s.log {
      assert New(s, t) == [];
    } else {
      assert New(s, t) == [DevicemodeCnf(NoError, c)];
    }
    NeitherIn(New(s, t));
  }

  // Given a reply, the OD handler asks for nothing, and looks at events exactly
  // if the reply reported any.
  lemma DeviceTurn(s: Dl)
    requires Between(s)
    ensures var t := TriggerOd(s, DeviceMessage);
      && Working(t) && AskedNobody(s, t) && SameSession(s, t)
      && t.od.state in {OdIsdu1, OdEvent3} && (t.od.state == OdEvent3 <==> t.ev.flag)
  {
    hide ToIsdu, ToEvents, ToCommand, ReportMasterCommand, AskedNobody, Fits, SameSession, EventReadout.AddressOk;
    var a := SetTrigger(s, DeviceMessage);
    var t := TriggerOd(s, DeviceMessage);
    TriggerFrame(s, DeviceMessage);
    FlagIs(s, t);
    OnlyState(s, s, a);
    NothingAsked(a);
    match s.od.state {
      case OdIsdu1 =>
        IsduTurn(a);
        NobodyFrom(s, a, ToIsdu(a));
        OnlyState(s, ToIsdu(a), t);
      case OdCommand2 =>
        var b := SetTrigger(a, TrigNone);
        OnlyState(a, a, b);
        ReportAsksNobody(b);
        NobodyFrom(s, b, ReportMasterCommand(b, NoError));
        OnlyState(s, ReportMasterCommand(b, NoError), t);
      case OdEvent3 =>
        if s.ev.flag {
          EventTurn(a);
          NobodyFrom(s, a, ToEvents(a));
          OnlyState(s, ToEvents(a), t);
        } else {
          NothingAsked(s);
          OnlyState(s, s, t);
        }
    }
  }

  // Turns of a state that differs in the OD handler's state only.
  lemma NobodyFrom(s: Dl, a: Dl, t: Dl)
    requires a == s.(od := s.od.(state := a.od.state, trigger := a.od.trigger)) && AskedNobody(a, t)
    ensures AskedNobody(s, t)
  {
  }

  lemma FlagIs(s: Dl, t: Dl)
    requires SameSession(s, t)
    ensures t.ev.flag == s.ev.flag
  {
  }

  // Asked for the next message it asks one handler.
  lemma MasterTurn(s: Dl)
    requires Working(s) && s.od.state in {OdIsdu1, OdEvent3} && (s.od.state == OdEvent3 <==> s.ev.flag)
    ensures var t := TriggerOd(s, MasterMessage); Between(t) && AskedOnce(s, t) && SameSession(s, t)
  {
    hide ToIsdu, ToEvents, ToCommand, AskedOnce, Fits, SameSession, EventReadout.AddressOk;
    var a := SetTrigger(s, MasterMessage);
    var t := TriggerOd(s, MasterMessage);
    TriggerFrame(s, MasterMessage);
    OnlyState(s, s, a);
    if CommandDue(a) {
      CommandTurn(a);
      OnceFrom(s, a, ToCommand(a));
      OnlyState(s, ToCommand(a), t);
    } else if s.od.state == OdIsdu1 {
      IsduTurn(a);
      OnceFrom(s, a, ToIsdu(a));
      OnlyState(s, ToIsdu(a), t);
    } else {
      EventTurn(a);
      OnceFrom(s, a, ToEvents(a));
      OnlyState(s, ToEvents(a), t);
    }
  }

  lemma OnceFrom(s: Dl, a: Dl, t: Dl)
    requires a == s.(od := s.od.(state := a.od.state, trigger := a.od.trigger)) && AskedOnce(a, t)
    ensures AskedOnce(s, t)
  {
  }

  // ---- runs ----

  // From s to t every request has become one new message, in order.
  ghost predicate Told(s: Dl, t: Dl) {
    && s.log <= t.log && SameLayout(s, t)
    && var r := Requests(New(s, t));
       && (forall k :: 0 <= k < |r| ==> Proper(r[k], s.mh.odLen))
       && Messages(New(s, t)) == Carriers(r, s.typeOctet, PdOut(s))
  }

  lemma ToldOn(s: Dl, t: Dl, u: Dl)
    requires Told(s, t) && Told(t, u)
    ensures Told(s, u)
  {
    hide Requests, Messages, PdOut, Carrier;
    NewOn(s, t, u);
    BothJoined(New(s, t), New(t, u));
    var a, b := Requests(New(s, t)), Requests(New(t, u));
    assert Carriers(a + b, s.typeOctet, PdOut(s)) == Carriers(a, s.typeOctet, PdOut(s)) + Carriers(b, s.typeOctet, PdOut(s));
  }

  lemma NobodyTold(s: Dl, t: Dl)
    requires AskedNobody(s, t)
    ensures Told(s, t)
  {
    hide Requests, Messages;
  }

  // Entries that are neither requests nor new messages.
  lemma Quietly(s: Dl, t: Dl, acts: seq<Act>)
    requires t.log == s.log + acts && AsksNothing(acts) && SameLayout(s, t)
    ensures AskedNobody(s, t)
  {
    hide Requests, Messages;
    assert New(s, t) == acts;
    NeitherIn(acts);
  }

  // The reply is dealt with and the next message made ready.
  lemma ExchangeTells(s: Dl)
    requires Between(s)
    ensures var t := Exchange(s); Between(t) && Told(s, t)
  {
    hide TriggerOd, Message, Requests, Messages, IM.At, SameSession, EventReadout.AddressOk, Carrier;
    var n := NoteReply(s);
    assert n.log == s.log + [FlagInd(n.ev.flag), ControlInd(n.mh.cks % 0x80 < 0x40)];
    Quietly(s, n, [FlagInd(n.ev.flag), ControlInd(n.mh.cks % 0x80 < 0x40)]);
    AddressApart(s.ev, n.ev);
    DeviceTurn(n);
    var d := TriggerOd(n, DeviceMessage);
    MasterTurn(d);
    var m := TriggerOd(d, MasterMessage);
    var t := SendNext(m);
    NobodyTold(s, n);
    NobodyTold(n, d);
    ToldOn(s, n, d);
    MessageGoes(d, m, t);
    ToldOn(s, d, t);
  }

  lemma AddressApart(e: EventHandler, f: EventHandler)
    requires f == e.(flag := f.flag)
    ensures EventReadout.AddressOk(f) <==> EventReadout.AddressOk(e)
  {
  }

  lemma MessageGoes(s: Dl, m: Dl, t: Dl)
    requires AskedOnce(s, m) && t == SendNext(m)
    ensures Told(s, t)
  {
    hide Message, Requests, Messages, Carrier;
    var a := Download(Message(m));
    assert New(s, t) == New(s, m) + [a];
    BothJoined(New(s, m), [a]);
    Single(a);
    assert Requests(New(s, t)) == Requests(New(s, m)) + [];
  }

  lemma Single(a: Act)
    requires a.Download?
    ensures Requests([a]) == [] && Messages([a]) == [a.next]
  {
    assert [a][..0] == [];
  }

  // No command is on its way, so another may be asked for.
  ghost predicate Free(s: Dl) { s.cmd.code == CodeNone && s.od.state != OdCommand2 }

  // Commands come one at a time, and are of the kinds that are written.
  ghost predicate Mindful(s: Dl, e: Event) {
    && (e.ControlService? ==> e.code in {CodeNone, CodeDeviceMode} || (e.code in {CodePdOutValid, CodePdOutInvalid} && Free(s)))
    && (e.DevicemodeService? ==> Free(s))
  }

  lemma RequestTells(s: Dl, e: Event)
    requires Between(s) && AwaitingReply(s) && WellFormedEvent(e) && Regular(e) && (e.IsduService? || e.PageService? || e.ParamService?)
    ensures var t := Dispatch(s, e); Between(t) && AskedNobody(s, t)
  {
    hide Requests, Messages, EventReadout.AddressOk, IsduCoding.EncodeRequest, IM.TotalSegments, Zeros;
    var t := Dispatch(s, e);
    assert s.log + [] == s.log;
    Quietly(s, t, t.log[|s.log|..]);
  }

  lemma CommandTells(s: Dl, e: Event)
    requires Between(s) && (e.ControlService? || e.DevicemodeService?) && Mindful(s, e)
    ensures var t := Dispatch(s, e); Between(t) && AskedNobody(s, t)
  {
    hide Requests, Messages, EventReadout.AddressOk, Perform, IM.Payload;
    var t := Dispatch(s, e);
    assert s.log + [] == s.log;
    Quietly(s, t, t.log[|s.log|..]);
  }

  lemma ServiceTells(s: Dl, e: Event)
    requires Between(s) && AwaitingReply(s) && WellFormedEvent(e) && Regular(e) && Service(e) && Mindful(s, e)
    ensures var t := Dispatch(s, e); Between(t) && AskedNobody(s, t)
  {
    hide Dispatch, Between, AskedNobody, Mindful, AwaitingReply;
    if e.ControlService? || e.DevicemodeService? { CommandTells(s, e); } else { RequestTells(s, e); }
  }

  lemma ReplyTells(s: Dl, rx: seq<Octet>)
    requires Between(s) && AwaitingReply(s)
    ensures var t := Dispatch(s, Received(rx)); Between(t) && Told(s, t)
  {
    hide Exchange, WriteParam, Retry, LoseLink, Told, Between;
    var g := Mh(SetReady(s.(rx := rx), true), MhAwReply16);
    BetweenApart(s, g);
    ExchangeTells(g);
    var t := SetReady(Exchange(g), false);
    BetweenApart(Exchange(g), t);
    ReadyApart(s, g, Exchange(g), t);
  }

  lemma BetweenApart(s: Dl, t: Dl)
    requires Between(s) && t == s.(mh := s.mh.(state := t.mh.state, retry := t.mh.retry), link := t.link, rx := t.rx, log := t.log)
    ensures Between(t) && SameLayout(s, t)
  {
    hide EventReadout.AddressOk;
  }

  // At most a resend.
  ghost predicate SentAgain(s: Dl, t: Dl) {
    && t == s.(mh := s.mh.(state := t.mh.state, retry := t.mh.retry), link := t.link, log := t.log)
    && t.log in {s.log, s.log + [Resend]}
  }

  lemma FaultCall(g: Dl)
    requires g.mh.state in {MhResponse15, MhAwReply16} && g.mh.cmd !in {MhCmdStartup, MhCmdInactive} && g.mh.rw != RwWriteParam
    requires !g.link.dataReady && LineFault(g)
    ensures MhCall(g) == if g.mh.retry >= 3 then LoseLink(Mh(g, MhAwReply16)) else Retry(Mh(g, MhAwReply16))
  {
    hide Exchange, WriteParam, Retry, LoseLink;
  }

  lemma ErrorIs(s: Dl, e: Event)
    requires AwaitingReply(s) && Error(e) && !Lost(Dispatch(s, e))
    ensures SentAgain(s, Dispatch(s, e))
  {
    hide MhCall;
    forall link: LinkFlags | !link.dataReady && (link.rxTimeout || link.rxError || link.txError)
      ensures var g := s.(link := link);
        MhCall(g) == if g.mh.retry >= 3 then LoseLink(Mh(g, MhAwReply16)) else Retry(Mh(g, MhAwReply16))
    {
      FaultCall(s.(link := link));
    }
  }

  // Errors, expiries and turns with nothing received.
  lemma QuietIs(s: Dl, e: Event)
    requires AwaitingReply(s) && !Service(e) && !e.Received? && Regular(e) && WellFormedEvent(e)
    requires !Lost(Dispatch(s, e))
    ensures SentAgain(s, Dispatch(s, e))
  {
    hide Exchange, WriteParam, Retry;
    if Error(e) { ErrorIs(s, e); }
  }

  lemma QuietTells(s: Dl, e: Event)
    requires Between(s) && AwaitingReply(s) && !Service(e) && !e.Received? && Regular(e) && WellFormedEvent(e)
    requires !Lost(Dispatch(s, e))
    ensures var t := Dispatch(s, e); Between(t) && Told(s, t)
  {
    hide Dispatch, Told, Between, AwaitingReply, Lost, Requests, Messages;
    var t := Dispatch(s, e);
    QuietIs(s, e);
    assert s.log + [] == s.log;
    BetweenApart(s, t);
    Quietly(s, t, if t.log == s.log then [] else [Resend]);
    NobodyTold(s, t);
  }

  lemma ReadyApart(s: Dl, g: Dl, u: Dl, t: Dl)
    requires Told(g, u) && g == s.(mh := g.mh, link := g.link, rx := g.rx) && g.mh.odLen == s.mh.odLen && t == u.(link := t.link)
    ensures Told(s, t)
  {
    hide Requests, Messages;
    assert New(s, t) == New(g, u);
  }

  // The layers above go on commanding one at a time.
  ghost predicate MindfulRun(s: Dl, es: seq<Event>)
    requires forall e :: e in es ==> WellFormedEvent(e)
  {
    forall k :: 0 <= k < |es| ==> Mindful(Run(s, es[..k]), es[k])
  }

  // On every run of a session, however services, commands, event readouts, errors
  // and resends fall, until the link is lost: the new messages are the handlers'
  // requests one for one, in order, each with its control octet, the M-sequence
  // type, the process data and what the request writes.
  lemma {:induction false} OneForOne(s: Dl, es: seq<Event>)
    requires Between(s) && AwaitingReply(s) && s.mh.retry <= 3
    requires (forall e :: e in es ==> WellFormedEvent(e) && Regular(e)) && MindfulRun(s, es)
    ensures var t := Run(s, es); Lost(t) || (Between(t) && AwaitingReply(t) && Told(s, t))
  {
    hide Dispatch, Regular, Mindful, Between, Told, AwaitingReply, Lost;
    if es == [] {
      NothingAsked(s);
      NobodyTold(s, s);
    } else {
      var front, e := es[..|es| - 1], es[|es| - 1];
      assert forall k :: 0 <= k < |front| ==> front[..k] == es[..k];
      OneForOne(s, front);
      var before := Run(s, front);
      assert Mindful(before, e);
      LostExactly(s, es);
      if Lost(before) {
        LostStays(before, e);
      } else if Service(e) {
        ServiceTells(before, e);
        NobodyTold(before, Dispatch(before, e));
        ToldOn(s, before, Run(s, es));
      } else if !Lost(Run(s, es)) {
        if e.Received? { ReplyTells(before, e.rx); } else { QuietTells(before, e); }
        ToldOn(s, before, Run(s, es));
      }
    }
  }

  // ---- why commands must come one at a time ----

  // A command asked for while another's message is out.
  ghost predicate Blocked(s: Dl) { s.od.active && s.od.state == OdCommand2 && s.cmd.code != CodeNone }

  lemma SecondCommand(s: Dl, code: ControlCode)
    requires s.od.active && s.od.state == OdCommand2 && s.cmd.active && s.cmd.state == CmdIdle1
    requires code in {CodePdOutValid, CodePdOutInvalid}
    ensures Blocked(Dispatch(s, ControlService(code)))
  {
  }

  // A trigger is passed on to nobody then.
  lemma BlockedTurn(s: Dl, t: Trigger)
    requires Blocked(s) && t != TrigNone
    ensures TriggerOd(s, t) == SetTrigger(s, TrigNone)
  {
  }

  // From s to t nobody has been asked.
  ghost predicate StillBlocked(s: Dl, t: Dl) {
    && Blocked(t) && t.cmd == s.cmd && t.tx == s.tx && t.od.txLen == s.od.txLen && t.pd == s.pd
    && s.log <= t.log && Requests(New(s, t)) == []
  }

  lemma BlockedOn(s: Dl, t: Dl, u: Dl)
    requires StillBlocked(s, t) && StillBlocked(t, u)
    ensures StillBlocked(s, u)
  {
    hide Requests;
    NewOn(s, t, u);
    BothJoined(New(s, t), New(t, u));
  }

  lemma {:induction false} NoRequest(acts: seq<Act>)
    requires forall k :: 0 <= k < |acts| ==> !acts[k].OdRequest?
    ensures Requests(acts) == []
  {
    if acts != [] { NoRequest(acts[..|acts| - 1]); }
  }

  lemma BlockedReply(s: Dl, rx: seq<Octet>)
    requires Blocked(s) && AwaitingReply(s)
    ensures StillBlocked(s, Dispatch(s, Received(rx)))
  {
    hide Requests, Message, TriggerOd, WriteParam, IM.At;
    var n := NoteReply(Mh(SetReady(s.(rx := rx), true), MhAwReply16));
    BlockedTurn(n, DeviceMessage);
    BlockedTurn(SetTrigger(n, TrigNone), MasterMessage);
    NoRequest(New(s, Dispatch(s, Received(rx))));
  }

  lemma BlockedService(s: Dl, e: Event)
    requires Blocked(s) && WellFormedEvent(e) && Regular(e) && Service(e) && !e.ControlService? && !e.DevicemodeService?
    requires s.mh.state != MhStartup2
    ensures StillBlocked(s, Dispatch(s, e))
  {
    hide Requests, IsduCoding.EncodeRequest, IM.TotalSegments, Zeros;
    assert s.log + [] == s.log;
    NoRequest(New(s, Dispatch(s, e)));
  }

  lemma BlockedStep(s: Dl, e: Event)
    requires Blocked(s) && AwaitingReply(s) && WellFormedEvent(e) && Regular(e) && !e.ControlService? && !e.DevicemodeService?
    ensures Lost(Dispatch(s, e)) || StillBlocked(s, Dispatch(s, e))
  {
    hide Requests, Dispatch, Lost, AwaitingReply;
    var u := Dispatch(s, e);
    if e.Received? {
      BlockedReply(s, e.rx);
    } else if Service(e) {
      assert s.mh.state != MhStartup2 by { AwaitingIs(s); }
      BlockedService(s, e);
    } else if !Lost(u) {
      QuietIs(s, e);
      assert s.log + [] == s.log;
      NoRequest(New(s, u));
    }
  }

  lemma AwaitingIs(s: Dl)
    requires AwaitingReply(s)
    ensures s.mh.state != MhStartup2
  {
  }

  // And so on every run, until another command is asked for or the link is lost:
  // no handler is asked for anything, and the same message goes out again and
  // again.
  lemma {:induction false} CommandBlocks(s: Dl, es: seq<Event>)
    requires Blocked(s) && AwaitingReply(s) && s.mh.retry <= 3
    requires forall e :: e in es ==> WellFormedEvent(e) && Regular(e) && !e.ControlService? && !e.DevicemodeService?
    ensures Lost(Run(s, es)) || StillBlocked(s, Run(s, es))
  {
    hide Dispatch, Regular, AwaitingReply, Lost, StillBlocked;
    if es == [] {
      assert StillBlocked(s, s) by { StaysSo(s); }
    } else {
      var front, e := es[..|es| - 1], es[|es| - 1];
      CommandBlocks(s, front);
      LostExactly(s, front);
      var before := Run(s, front);
      if Lost(before) {
        LostStays(before, e);
      } else {
        assert Blocked(before) by { BlockedIs(s, before); }
        BlockedStep(before, e);
        if !Lost(Run(s, es)) { BlockedOn(s, before, Run(s, es)); }
      }
    }
  }

  lemma StaysSo(s: Dl)
    requires Blocked(s)
    ensures StillBlocked(s, s)
  {
    assert New(s, s) == [];
  }

  lemma BlockedIs(s: Dl, t: Dl)
    requires StillBlocked(s, t)
    ensures Blocked(t)
  {
  }

  // ---- from the start of a session ----

  // The first message carries a request too.
  lemma {:induction false} FirstTells(s: Dl)
    requires LinkUp.Begun(s, false) && SharedChannel.EventsAtRest(s.ev) && s.od.addr <= 31
    ensures var t := Dispatch(s, MessageEvent); Between(t) && AwaitingReply(t) && t.mh.retry == 0 && Told(s, t)
  {
    hide TriggerOd, Message, AskedOnce, Between, AwaitingReply, Told;
    LinkUp.ActiveIs(s);
    BeginsWorking(s);
    MasterTurn(s);
    var m := TriggerOd(s, MasterMessage);
    FirstMessageOut(s, MessageEvent);
    FirstGoes(s, m, Dispatch(s, MessageEvent));
    TriggerFrame(s, MasterMessage);
    BetweenApart(m, Dispatch(s, MessageEvent));
  }

  lemma BeginsWorking(s: Dl)
    requires LinkUp.Begun(s, false) && SharedChannel.EventsAtRest(s.ev) && s.od.addr <= 31
    requires s.isdu.active && s.isdu.state != IsduInactive0
    ensures Working(s) && s.od.state == OdIsdu1 && !s.ev.flag && !LineFault(s)
    ensures s.mh.state == MhOperate12 && s.mh.cmd == MhCmdOperate && s.mh.rw != RwWriteParam
  {
    hide IsduAccounting.Inv, LinkUp.Switched;
  }

  lemma FirstGoes(s: Dl, m: Dl, t: Dl)
    requires AskedOnce(s, m) && t.log == m.log + [RetryCleared, Transfer(Message(ClearRetry(m)))]
    requires t == m.(mh := t.mh, link := t.link, log := t.log) && t.mh.odLen == m.mh.odLen
    ensures Told(s, t)
  {
    hide Message, Requests, Messages, Carrier;
    var a := Transfer(Message(m));
    assert Message(ClearRetry(m)) == Message(m) by { MessageOf(ClearRetry(m), m); }
    assert New(s, t) == New(s, m) + [RetryCleared, a];
    BothJoined(New(s, m), [RetryCleared, a]);
    TransferLast(a);
    assert Requests(New(s, t)) == Requests(New(s, m)) + [];
  }

  lemma TransferLast(a: Act)
    requires a.Transfer?
    ensures Requests([RetryCleared, a]) == [] && Messages([RetryCleared, a]) == [a.message]
  {
    assert [RetryCleared, a][..1] == [RetryCleared] && [RetryCleared][..0] == [];
    NeitherIn([RetryCleared]);
  }

  // A fresh link comes to such a session, and so its messages carry the requests
  // one for one from OPERATE_12 on.
  lemma {:induction false} SessionMessagesReached(s: Dl, es: seq<Event>)
    requires LinkUp.Unplugged(s) && !s.ev.flag && s.ev.state == EvInactive0 && !s.ev.confirmation && s.od.addr <= 31
    requires var t := Run(s, LinkUp.CONNECT + [MessageEvent]);
      (forall e :: e in es ==> WellFormedEvent(e) && Regular(e)) && MindfulRun(t, es)
    ensures var begin := Run(s, LinkUp.CONNECT); var t := Run(s, LinkUp.CONNECT + [MessageEvent]); var u := Run(t, es);
      begin.mh.state == MhOperate12 && (Lost(u) || Told(begin, u))
  {
    hide Run, Dispatch, Regular, Mindful, Between, Told, AwaitingReply, Lost, LinkUp.Unplugged, LinkUp.Begun, IsduAccounting.AllowedRun, MindfulRun;
    LinkUp.Connects(s);
    LinkUp.CalmReached(s);
    var begin := Run(s, LinkUp.CONNECT);
    assert Run(s, LinkUp.CONNECT + [MessageEvent]) == Dispatch(begin, MessageEvent) by { OneAfter(s); }
    FirstTells(begin);
    OneForOne(Dispatch(begin, MessageEvent), es);
    assert begin.mh.state == MhOperate12 by { BeginsAt(begin); }
    var u := Run(Dispatch(begin, MessageEvent), es);
    if !Lost(u) { ToldOn(begin, Dispatch(begin, MessageEvent), u); }
  }

  lemma BeginsAt(s: Dl)
    requires LinkUp.Begun(s, false)
    ensures s.mh.state == MhOperate12
  {
    hide IsduAccounting.Inv, LinkUp.Switched;
  }

  lemma OneAfter(s: Dl)
    ensures Run(s, LinkUp.CONNECT + [MessageEvent]) == Dispatch(Run(s, LinkUp.CONNECT), MessageEvent)
  {
    hide Dispatch;
    var all := LinkUp.CONNECT + [MessageEvent];
    assert all[..|all| - 1] == LinkUp.CONNECT;
  }
}
