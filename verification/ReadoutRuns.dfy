// Runs that meet the conditions of SharedChannel.ReadoutOnSharedChannel: a
// device that reports events with every reply and answers from its memory.
module ReadoutRuns {
  import opened Octets
  import opened DlTypes
  import opened LinkLayer
  import opened LinkFrames
  import opened OdMarks
  import opened OdInterleaving
  import opened SharedChannel
  import SharedChannelRuns
  import SessionEntry
  import IM = IsduMachine
  import EM = EventMachine
  import ER = EventReadout

  // ---- the event handler on a live link ----

  // Switched on, and asking only for what the memory has.
  ghost predicate On(e: EventHandler) { e.active && e.state != EvInactive0 && ER.AddressOk(e) }

  lemma StepOn(e: EventHandler, i: EvIn)
    requires On(e) && !i.comLost
    ensures On(EM.Step(e, i).e)
  {
    hide EM.ReadStatusCode, EM.ReadMemoryByte, IM.Payload, ER.AddressOk;
    ER.StepOk(e, i);
    EM.StepActs(e, i);
    ReadsStayOn(e, IM.At(i.rx, 0));
  }

  lemma ReadsStayOn(e: EventHandler, b: Octet)
    requires e.state == EvReadEvent2 || e.state == EvIdle1
    ensures EM.ReadStatusCode(e, b).e.state != EvInactive0 && EM.ReadMemoryByte(e, b).e.state != EvInactive0
  {
    hide Bit, EM.NextBit, EM.Signal, EM.CountBits;
    forall x
      ensures EM.Signal(x).e.state == EvIdle1
    {
      ER.SignalIdle(x);
    }
  }

  lemma {:induction false} RunOn(e: EventHandler, ins: seq<EvIn>)
    requires On(e) && forall i :: i in ins ==> !i.comLost
    ensures On(EM.Run(e, ins).e)
  {
    hide EM.Step, On;
    if ins != [] {
      RunOn(e, ins[..|ins| - 1]);
      assert !ins[|ins| - 1].comLost;
      StepOn(EM.Run(e, ins[..|ins| - 1]).e, ins[|ins| - 1]);
    }
  }

  // What it asks for: the octet at its address, or to confirm.
  lemma AskedIs(e: EventHandler, m: EvIn)
    requires On(e) && m.trigger == MasterMessage && !m.comLost
    ensures var o := EM.Step(e, m);
      && |o.acts| == 1 && o.acts[0].OdRequest? && o.acts[0].ctrl < 19
      && (o.e.state == EvReadEvent2 ==> o.acts[0] == ER.Read(o.e.addr))
      && (o.e.state != EvReadEvent2 ==> o.acts[0].ctrl == 0)
  {
    hide EM.ReadStatusCode, EM.ReadMemoryByte, IM.Payload;
  }

  // ---- the link ----

  // An event request or a confirmation is out.
  ghost predicate Pending(s: Dl, base: nat) {
    && Session(s, base) && s.mh.state in {MhResponse15, MhAwReply16} && !s.mode.comLost && s.od.active
    && s.od.state == OdEvent3 && s.ev.flag && s.cmd.code == CodeNone && 1 <= s.mh.odLen <= 32 && On(s.ev)
    && (s.ev.state == EvReadEvent2 ==> s.od.rxLen == s.mh.odLen)
  }

  // The octet the device has been asked for.
  function Wanted(s: Dl, mem: ER.Memory): Octet {
    if s.ev.state == EvReadEvent2 && s.ev.addr < 19 then mem[s.ev.addr] else mem[0]
  }

  // A full-length reply with that octet and the event flag.
  function Telling(s: Dl, mem: ER.Memory): (rx: seq<Octet>) {
    var last := s.od.rxLen + s.pd.rxLen;
    seq(last + 1, k => if k == 0 then Wanted(s, mem) else if k == last then 0x80 else 0)
  }

  function Told(s: Dl, mem: ER.Memory): Dl { NoteReply(SharedChannelRuns.Got(s, Telling(s, mem))) }

  lemma TellingFlags(s: Dl, mem: ER.Memory)
    requires EM.Detailed(mem[0]) && (s.ev.state == EvReadEvent2 ==> s.od.rxLen >= 1)
    ensures var n := Told(s, mem);
      && n.ev == s.ev.(flag := true) && n.od == s.od && n.cmd == s.cmd && n.mode == s.mode && n.mh.odLen == s.mh.odLen && n.pd == s.pd
      && s.log <= n.log && Marks(New(s, n)) == [FlagInd(true)] && EvInputs(New(s, n)) == []
      && IM.At(n.rx, 0) == Wanted(s, mem)
  {
    hide Marks, Inputs, EvInputs, Traffic, EvTraffic;
    var g := SharedChannelRuns.Got(s, Telling(s, mem));
    var n := NoteReply(g);
    var c := ControlInd(n.mh.cks % 0x80 < 0x40);
    assert n.log == g.log + [FlagInd(true)] + [c];
    OneMark(g, n, FlagInd(true), [c]);
    assert New(s, n) == New(g, n);
  }

  // A turn of the event handler.
  lemma EventTurn(s: Dl)
    requires On(s.ev) && !s.mode.comLost
    ensures var t := ToEvents(s); var o := EM.Step(s.ev, EventInput(s));
      && s.log <= t.log && Marks(New(s, t)) == [EventTrig(EventInput(s))] && EvInputs(New(s, t)) == [EventInput(s)]
      && SameSession(s, t) && t.cmd == s.cmd && t.od.state == s.od.state && t.ev == o.e && On(t.ev)
      && (s.od.trigger == MasterMessage && t.ev.state == EvReadEvent2 && s.mh.odLen <= 32 ==> t.od.rxLen == s.mh.odLen)
  {
    hide EM.Step, Marks, Inputs, EvInputs, Traffic, EvTraffic, IM.Run, EM.Run, New, Perform, On;
    EventsPass(s);
    var a := Log(s, [EventTrig(EventInput(s))]);
    EvCallFrame(a);
    StepOn(s.ev, EventInput(s));
    var o := EM.Step(s.ev, EventInput(s));
    if s.od.trigger == MasterMessage && o.e.state == EvReadEvent2 && s.mh.odLen <= 32 {
      AskedIs(s.ev, EventInput(s));
      assert o.acts == [o.acts[0]];
      ReadLength(a.(ev := o.e), o.acts);
    }
  }

  lemma {:induction false} ReadLength(s: Dl, acts: seq<Act>)
    requires |acts| == 1 && acts[0].OdRequest? && !acts[0].write && acts[0].ctrl < 19 && s.mh.odLen <= 32
    ensures Perform(s, acts).od.rxLen == s.mh.odLen
  {
    hide Blit;
    assert acts[1..] == [];
  }

  lemma PendingOn(s: Dl, base: nat)
    requires Pending(s, base) || SharedChannelRuns.Calm(s, base)
    ensures s.od.active && s.mh.rw != RwWriteParam && s.mh.cmd !in {MhCmdStartup, MhCmdInactive}
  {
    hide Marks, Inputs, EvInputs, Paired, Said, Open, On;
  }

  lemma DispatchIs(s: Dl, rx: seq<Octet>)
    requires s.mh.state in {MhResponse15, MhAwReply16} && s.mh.rw != RwWriteParam && s.mh.cmd !in {MhCmdStartup, MhCmdInactive}
    ensures Dispatch(s, Received(rx)) == SetReady(Exchange(SharedChannelRuns.Got(s, rx)), false)
  {
    hide Exchange, WriteParam, LoseLink, Retry;
  }

  lemma SendEnds(x: Dl)
    ensures var t := SetReady(SendNext(x), false);
      && x.log <= t.log && Marks(New(x, t)) == [] && EvInputs(New(x, t)) == []
      && t.od == x.od && t.ev == x.ev && t.cmd == x.cmd && t.mode == x.mode && t.mh == x.mh.(state := MhAwReply16) && t.pd == x.pd
  {
    hide Message, Marks, Inputs, EvInputs;
    var t := SetReady(SendNext(x), false);
    assert New(x, t) == [Download(Message(x))];
    NoMarks(New(x, t));
  }

  // What two stretches of a run add is what they add together.
  lemma Together(s: Dl, t: Dl, u: Dl)
    requires s.log <= t.log <= u.log
    ensures s.log <= u.log && Marks(New(s, u)) == Marks(New(s, t)) + Marks(New(t, u))
    ensures EvInputs(New(s, u)) == EvInputs(New(s, t)) + EvInputs(New(t, u))
  {
    hide Marks, Inputs, EvInputs;
    NewOn(s, t, u);
    Joined(New(s, t), New(t, u));
  }

  lemma SameParts(s: Dl, t: Dl)
    requires SameSession(s, t)
    ensures t.mode == s.mode && t.rx == s.rx && t.pd == s.pd && t.mh == s.mh.(rw := t.mh.rw) && t.od.active == s.od.active && t.ev.flag == s.ev.flag
  {
  }

  // The first reply that reports events goes to the ISDU handler; then the
  // event handler is asked.
  lemma FirstTold(s: Dl, base: nat, mem: ER.Memory)
    requires SharedChannelRuns.Calm(s, base) && EventsAtRest(s.ev) && EM.Detailed(mem[0])
    ensures var t := Dispatch(s, Received(Telling(s, mem))); var ins := EvInputs(New(s, t));
      && Pending(t, base) && Follows(s, t) && t.mh.odLen == s.mh.odLen && t.pd == s.pd
      && Held(Marks(New(s, t))) && |ins| == 1 && ins[0].trigger == MasterMessage && !ins[0].comLost
  {
    hide ToIsdu, ToEvents, Inputs, Marks, EvInputs, New, Session, Exchange, Follows, SameSession, IM.At, Dispatch, SendNext, Told, On,
      Telling, EM.Detailed, EM.Step;
    var rx := Telling(s, mem);
    var t := Dispatch(s, Received(rx));
    PendingOn(s, base);
    CyclicContinues(s, Received(rx), base);
    DispatchIs(s, rx);
    TellingFlags(s, mem);
    var n := Told(s, mem);
    assert Exchange(SharedChannelRuns.Got(s, rx)) == SendNext(TriggerOd(TriggerOd(n, DeviceMessage), MasterMessage)) by { ExchangeAs(s, mem); }
    var a := SetTrigger(n, DeviceMessage);
    SharedChannelRuns.ToIsduKeeps(a);
    IsduPasses(a);
    IsduTurn(a);
    SameParts(a, ToIsdu(a));
    var b := SetTrigger(SetOd(ToIsdu(a), OdEvent3), MasterMessage);
    assert On(b.ev) by { RestOn(b.ev); }
    EventTurn(b);
    SameParts(b, ToEvents(b));
    var x := SetTrigger(ToEvents(b), TrigNone);
    assert TriggerOd(TriggerOd(n, DeviceMessage), MasterMessage) == x;
    SendEnds(x);
    NewAs(n, a, ToIsdu(a), b);
    NewAs(b, b, ToEvents(b), x);
    Together(s, n, b);
    Together(s, b, x);
    Together(s, x, t);
    InputOf(b);
    HeldThree(IsduTrig(IsduInput(a)), EventTrig(EventInput(b)));
  }

  lemma ExchangeAs(s: Dl, mem: ER.Memory)
    ensures Exchange(SharedChannelRuns.Got(s, Telling(s, mem))) == SendNext(TriggerOd(TriggerOd(Told(s, mem), DeviceMessage), MasterMessage))
  {
    hide TriggerOd, SendNext, NoteReply, Telling;
  }

  lemma IsduTurn(s: Dl)
    ensures var t := ToIsdu(s); s.log <= t.log && Marks(New(s, t)) == [IsduTrig(IsduInput(s))] && EvInputs(New(s, t)) == [] && t.ev == s.ev
  {
    hide IM.Step, Marks, Inputs, EvInputs, Traffic, EvTraffic, IM.Run, EM.Run, New;
    IsduPasses(s);
    IsduCallFrame(Log(s, [IsduTrig(IsduInput(s))]));
  }

  lemma RestOn(e: EventHandler)
    requires EventsAtRest(e.(flag := false)) || EventsAtRest(e)
    ensures On(e)
  {
  }

  lemma InputOf(s: Dl)
    ensures EventInput(s).trigger == s.od.trigger && EventInput(s).comLost == s.mode.comLost && EventInput(s).rx == s.rx
  {
  }

  lemma HeldThree(x: Act, y: Act)
    requires !x.FlagInd? && !y.FlagInd?
    ensures Held([FlagInd(true)] + [x] + [y] + [])
  {
  }

  // A later one goes to the event handler, which is asked again.
  lemma NextTold(s: Dl, base: nat, mem: ER.Memory)
    requires Pending(s, base) && EM.Detailed(mem[0])
    ensures var t := Dispatch(s, Received(Telling(s, mem))); var ins := EvInputs(New(s, t));
      && Pending(t, base) && Follows(s, t) && t.mh.odLen == s.mh.odLen && t.pd == s.pd
      && Held(Marks(New(s, t))) && |ins| == 2 && ins[0].trigger == DeviceMessage && ins[1].trigger == MasterMessage
      && !ins[0].comLost && !ins[1].comLost && IM.At(ins[0].rx, 0) == Wanted(s, mem)
  {
    hide ToIsdu, ToEvents, Inputs, Marks, EvInputs, New, Session, Exchange, Follows, SameSession, IM.At, Dispatch, SendNext, Told, On,
      Telling, EM.Detailed, EM.Step;
    var rx := Telling(s, mem);
    var t := Dispatch(s, Received(rx));
    PendingOn(s, base);
    CyclicContinues(s, Received(rx), base);
    DispatchIs(s, rx);
    TellingFlags(s, mem);
    var n := Told(s, mem);
    ExchangeAs(s, mem);
    var a := SetTrigger(n, DeviceMessage);
    assert On(a.ev) by { FlagOn(s.ev); }
    EventTurn(a);
    SameParts(a, ToEvents(a));
    var b := SetTrigger(SetTrigger(ToEvents(a), TrigNone), MasterMessage);
    EventTurn(b);
    SameParts(b, ToEvents(b));
    var x := SetTrigger(ToEvents(b), TrigNone);
    assert TriggerOd(TriggerOd(n, DeviceMessage), MasterMessage) == x;
    SendEnds(x);
    NewAs(n, a, ToEvents(a), b);
    NewAs(b, b, ToEvents(b), x);
    Together(s, n, b);
    Together(s, b, x);
    Together(s, x, t);
    InputOf(a);
    InputOf(b);
    HeldThree(EventTrig(EventInput(a)), EventTrig(EventInput(b)));
  }

  lemma FlagOn(e: EventHandler)
    requires On(e)
    ensures On(e.(flag := true))
  {
  }

  // ---- a whole readout ----

  // What holds after the first j replies.
  ghost predicate ToldTo(s: Dl, t: Dl, base: nat, mem: ER.Memory, j: nat) {
    var ins := EvInputs(New(s, t));
    && Pending(t, base) && Follows(s, t) && t.mh.odLen == s.mh.odLen && Held(Marks(New(s, t)))
    && |ins| == 2 * j - 1 && ER.FromMemory(EM.Core(s.ev), ins, mem)
    && (forall k :: 0 <= k < |ins| ==> !ins[k].comLost && ins[k].trigger == Turn(k))
  }

  // The reply to the last request carries the octet it asked for.
  lemma LastAnswered(s: Dl, t: Dl, base: nat, mem: ER.Memory, j: nat, d: EvIn)
    requires j >= 1 && ToldTo(s, t, base, mem, j) && EventsAtRest(s.ev) && IM.At(d.rx, 0) == Wanted(t, mem)
    ensures var ins := EvInputs(New(s, t));
      ER.Answers(EM.Step(EM.Run(EM.Core(s.ev), ins[..2 * j - 2]).e, ins[2 * j - 2]).acts, d, mem)
  {
    hide EM.Step, EvInputs, Marks, New, IsduFollows, Session, ER.FromMemory, Held, On, IM.At;
    var ins := EvInputs(New(s, t));
    var e := EM.Core(s.ev);
    var before, m := EM.Run(e, ins[..2 * j - 2]), ins[2 * j - 2];
    assert ins == ins[..2 * j - 2] + [m];
    EM.RunAppend(e, ins[..2 * j - 2], [m]);
    EM.RunOne(before.e, m);
    assert On(e) by { RestOn(e); }
    RunOn(e, ins[..2 * j - 2]);
    AskedIs(before.e, m);
    assert EM.Core(t.ev) == EM.Step(before.e, m).e;
  }

  lemma {:induction false} MoreAnswered(e: EventHandler, ins: seq<EvIn>, d: EvIn, m: EvIn, mem: ER.Memory, j: nat)
    requires j >= 1 && |ins| == 2 * j - 1 && ER.FromMemory(e, ins, mem)
    requires ER.Answers(EM.Step(EM.Run(e, ins[..2 * j - 2]).e, ins[2 * j - 2]).acts, d, mem)
    ensures ER.FromMemory(e, ins + [d, m], mem)
  {
    hide EM.Step, EM.Run, ER.Answers;
    var all := ins + [d, m];
    forall k | 0 <= 2 * k && 2 * k + 1 < |all|
      ensures ER.Answers(EM.Step(EM.Run(e, all[..2 * k]).e, all[2 * k]).acts, all[2 * k + 1], mem)
    {
      assert all[..2 * k] == ins[..2 * k];
      if k < j - 1 { assert 2 * k + 1 < |ins|; }
    }
  }

  lemma ToldMore(s: Dl, t: Dl, base: nat, mem: ER.Memory, j: nat)
    requires j >= 1 && ToldTo(s, t, base, mem, j) && EventsAtRest(s.ev) && EM.Detailed(mem[0])
    ensures ToldTo(s, Dispatch(t, Received(Telling(t, mem))), base, mem, j + 1)
  {
    hide EM.Step, EM.Run, EvInputs, Marks, New, Follows, Session, ER.FromMemory, ER.Answers, Pending, Dispatch, Telling, EM.Detailed, Held;
    NextTold(t, base, mem);
    var u := Dispatch(t, Received(Telling(t, mem)));
    FollowsGrows(s, t);
    FollowsGrows(t, u);
    FollowsOn(s, t, u);
    Together(s, t, u);
    HeldBoth(Marks(New(s, t)), Marks(New(t, u)));
    var ins, more := EvInputs(New(s, t)), EvInputs(New(t, u));
    assert more == [more[0], more[1]];
    LastAnswered(s, t, base, mem, j, more[0]);
    MoreAnswered(EM.Core(s.ev), ins, more[0], more[1], mem, j);
  }

  lemma HeldBoth(a: seq<Act>, b: seq<Act>)
    requires Held(a) && Held(b)
    ensures Held(a + b)
  {
  }

  lemma FirstToldTo(s: Dl, base: nat, mem: ER.Memory)
    requires SharedChannelRuns.Calm(s, base) && EventsAtRest(s.ev) && EM.Detailed(mem[0])
    ensures ToldTo(s, Dispatch(s, Received(Telling(s, mem))), base, mem, 1)
  {
    hide EM.Step, EM.Run, EvInputs, Marks, New, Follows, Session, ER.Answers, Pending, Dispatch, Telling, EM.Detailed, Held;
    FirstTold(s, base, mem);
  }

  lemma {:induction false} TellingRun(s: Dl, base: nat, mem: ER.Memory, j: nat) returns (es: seq<Event>)
    requires SharedChannelRuns.Calm(s, base) && EventsAtRest(s.ev) && EM.Detailed(mem[0]) && j >= 1
    ensures (forall e :: e in es ==> WellFormedEvent(e) && Cyclic(e)) && ToldTo(s, Run(s, es), base, mem, j)
  {
    hide ToldTo, Dispatch, Telling, EM.Detailed, Run, SharedChannelRuns.Calm;
    if j == 1 {
      es := [Received(Telling(s, mem))];
      SessionEntry.RunPair(s, es[0], es[0]);
      FirstToldTo(s, base, mem);
    } else {
      var front := TellingRun(s, base, mem, j - 1);
      var t := Run(s, front);
      var e := Received(Telling(t, mem));
      es := front + [e];
      SessionEntry.RunPair(t, e, e);
      SessionEntry.RunAppend(s, front, [e]);
      ToldMore(s, t, base, mem, j - 1);
    }
  }

  // Whatever events the memory holds: from a calm session a device that reports
  // them with every reply, and answers from its memory, meets the conditions of
  // ReadoutOnSharedChannel, with no more triggers than the readout takes.
  lemma ReadoutPossible(s: Dl, base: nat, mem: ER.Memory)
    requires SharedChannelRuns.Calm(s, base) && EventsAtRest(s.ev) && EM.Detailed(mem[0]) && ER.SetBits(mem[0], 0) != []
    ensures exists es: seq<Event> :: ReadoutDue(s, es, base, mem) && |EvInputs(New(s, Run(s, es)))| == ER.TriggersFor(mem)
  {
    hide Run, EvInputs, Marks, New, Follows, Session, ER.FromMemory, EM.Detailed, Held, ER.SetBits, On;
    var j := 2 + 3 * |ER.SetBits(mem[0], 0)|;
    var es := TellingRun(s, base, mem, j);
    var ins := EvInputs(New(s, Run(s, es)));
    assert ins[..|ins|] == ins;
    assert ReadoutDue(s, es, base, mem);
  }
}
