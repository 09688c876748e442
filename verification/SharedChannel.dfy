// Whole ISDU transfers and event readouts on the on-request channel they share
// with each other and with commands.
module SharedChannel {
  import opened Octets
  import opened DlTypes
  import opened LinkLayer
  import opened OdMarks
  import opened OdInterleaving
  import IM = IsduMachine
  import EM = EventMachine
  import IsduCoding
  import IsduTransfer
  import EventReadout

  // ---- ISDU transfers ----

  // Alternating inputs, cut anywhere, alternate from the cut on.
  lemma CutInputs(done: seq<IsduIn>, ins: seq<IsduIn>, p: nat, odLen: nat)
    requires forall k :: 0 <= k < |done + ins| ==> (done + ins)[k].trigger == Turn(k)
    requires forall i :: i in done + ins ==> !i.comLost && i.odLen == odLen
    requires p <= |ins| && p == |done| % 2
    ensures p == 1 ==> ins[0].trigger == DeviceMessage
    ensures IsduTransfer.Alternating(ins[p..], odLen)
  {
    if p == 1 {
      assert (done + ins)[|done|] == ins[0];
    }
    forall k | 0 <= k < |ins[p..]|
      ensures var i := ins[p..][k];
        && i.trigger == (if k % 2 == 0 then MasterMessage else DeviceMessage)
        && i.odLen == odLen && !i.comLost
    {
      assert (done + ins)[|done| + p + k] == ins[p..][k];
    }
  }

  // 1 if the message out is the ISDU handler's, so that the next reply is too.
  function Owed(s: Dl): nat { if s.od.state == OdIsdu1 then 1 else 0 }

  lemma SteadyInputs(s: Dl, b: nat)
    requires Session(s, b) && !s.mode.comLost
    ensures b <= |s.log| && Paired(Marks(Said(s, b)))
    ensures forall i :: i in Inputs(Said(s, b)) ==> !i.comLost && i.odLen == s.mh.odLen
    ensures forall i :: i in EvInputs(Said(s, b)) ==> !i.comLost && i.odLen == s.mh.odLen
    ensures s.mh.state in {MhResponse15, MhAwReply16} ==> MessageOut(s, b)
  {
    hide Marks, Inputs, EvInputs, Paired, Said, MessageOut, ReplyIn;
  }

  // The ISDU handler's inputs from s on: they go on alternating where the
  // message already out leaves off, on a live link.
  lemma NewInputs(s: Dl, t: Dl, b: nat)
    requires Session(s, b) && Session(t, b) && !s.mode.comLost && !t.mode.comLost && t.mh.odLen == s.mh.odLen && s.log <= t.log
    requires s.mh.state in {MhResponse15, MhAwReply16} && Owed(s) <= |Inputs(New(s, t))|
    ensures var ins := Inputs(New(s, t));
      && (Owed(s) == 1 ==> ins[0].trigger == DeviceMessage)
      && IsduTransfer.Alternating(ins[Owed(s)..], s.mh.odLen)
  {
    hide Marks, Inputs, EvInputs, Paired, Said, New, IsduTransfer.Alternating, Session, Open;
    SteadyInputs(s, b);
    SteadyInputs(t, b);
    PairedAlternates(Marks(Said(s, b)));
    InputsOfMarks(Said(s, b));
    PairedAlternates(Marks(Said(t, b)));
    InputsOfMarks(Said(t, b));
    SaidOn(s, t, b);
    CutInputs(Inputs(Said(s, b)), Inputs(New(s, t)), Owed(s), s.mh.odLen);
  }

  // Idle requests while nothing is to be transferred.
  function Idles(k: nat): (w: seq<Act>)
    ensures |w| == k
  {
    if k == 0 then [] else Idles(k - 1) + [OdRequest(false, Isdu, FLOWCTRL_IDLE, [])]
  }

  lemma IdleStep(c: IM.Ctx, i: IsduIn)
    requires IsduTransfer.AtRest(c) && c.h.active
    ensures i.trigger == MasterMessage ==> IM.Step(c, i) == IM.Out(c, [OdRequest(false, Isdu, FLOWCTRL_IDLE, [])])
    ensures i.trigger == DeviceMessage ==> IM.Step(c, i) == IM.Out(c, [])
  {
  }

  // An idle handler with nothing to do stays idle and asks for nothing.
  lemma {:induction false} IdleRun(c: IM.Ctx, ins: seq<IsduIn>, odLen: nat)
    requires IsduTransfer.AtRest(c) && c.h.active && IsduTransfer.Alternating(ins, odLen)
    ensures var o := IM.Run(c, ins); o.c == c && o.acts == Idles((|ins| + 1) / 2)
  {
    hide IM.Step;
    if ins != [] {
      var front, i := ins[..|ins| - 1], ins[|ins| - 1];
      IdleRun(c, front, odLen);
      IdleStep(c, i);
      assert i.trigger == (if |front| % 2 == 0 then MasterMessage else DeviceMessage);
      assert |front| % 2 == 0 ==> (|ins| + 1) / 2 == (|front| + 1) / 2 + 1;
      assert |front| % 2 == 1 ==> (|ins| + 1) / 2 == (|front| + 1) / 2;
    }
  }

  // The reply to a message already out means nothing to a handler still idle.
  lemma {:induction false} OldReply(c: IM.Ctx, ins: seq<IsduIn>, p: nat)
    requires p <= 1 && p <= |ins| && (p == 1 ==> ins[0].trigger == DeviceMessage)
    requires c.h.state == IsduIdle1 && c.h.active && c.rw == RwIsduTransport
    ensures IM.Run(c, ins) == IM.Run(c, ins[p..])
  {
    if p == 1 {
      RunOne(c, ins[0]);
      IM.RunAppend(c, ins[..1], ins[1..]);
      assert ins[..1] == [ins[0]] && ins[..1] + ins[1..] == ins;
      var rest := IM.Run(c, ins[1..]);
      assert [] + rest.acts == rest.acts;
    }
  }

  // The inputs a conversation takes.
  function Needed(r: IsduCoding.Request, octets: seq<Octet>, odLen: nat, b: nat): nat
    requires IsduCoding.Encodable(r) && odLen >= 1
  {
    2 * CeilDiv(|IsduCoding.EncodeRequest(r)|, odLen) + 2 * (b + CeilDiv(|octets|, odLen))
  }

  // The device answers in time: busy b times, then with `octets`.
  ghost predicate Served(ins: seq<IsduIn>, r: IsduCoding.Request, octets: seq<Octet>, odLen: nat, b: nat)
    requires IsduCoding.Encodable(r) && 1 <= odLen && |ins| == Needed(r, octets, odLen, b)
  {
    var n := CeilDiv(|IsduCoding.EncodeRequest(r)|, odLen);
    n >= 1 && IsduTransfer.Replies(ins[2 * n..], octets, odLen, b) && IsduTransfer.InTime(IM.TimerStart(ins[2 * n - 1].now), ins[2 * n..])
  }

  // The whole traffic of a conversation.
  function Spoken(data: seq<Octet>, r: IsduCoding.Request, octets: seq<Octet>, odLen: nat, b: nat): seq<Act>
    requires IsduCoding.Encodable(r) && odLen >= 1 && IsduCoding.AnnouncedLength(octets) == Some(|octets|)
  {
    IsduTransfer.Writes(data, odLen, CeilDiv(|IsduCoding.EncodeRequest(r)|, odLen))
    + (IsduTransfer.Reads(b, CeilDiv(|octets|, odLen)) + [IsduTransfer.Confirmation(octets)])
  }

  // A conversation with whatever triggers come after it.
  lemma {:induction false} ConversationAndIdle(c: IM.Ctx, ins: seq<IsduIn>, r: IsduCoding.Request, octets: seq<Octet>, odLen: nat, b: nat)
    requires 1 <= odLen <= 32 && IsduCoding.Encodable(r) && IsduTransfer.Accepted(c, r, odLen)
    requires IsduCoding.WellFormedResponse(octets, r.read) && |octets| <= IsduCoding.ISDU_MAX_SIZE
    requires IsduTransfer.Readable(octets, odLen, c.h.data[1])
    requires IsduTransfer.Alternating(ins, odLen)
    requires var m := Needed(r, octets, odLen, b); m <= |ins| && Served(ins[..m], r, octets, odLen, b)
    ensures var o := IM.Run(c, ins); var rest := |ins| - Needed(r, octets, odLen, b);
      && o.acts == Spoken(c.h.data, r, octets, odLen, b) + Idles((rest + 1) / 2)
      && IsduTransfer.AtRest(o.c)
  {
    hide IM.Run, IM.Step, IsduCoding.EncodeRequest, CeilDiv, IsduTransfer.Writes, IsduTransfer.Reads, IsduTransfer.Confirmation,
      IsduTransfer.Replies, IsduTransfer.InTime, IsduTransfer.Carried, IsduCoding.DecodeRequest, IsduTransfer.Readable,
      IsduCoding.WellFormedResponse, Idles, IM.TotalSegments, IsduTransfer.Accepted, IsduTransfer.Alternating;
    var m := Needed(r, octets, odLen, b);
    var main, rest := ins[..m], ins[m..];
    assert main + rest == ins;
    EvenCut(ins, m, odLen);
    AcceptedActive(c, r, odLen);
    IsduTransfer.Conversation(c, r, octets, odLen, b, main);
    var o := IM.Run(c, main);
    IM.StepsActive(c, main);
    IdleRun(o.c, rest, odLen);
    IM.RunAppend(c, main, rest);
  }

  lemma AcceptedActive(c: IM.Ctx, r: IsduCoding.Request, odLen: nat)
    requires IsduCoding.Encodable(r) && IsduTransfer.Accepted(c, r, odLen)
    ensures c.h.active && c.h.state == IsduIdle1 && c.rw == RwIsduTransport && |c.h.data| == IsduCoding.ISDU_MAX_SIZE
  {
    hide IM.TotalSegments;
    IsduTransfer.FrameLength(r);
  }

  lemma EvenCut(ins: seq<IsduIn>, m: nat, odLen: nat)
    requires IsduTransfer.Alternating(ins, odLen) && m <= |ins| && m % 2 == 0
    ensures IsduTransfer.Alternating(ins[m..], odLen) && IsduTransfer.Alternating(ins[..m], odLen)
  {
  }

  lemma {:induction false} WritesOnChannel(data: seq<Octet>, odLen: nat, k: nat, i: nat)
    requires i < k
    ensures OnChannel(IsduTransfer.Writes(data, odLen, k)[i])
  {
    if i < k - 1 { WritesOnChannel(data, odLen, k - 1, i); }
  }

  lemma {:induction false} ReadsOnChannel(b: nat, k: nat, i: nat)
    requires i < b + k
    ensures OnChannel(IsduTransfer.Reads(b, k)[i])
  {
    if k == 0 {
      if i < b - 1 { ReadsOnChannel(b - 1, 0, i); }
    } else if i < b + k - 1 {
      ReadsOnChannel(b, k - 1, i);
    }
  }

  lemma {:induction false} IdlesOnChannel(k: nat, i: nat)
    requires i < k
    ensures OnChannel(Idles(k)[i])
  {
    if i < k - 1 { IdlesOnChannel(k - 1, i); }
  }

  // All of it is on the ISDU handler's channel.
  lemma SpokenOnChannel(data: seq<Octet>, r: IsduCoding.Request, octets: seq<Octet>, odLen: nat, b: nat, k: nat)
    requires IsduCoding.Encodable(r) && odLen >= 1 && IsduCoding.AnnouncedLength(octets) == Some(|octets|)
    ensures var w := Spoken(data, r, octets, odLen, b) + Idles(k); Traffic(w) == w
  {
    hide IsduCoding.EncodeRequest, CeilDiv, IsduTransfer.Writes, IsduTransfer.Reads, IsduCoding.AnnouncedLength, Idles, OnChannel;
    var n := CeilDiv(|IsduCoding.EncodeRequest(r)|, odLen);
    var m := CeilDiv(|octets|, odLen);
    var w := Spoken(data, r, octets, odLen, b) + Idles(k);
    assert OnChannel(IsduTransfer.Confirmation(octets)) by { ConfirmationOnChannel(octets); }
    forall i | 0 <= i < |w|
      ensures OnChannel(w[i])
    {
      if i < n {
        WritesOnChannel(data, odLen, n, i);
      } else if i < n + b + m {
        ReadsOnChannel(b, m, i - n);
      } else if i > n + b + m {
        IdlesOnChannel(k, i - n - b - m - 1);
      }
    }
    AllTraffic(w);
  }

  lemma ConfirmationOnChannel(octets: seq<Octet>)
    requires IsduCoding.AnnouncedLength(octets) == Some(|octets|)
    ensures OnChannel(IsduTransfer.Confirmation(octets))
  {
    hide IsduCoding.AnnouncedLength;
  }

  // Between two messages of a session, with events to come that neither hand the
  // ISDU handler something new to do nor lose the link.
  ghost predicate Running(s: Dl, es: seq<Event>, base: nat) {
    && Session(s, base) && s.mh.state in {MhResponse15, MhAwReply16} && !s.mode.comLost
    && (forall e :: e in es ==> WellFormedEvent(e) && Cyclic(e)) && !Run(s, es).mode.comLost
  }

  // A request has just been accepted, and the device answers it with `octets`
  // after being busy b times.
  ghost predicate TransferDue(s: Dl, es: seq<Event>, base: nat, r: IsduCoding.Request, octets: seq<Octet>, b: nat) {
    && Running(s, es, base)
    && 1 <= s.mh.odLen <= 32 && IsduCoding.Encodable(r) && IsduTransfer.Accepted(IsduContext(s), r, s.mh.odLen)
    && IsduCoding.WellFormedResponse(octets, r.read) && |octets| <= IsduCoding.ISDU_MAX_SIZE
    && IsduTransfer.Readable(octets, s.mh.odLen, s.isdu.data[1])
    && var ins := Inputs(New(s, Run(s, es))); var m := Needed(r, octets, s.mh.odLen, b);
       Owed(s) + m <= |ins| && Served(ins[Owed(s)..][..m], r, octets, s.mh.odLen, b)
  }

  ghost predicate TransferDone(s: Dl, t: Dl, r: IsduCoding.Request, octets: seq<Octet>, b: nat)
    requires 1 <= s.mh.odLen && IsduCoding.Encodable(r) && IsduCoding.AnnouncedLength(octets) == Some(|octets|)
  {
    var rest := |Inputs(New(s, t))| - Owed(s) - Needed(r, octets, s.mh.odLen, b);
    && rest >= 0 && Traffic(New(s, t)) == Spoken(s.isdu.data, r, octets, s.mh.odLen, b) + Idles((rest + 1) / 2)
    && IsduTransfer.AtRest(IsduContext(t))
  }

  // A request accepted in OPERATE is sent, and its response confirmed, on the
  // shared channel exactly as on one of its own: however many commands, event
  // readouts, errors and resends fall in between, the ISDU traffic is the
  // request's segments, the read requests and the one confirmation, and after
  // that idle requests.
  lemma {:induction false} TransferOnSharedChannel(s: Dl, es: seq<Event>, base: nat, r: IsduCoding.Request, octets: seq<Octet>, b: nat)
    requires TransferDue(s, es, base, r, octets, b)
    ensures TransferDone(s, Run(s, es), r, octets, b)
  {
    hide Run, IM.Run, IM.Step, Inputs, Traffic, CeilDiv, Session, IsduCoding.EncodeRequest, Served, Spoken, Idles, New,
      IsduTransfer.Alternating, IsduTransfer.Readable, IsduCoding.WellFormedResponse, IM.TotalSegments, EventsFollow, Needed;
    var t := Run(s, es);
    SessionContinues(s, es, base);
    assert s.log <= t.log && IsduFollows(s, t);
    NewInputs(s, t, base);
    var ins := Inputs(New(s, t));
    ConversationAndIdle(IsduContext(s), ins[Owed(s)..], r, octets, s.mh.odLen, b);
    OldReply(IsduContext(s), ins, Owed(s));
    var rest := |ins| - Owed(s) - Needed(r, octets, s.mh.odLen, b);
    assert IsduCoding.AnnouncedLength(octets) == Some(|octets|) by { WellFormedIs(octets, r.read); }
    SpokenOnChannel(s.isdu.data, r, octets, s.mh.odLen, b, (rest + 1) / 2);
  }

  lemma WellFormedIs(octets: seq<Octet>, read: bool)
    requires IsduCoding.WellFormedResponse(octets, read)
    ensures IsduCoding.AnnouncedLength(octets) == Some(|octets|)
  {
  }

  // ---- event readouts ----

  // The event handler's triggers from s on, as long as every reply reports
  // pending events: they alternate, on a live link.
  lemma NewEvInputs(s: Dl, t: Dl, base: nat)
    requires Session(s, base) && Session(t, base) && !s.mode.comLost && !t.mode.comLost && t.mh.odLen == s.mh.odLen && s.log <= t.log
    requires s.mh.state in {MhResponse15, MhAwReply16} && s.od.state != OdEvent3 && Held(Marks(New(s, t)))
    ensures EventReadout.Alternating(EvInputs(New(s, t)), s.mh.odLen)
  {
    hide Marks, Inputs, EvInputs, Paired, Said, New, Session, Open, Held;
    SteadyInputs(s, base);
    SteadyInputs(t, base);
    SaidOn(s, t, base);
    EventsAlternate(Marks(Said(s, base)), Marks(New(s, t)));
    InputsOfMarks(New(s, t));
    var ins := EvInputs(New(s, t));
    forall k | 0 <= k < |ins|
      ensures ins[k].odLen == s.mh.odLen && !ins[k].comLost
    {
      assert ins[k] in EvInputs(Said(t, base));
    }
  }

  ghost predicate EventsAtRest(e: EventHandler) { e.state == EvIdle1 && e.active && !e.confirmation }

  // The event flag is held, no event request is out yet, and the device answers
  // from its memory until the readout is confirmed.
  ghost predicate ReadoutDue(s: Dl, es: seq<Event>, base: nat, mem: EventReadout.Memory) {
    && Running(s, es, base) && s.od.state != OdEvent3 && EventsAtRest(s.ev) && Held(Marks(New(s, Run(s, es))))
    && EM.Detailed(mem[0]) && EventReadout.SetBits(mem[0], 0) != []
    && var ins := EvInputs(New(s, Run(s, es))); var m := EventReadout.TriggersFor(mem);
       m <= |ins| && EventReadout.FromMemory(EM.Core(s.ev), ins[..m], mem)
  }

  ghost predicate ReadoutDone(s: Dl, t: Dl, mem: EventReadout.Memory) {
    var w := EventReadout.WholeReadout(mem, s.mh.odLen);
    && w <= EvTraffic(New(s, t))
    && (|EvInputs(New(s, t))| == EventReadout.TriggersFor(mem) ==> EvTraffic(New(s, t)) == w && EventsAtRest(t.ev))
  }

  // A readout on the shared channel: with the event flag held, and a device that
  // answers from its memory, whatever commands cut in and messages are repeated,
  // the diagnosis traffic and the indications are the status code, the flagged
  // entries in ascending order, their indications counting down, and the
  // confirmation; with no more triggers than that takes, nothing else.
  lemma {:induction false} ReadoutOnSharedChannel(s: Dl, es: seq<Event>, base: nat, mem: EventReadout.Memory)
    requires ReadoutDue(s, es, base, mem)
    ensures ReadoutDone(s, Run(s, es), mem)
  {
    hide Run, IM.Run, EM.Run, EM.Step, EvInputs, EvTraffic, Session, New, Held, Marks, IsduFollows, EventReadout.SetBits,
      EventReadout.FromMemory, EventReadout.WholeReadout, EventReadout.TriggersFor, EM.Detailed;
    var t := Run(s, es);
    SessionContinues(s, es, base);
    assert s.log <= t.log && EventsFollow(s, t);
    NewEvInputs(s, t, base);
    var ins := EvInputs(New(s, t));
    var m := EventReadout.TriggersFor(mem);
    var e := EM.Core(s.ev);
    var w := EventReadout.WholeReadout(mem, s.mh.odLen);
    EvCut(ins, m, s.mh.odLen);
    EventReadout.ReadoutRun(e, ins[..m], mem, s.mh.odLen);
    EM.RunAppend(e, ins[..m], ins[m..]);
    assert ins[..m] + ins[m..] == ins;
    var rest := EM.Run(EM.Run(e, ins[..m]).e, ins[m..]);
    JoinedTraffic(w, rest.acts);
    OwnTraffic(e, ins[..m]);
    if |ins| == m {
      assert ins[m..] == [];
      EM.RunNothing(EM.Run(e, ins[..m]).e);
      NoEvTraffic([]);
    }
  }

  lemma EvCut(ins: seq<EvIn>, m: nat, odLen: nat)
    requires EventReadout.Alternating(ins, odLen) && m <= |ins|
    ensures EventReadout.Alternating(ins[..m], odLen)
  {
  }

  // All the event handler does is on its channel.
  lemma {:induction false} OwnTraffic(e: EventHandler, ins: seq<EvIn>)
    ensures EvTraffic(EM.Run(e, ins).acts) == EM.Run(e, ins).acts
  {
    hide EM.Step, EvTraffic;
    if ins == [] {
      NoEvTraffic([]);
    } else {
      var before := EM.Run(e, ins[..|ins| - 1]);
      OwnTraffic(e, ins[..|ins| - 1]);
      var acts := EM.Step(before.e, ins[|ins| - 1]).acts;
      EM.StepActs(before.e, ins[|ins| - 1]);
      AllEvTraffic(acts);
      JoinedTraffic(before.acts, acts);
    }
  }
}
