// Runs that meet the conditions of SharedChannel's theorems: a device that
// answers every message at once.
module SharedChannelRuns {
  import opened Octets
  import opened DlTypes
  import opened LinkLayer
  import opened LinkFrames
  import opened OdMarks
  import opened OdInterleaving
  import opened SharedChannel
  import IM = IsduMachine
  import EM = EventMachine
  import IsduCoding
  import IsduTransfer

  // An OPERATE session with nothing but ISDU traffic going on.
  ghost predicate Calm(s: Dl, base: nat) {
    && Session(s, base) && s.mh.state in {MhResponse15, MhAwReply16} && !s.mode.comLost
    && s.od.state == OdIsdu1 && s.cmd.code == CodeNone
    && s.isdu.active && s.isdu.state != IsduInactive0 && s.mh.rw in {RwNone, RwIsduTransport} && 1 <= s.mh.odLen <= 32
  }

  // A reply of the length the last request asked for, if it was a read.
  predicate Full(s: Dl) { s.isdu.state != IsduRequest2 ==> s.od.rxLen == s.mh.odLen }

  // The reply makes the ISDU handler the next one asked, too.
  function Answered(s: Dl, rx: seq<Octet>): Dl { SetTrigger(ToIsdu(SetTrigger(NoteReply(Got(s, rx)), DeviceMessage)), TrigNone) }

  function Got(s: Dl, rx: seq<Octet>): Dl { Mh(SetReady(s.(rx := rx), true), MhAwReply16) }

  function Asked(s: Dl): Dl { SetTrigger(ToIsdu(SetTrigger(s, MasterMessage)), TrigNone) }

  lemma ToIsduKeeps(s: Dl)
    ensures var t := ToIsdu(s); t.cmd == s.cmd && t.od.state == s.od.state && SameSession(s, t)
    ensures s.isdu.active && s.isdu.state != IsduInactive0 ==> ToIsdu(s).isdu.active && ToIsdu(s).isdu.state != IsduInactive0
  {
    hide IM.Step;
    var a := Log(s, [IsduTrig(IsduInput(s))]);
    IsduCallFrame(a);
    IM.StepActs(IM.Ctx(a.isdu, a.mh.rw), IsduInput(a));
    if s.isdu.active && s.isdu.state != IsduInactive0 { StaysOn(IM.Ctx(a.isdu, a.mh.rw), IsduInput(a)); }
  }

  lemma StaysOn(c: IM.Ctx, i: IsduIn)
    requires c.h.active && c.h.state != IsduInactive0
    ensures IM.Step(c, i).c.h.state != IsduInactive0
  {
    hide XorAll, Slice, Blit, IM.ValidHeader, IM.TotalLen, IM.TotalSegments, IM.TimerElapsed, IM.At;
  }

  lemma ExchangeIs(s: Dl, rx: seq<Octet>)
    requires s.od.active && s.od.state == OdIsdu1 && s.cmd.code == CodeNone && !NoteReply(Got(s, rx)).ev.flag
    ensures Exchange(Got(s, rx)) == SendNext(Asked(Answered(s, rx)))
  {
    hide ToIsdu, SendNext, IM.At;
    ToIsduKeeps(SetTrigger(NoteReply(Got(s, rx)), DeviceMessage));
  }

  // Asked for the next message, the handler writes while it has segments to
  // send, and reads a full OD length otherwise.
  lemma AskFull(s: Dl)
    requires s.od.trigger == MasterMessage && s.isdu.active && s.isdu.state != IsduInactive0 && s.mh.rw in {RwNone, RwIsduTransport}
    requires !s.mode.comLost && s.mh.odLen <= 32
    ensures Full(ToIsdu(s))
  {
    hide XorAll, Slice, Blit, IM.ValidHeader, IM.TotalLen, IM.TotalSegments, IM.TimerElapsed, IM.At, IM.ErrorCause, IM.Payload;
    var a := Log(s, [IsduTrig(IsduInput(s))]);
    var o := IM.Step(IM.Ctx(a.isdu, a.mh.rw), IsduInput(a));
    IsduCallFrame(a);
    if o.c.h.state != IsduRequest2 {
      AsksToRead(IM.Ctx(a.isdu, a.mh.rw), IsduInput(a));
      PerformReads(a.(isdu := o.c.h, mh := a.mh.(rw := o.c.rw)), o.acts);
    }
  }

  predicate Reading(a: Act) { a.OdRequest? && !a.write && a.ctrl <= 31 }

  lemma AsksToRead(c: IM.Ctx, i: IsduIn)
    requires i.trigger == MasterMessage && c.h.active && c.h.state != IsduInactive0 && c.rw in {RwNone, RwIsduTransport} && !i.comLost
    ensures var o := IM.Step(c, i); o.c.h.state != IsduRequest2 ==>
      o.acts != [] && Reading(o.acts[0]) && forall k :: 0 < k < |o.acts| ==> !o.acts[k].OdRequest?
  {
    hide XorAll, Slice, Blit, IM.ValidHeader, IM.TotalLen, IM.TotalSegments, IM.TimerElapsed, IM.At, IM.ErrorCause, IM.Payload;
  }

  lemma {:induction false} NoRequests(s: Dl, acts: seq<Act>)
    requires forall k :: 0 <= k < |acts| ==> !acts[k].OdRequest?
    ensures Perform(s, acts).od == s.od
    decreases |acts|
  {
    if acts != [] { NoRequests(Log(s, [acts[0]]), acts[1..]); }
  }

  lemma {:induction false} PerformReads(s: Dl, acts: seq<Act>)
    requires acts != [] && Reading(acts[0]) && s.mh.odLen <= 32 && forall k :: 0 < k < |acts| ==> !acts[k].OdRequest?
    ensures Perform(s, acts).od.rxLen == s.mh.odLen
  {
    hide Blit;
    NoRequests(Log(Request(s, acts[0]), [acts[0]]), acts[1..]);
  }

  lemma CalmIs(s: Dl, base: nat)
    requires Calm(s, base)
    ensures s.od.active && s.mh.rw != RwWriteParam && s.mh.cmd !in {MhCmdStartup, MhCmdInactive}
  {
    hide Marks, Inputs, EvInputs, Paired, Said, Open;
  }

  lemma CalmDispatch(s: Dl, rx: seq<Octet>, base: nat)
    requires Calm(s, base)
    ensures Dispatch(s, Received(rx)) == SetReady(Exchange(Got(s, rx)), false)
  {
    hide Exchange, WriteParam, LoseLink, Retry, Session;
    CalmIs(s, base);
  }

  predicate GivenAt(i: IsduIn, t: Trigger, s: Dl, rx: seq<Octet>) { i.trigger == t && i.rx == rx && i.now == s.link.now }

  // A turn of the ISDU handler: its input, and what stays.
  lemma TurnIs(s: Dl)
    requires s.isdu.active && s.isdu.state != IsduInactive0
    ensures var t := ToIsdu(s);
      && s.log <= t.log && Inputs(New(s, t)) == [IsduInput(s)] && SameSession(s, t) && t.cmd == s.cmd && t.od.state == s.od.state
      && t.isdu.active && t.isdu.state != IsduInactive0
  {
    hide ToIsdu, Marks, Inputs, EvInputs, Traffic, EvTraffic, IM.Run, EM.Run, New;
    IsduPasses(s);
    ToIsduKeeps(s);
  }

  // A reply without events on a calm channel: the ISDU handler is given it, and
  // asked for the next message.
  lemma CalmReply(s: Dl, rx: seq<Octet>, base: nat)
    requires Calm(s, base) && !NoteReply(Got(s, rx)).ev.flag
    ensures var t := Dispatch(s, Received(rx)); var ins := Inputs(New(s, t));
      && Calm(t, base) && Follows(s, t) && Full(t)
      && t.mh.odLen == s.mh.odLen && t.pd == s.pd && t.link.now == s.link.now
      && |ins| == 2 && GivenAt(ins[0], DeviceMessage, s, rx) && GivenAt(ins[1], MasterMessage, s, rx)
  {
    hide ToIsdu, Inputs, New, Session, Exchange, Follows, Message, SameSession, IM.At, IsduInput;
    assert forall a :: IsduInput(a).trigger == a.od.trigger && IsduInput(a).rx == a.rx && IsduInput(a).now == a.link.now by { InputIs(); }
    var t := Dispatch(s, Received(rx));
    CalmIs(s, base);
    CyclicContinues(s, Received(rx), base);
    CalmDispatch(s, rx, base);
    ExchangeIs(s, rx);
    var n := NoteReply(Got(s, rx));
    var a1 := SetTrigger(n, DeviceMessage);
    TurnIs(a1);
    SameIsKept(a1, ToIsdu(a1));
    var a2 := SetTrigger(Answered(s, rx), MasterMessage);
    TurnIs(a2);
    SameIsKept(a2, ToIsdu(a2));
    AskFull(a2);
    EndsQuiet(s, rx, Asked(Answered(s, rx)));
    CalmLog(s, a1, ToIsdu(a1), a2, ToIsdu(a2), t);
  }

  // The ends of an exchange are no business of the ISDU handler.
  lemma EndsQuiet(s: Dl, rx: seq<Octet>, y: Dl)
    ensures var n := NoteReply(Got(s, rx)); s.log <= n.log && forall d: Dl :: d.log == n.log ==> forall a :: a in New(s, d) ==> !a.IsduTrig?
    ensures var t := SendNext(y);
      y.log <= t.log && forall c: Dl, d: Dl :: c.log == y.log && d.log == t.log ==> forall a :: a in New(c, d) ==> !a.IsduTrig?
  {
    hide Message, IM.At;
  }

  lemma InputIs()
    ensures forall a :: IsduInput(a).trigger == a.od.trigger && IsduInput(a).rx == a.rx && IsduInput(a).now == a.link.now
  {
  }

  lemma SameIsKept(s: Dl, t: Dl)
    requires SameSession(s, t)
    ensures t.mode == s.mode && t.link == s.link && t.rx == s.rx && t.pd == s.pd && t.mh == s.mh.(rw := t.mh.rw)
    ensures t.mh.rw in {s.mh.rw, RwNone} && t.od.active == s.od.active && t.ev.flag == s.ev.flag
  {
  }

  // The inputs of two turns, with other acts before, between and after them.
  lemma CalmLog(s: Dl, a1: Dl, t1: Dl, a2: Dl, t2: Dl, t: Dl)
    requires s.log <= a1.log <= t1.log == a2.log <= t2.log <= t.log
    requires (forall a :: a in New(s, a1) ==> !a.IsduTrig?) && (forall a :: a in New(t2, t) ==> !a.IsduTrig?)
    ensures Inputs(New(s, t)) == Inputs(New(a1, t1)) + Inputs(New(a2, t2))
  {
    hide Inputs, Marks, EvInputs;
    NewOn(s, a1, t);
    NewOn(a1, t1, t);
    NewOn(t1, t2, t);
    Joined(New(s, a1), New(a1, t));
    Joined(New(a1, t1), New(t1, t));
    Joined(New(t1, t2), New(t2, t));
    NoInputs(New(s, a1));
    NoInputs(New(t2, t));
  }

  lemma {:induction false} NoInputs(acts: seq<Act>)
    requires forall a :: a in acts ==> !a.IsduTrig?
    ensures Inputs(acts) == []
  {
    if acts != [] {
      assert acts[|acts| - 1] in acts;
      NoInputs(acts[..|acts| - 1]);
    }
  }

  // ---- a whole conversation ----

  // What the j-th reply carries: nothing for the message already out and the n
  // segments of the request, "busy" b times, and then the response.
  function Payload(octets: seq<Octet>, odLen: nat, n: nat, b: nat, j: nat): (p: seq<Octet>)
    requires odLen >= 1
    ensures |p| == odLen
  {
    if j <= n then Zeros(odLen)
    else if j - 1 - n < b then [1] + Zeros(odLen - 1)
    else Slice(octets, (j - 1 - n - b) * odLen, odLen)
  }

  // A full-length reply: on-request data, process data, and a check octet that
  // reports no events.
  function Reply(octets: seq<Octet>, odLen: nat, pdRx: nat, n: nat, b: nat, j: nat): (rx: seq<Octet>)
    requires odLen >= 1
    ensures |rx| == odLen + pdRx + 1
  {
    Payload(octets, odLen, n, b, j) + Zeros(pdRx + 1)
  }

  function Replies(octets: seq<Octet>, odLen: nat, pdRx: nat, n: nat, b: nat, count: nat): (es: seq<Event>)
    requires odLen >= 1
    ensures |es| == count && forall j :: 0 <= j < count ==> es[j] == Received(Reply(octets, odLen, pdRx, n, b, j))
  {
    seq(count, j requires 0 <= j < count => Received(Reply(octets, odLen, pdRx, n, b, j)))
  }

  // Device, master, device, master, ... each with its reply.
  ghost predicate InputsOf(ins: seq<IsduIn>, octets: seq<Octet>, odLen: nat, pdRx: nat, n: nat, b: nat, now: nat)
    requires odLen >= 1
  {
    forall i :: 0 <= i < |ins| ==>
      && ins[i].trigger == (if i % 2 == 0 then DeviceMessage else MasterMessage)
      && ins[i].rx == Reply(octets, odLen, pdRx, n, b, i / 2) && ins[i].now == now
  }

  lemma InputsServe(ins: seq<IsduIn>, octets: seq<Octet>, odLen: nat, pdRx: nat, n: nat, b: nat, now: nat)
    requires odLen >= 1 && now > 0 && |ins| >= 1 + 2 * n && InputsOf(ins, octets, odLen, pdRx, n, b, now)
    ensures IsduTransfer.Replies(ins[1..][2 * n..], octets, odLen, b)
    ensures IsduTransfer.InTime(IM.TimerStart(now), ins[1..][2 * n..])
  {
    hide Slice, Reply;
    var rest := ins[1..][2 * n..];
    forall k | 0 <= k < |rest|
      ensures rest[k].now == now && rest[k].rx == Reply(octets, odLen, pdRx, n, b, (1 + 2 * n + k) / 2)
    {
      assert rest[k] == ins[1 + 2 * n + k];
    }
    forall k | 0 <= k < |rest| && k % 2 == 1
      ensures k / 2 < b ==> rest[k].rx[0] == 1
      ensures k / 2 >= b ==> IsduTransfer.Carries(rest[k].rx, octets, k / 2 - b, odLen)
    {
      assert (1 + 2 * n + k) / 2 == n + k / 2 + 1;
      ReplyServes(octets, odLen, pdRx, n, b, k / 2);
    }
  }

  lemma ReplyServes(octets: seq<Octet>, odLen: nat, pdRx: nat, n: nat, b: nat, i: nat)
    requires odLen >= 1
    ensures var rx := Reply(octets, odLen, pdRx, n, b, n + i + 1);
      && odLen <= |rx| && (i < b ==> rx[0] == 1) && (i >= b ==> IsduTransfer.Carries(rx, octets, i - b, odLen))
  {
    hide Slice;
    if i >= b { IsduTransfer.SliceCarries(octets, i - b, odLen); }
  }

  // After the request's segments the handler only reads.
  lemma {:induction false} OnlyReads(c: IM.Ctx, ins: seq<IsduIn>, r: IsduCoding.Request, octets: seq<Octet>, odLen: nat, b: nat, k: nat)
    requires 1 <= odLen <= 32 && IsduCoding.Encodable(r) && IsduTransfer.Accepted(c, r, odLen)
    requires IsduCoding.WellFormedResponse(octets, r.read) && |octets| <= IsduCoding.ISDU_MAX_SIZE
    requires IsduTransfer.Readable(octets, odLen, c.h.data[1])
    requires IsduTransfer.Alternating(ins, odLen) && |ins| == 2 * k + 1
    requires var n := CeilDiv(|IsduCoding.EncodeRequest(r)|, odLen);
      && n <= k <= n + b + CeilDiv(|octets|, odLen) && n >= 1
      && IsduTransfer.Replies(ins[2 * n..], octets, odLen, b) && IsduTransfer.InTime(IM.TimerStart(ins[2 * n - 1].now), ins[2 * n..])
    ensures IM.Run(c, ins).c.h.state != IsduRequest2
  {
    hide IM.Run, IM.Step, IsduCoding.EncodeRequest, CeilDiv, IsduTransfer.Writes, IsduTransfer.Carried, IsduCoding.DecodeRequest,
      IsduTransfer.Replies, IsduTransfer.Readable, IsduCoding.WellFormedResponse, IsduTransfer.Alternating, IsduTransfer.Confirmation,
      IsduCoding.AnnouncedLength, IM.TimerStart, IM.TimerElapsed, IM.TotalSegments;
    var n := CeilDiv(|IsduCoding.EncodeRequest(r)|, odLen);
    var sent, rest, last := ins[..2 * n], ins[2 * n..2 * k], ins[2 * k];
    AcceptedActive(c, r, odLen);
    EvenCut(ins, 2 * n, odLen);
    assert sent[2 * n - 1] == ins[2 * n - 1];
    IsduTransfer.RequestTransfer(c, r, odLen, sent);
    var mid := IM.Run(c, sent).c;
    var after := ins[2 * n..];
    assert after[..2 * (k - n)] == rest;
    assert IsduCoding.AnnouncedLength(octets) == Some(|octets|) by { WellFormedIs(octets, r.read); }
    if k - n <= b {
      IsduTransfer.BusyPrefix(mid, after, octets, odLen, b, k - n);
    } else {
      IsduTransfer.ReceivePrefix(mid, after, octets, odLen, r.read, b, k - n - b);
    }
    var t := IM.Run(mid, rest).c;
    assert after[2 * (k - n)] == last;
    assert last.trigger == MasterMessage && !last.comLost by { LastIs(ins, odLen, k); }
    AskedAgain(t, last);
    IM.RunAppend(c, sent, rest);
    IM.RunAppend(c, sent + rest, [last]);
    RunOne(t, last);
    assert sent + rest + [last] == ins;
  }

  lemma LastIs(ins: seq<IsduIn>, odLen: nat, k: nat)
    requires IsduTransfer.Alternating(ins, odLen) && |ins| == 2 * k + 1
    ensures ins[2 * k].trigger == MasterMessage && !ins[2 * k].comLost
  {
  }

  lemma AskedAgain(c: IM.Ctx, i: IsduIn)
    requires i.trigger == MasterMessage && !i.comLost
    requires (c.h.state == IsduWait3 && c.h.active && c.rw == RwIsduTransport && !IM.TimerElapsed(c.h.timer, i.now))
      || (c.h.state == IsduResponse5 && c.h.active && c.rw == RwIsduTransport) || (c.h.state == IsduIdle1 && c.rw == RwNone)
    ensures IM.Step(c, i).c.h.state != IsduRequest2
  {
    hide IM.TimerElapsed;
  }

  // No events in these replies, wherever their check octet is looked for.
  lemma ReplyQuiet(s: Dl, octets: seq<Octet>, n: nat, b: nat, j: nat)
    requires s.mh.odLen >= 1 && (j <= n || s.od.rxLen == s.mh.odLen)
    ensures !NoteReply(Got(s, Reply(octets, s.mh.odLen, s.pd.rxLen, n, b, j))).ev.flag
  {
    hide Slice;
  }

  // What holds after the first j replies.
  ghost predicate ServedTo(s: Dl, t: Dl, base: nat, octets: seq<Octet>, n: nat, b: nat, j: nat)
    requires s.mh.odLen >= 1
  {
    && Calm(t, base) && Follows(s, t) && (j > 0 ==> Full(t))
    && t.mh.odLen == s.mh.odLen && t.pd == s.pd && t.link.now == s.link.now
    && |Inputs(New(s, t))| == 2 * j && InputsOf(Inputs(New(s, t)), octets, s.mh.odLen, s.pd.rxLen, n, b, s.link.now)
  }

  lemma ServedNothing(s: Dl, base: nat, octets: seq<Octet>, n: nat, b: nat)
    requires Calm(s, base)
    ensures ServedTo(s, s, base, octets, n, b, 0)
  {
    hide Session, Full;
    assert New(s, s) == [];
    assert s.log == s.log + [];
    SameSelf(s);
    ForeignActs(s, s, []);
  }

  // One more reply.
  lemma ServedOne(s: Dl, t: Dl, base: nat, octets: seq<Octet>, n: nat, b: nat, j: nat)
    requires 1 <= s.mh.odLen && ServedTo(s, t, base, octets, n, b, j) && (j <= n || t.od.rxLen == t.mh.odLen)
    ensures ServedTo(s, Dispatch(t, Received(Reply(octets, s.mh.odLen, s.pd.rxLen, n, b, j))), base, octets, n, b, j + 1)
  {
    hide Session, Full, Follows, Reply, Inputs, New, NoteReply, Got, Dispatch;
    var rx := Reply(octets, s.mh.odLen, s.pd.rxLen, n, b, j);
    ReplyQuiet(t, octets, n, b, j);
    CalmReply(t, rx, base);
    var u := Dispatch(t, Received(rx));
    FollowsGrows(s, t);
    FollowsGrows(t, u);
    FollowsOn(s, t, u);
    NewOn(s, t, u);
    Joined(New(s, t), New(t, u));
  }

  // The first j of the replies.
  lemma {:induction false} ServedPrefix(s: Dl, base: nat, r: IsduCoding.Request, octets: seq<Octet>, b: nat, j: nat)
    requires Calm(s, base) && s.link.now > 0
    requires IsduCoding.Encodable(r) && IsduTransfer.Accepted(IsduContext(s), r, s.mh.odLen)
    requires IsduCoding.WellFormedResponse(octets, r.read) && |octets| <= IsduCoding.ISDU_MAX_SIZE
    requires IsduTransfer.Readable(octets, s.mh.odLen, s.isdu.data[1])
    requires var n := CeilDiv(|IsduCoding.EncodeRequest(r)|, s.mh.odLen); j <= n + b + CeilDiv(|octets|, s.mh.odLen) + 1
    ensures var n := CeilDiv(|IsduCoding.EncodeRequest(r)|, s.mh.odLen);
      ServedTo(s, Run(s, Replies(octets, s.mh.odLen, s.pd.rxLen, n, b, j)), base, octets, n, b, j)
  {
    hide Dispatch, Session, IsduCoding.EncodeRequest, CeilDiv, IsduTransfer.Readable, IsduCoding.WellFormedResponse, IsduTransfer.Accepted,
      IM.TotalSegments, Reply, ServedTo, Run;
    var n := CeilDiv(|IsduCoding.EncodeRequest(r)|, s.mh.odLen);
    var es := Replies(octets, s.mh.odLen, s.pd.rxLen, n, b, j);
    if j == 0 {
      ServedNothing(s, base, octets, n, b);
      RunEmpty(s);
    } else {
      ServedPrefix(s, base, r, octets, b, j - 1);
      assert es[..j - 1] == Replies(octets, s.mh.odLen, s.pd.rxLen, n, b, j - 1);
      var t := Run(s, es[..j - 1]);
      assert Run(s, es) == Dispatch(t, es[j - 1]) by { RunLast(s, es); }
      if j - 1 > n { StillReading(s, t, base, r, octets, b, j - 1); }
      ServedOne(s, t, base, octets, n, b, j - 1);
    }
  }

  lemma {:induction false} RunEmpty(s: Dl)
    ensures Run(s, []) == s
  {
  }

  lemma {:induction false} RunLast(s: Dl, es: seq<Event>)
    requires es != [] && forall e :: e in es ==> WellFormedEvent(e)
    ensures Run(s, es) == Dispatch(Run(s, es[..|es| - 1]), es[|es| - 1])
  {
    hide Dispatch;
  }

  // Past the request's segments, the message out is a read.
  lemma StillReading(s: Dl, t: Dl, base: nat, r: IsduCoding.Request, octets: seq<Octet>, b: nat, j: nat)
    requires Calm(s, base) && s.link.now > 0
    requires IsduCoding.Encodable(r) && IsduTransfer.Accepted(IsduContext(s), r, s.mh.odLen)
    requires IsduCoding.WellFormedResponse(octets, r.read) && |octets| <= IsduCoding.ISDU_MAX_SIZE
    requires IsduTransfer.Readable(octets, s.mh.odLen, s.isdu.data[1])
    requires var n := CeilDiv(|IsduCoding.EncodeRequest(r)|, s.mh.odLen);
      ServedTo(s, t, base, octets, n, b, j) && n < j <= n + b + CeilDiv(|octets|, s.mh.odLen) + 1
    ensures t.od.rxLen == t.mh.odLen
  {
    hide Session, IsduCoding.EncodeRequest, CeilDiv, IsduTransfer.Readable, IsduCoding.WellFormedResponse, IsduTransfer.Accepted,
      IM.TotalSegments, Reply, IM.Run, Inputs, New, IsduTransfer.Replies, IsduTransfer.InTime, EventsFollow, IM.TimerStart;
    var n := CeilDiv(|IsduCoding.EncodeRequest(r)|, s.mh.odLen);
    var ins := Inputs(New(s, t));
    NewInputs(s, t, base);
    IsduTransfer.FrameLength(r);
    InputsServe(ins, octets, s.mh.odLen, s.pd.rxLen, n, b, s.link.now);
    AcceptedActive(IsduContext(s), r, s.mh.odLen);
    OldReply(IsduContext(s), ins, 1);
    assert ins[1..][2 * n - 1] == ins[2 * n];
    OnlyReads(IsduContext(s), ins[1..], r, octets, s.mh.odLen, b, j - 1);
  }

  // Whatever is asked, and whatever the answer: from a calm session in which
  // the request has just been accepted, a device that answers every message at
  // once, busy b times, meets the conditions of TransferOnSharedChannel.
  lemma TransferPossible(s: Dl, base: nat, r: IsduCoding.Request, octets: seq<Octet>, b: nat)
    requires Calm(s, base) && s.link.now > 0
    requires IsduCoding.Encodable(r) && IsduTransfer.Accepted(IsduContext(s), r, s.mh.odLen)
    requires IsduCoding.WellFormedResponse(octets, r.read) && |octets| <= IsduCoding.ISDU_MAX_SIZE
    requires IsduTransfer.Readable(octets, s.mh.odLen, s.isdu.data[1])
    ensures exists es: seq<Event> :: TransferDue(s, es, base, r, octets, b)
  {
    hide Session, IsduCoding.EncodeRequest, CeilDiv, IsduTransfer.Readable, IsduCoding.WellFormedResponse, IsduTransfer.Accepted,
      IM.TotalSegments, Reply, IM.Run, Inputs, New, IsduTransfer.InTime, IsduTransfer.Replies, Follows, IM.TimerStart, Run;
    var n := CeilDiv(|IsduCoding.EncodeRequest(r)|, s.mh.odLen);
    var m := Needed(r, octets, s.mh.odLen, b);
    var j := m / 2 + 1;
    var es := Replies(octets, s.mh.odLen, s.pd.rxLen, n, b, j);
    ServedPrefix(s, base, r, octets, b, j);
    IsduTransfer.FrameLength(r);
    var ins := Inputs(New(s, Run(s, es)));
    assert |ins| == m + 2;
    FirstInputs(ins, octets, s.mh.odLen, s.pd.rxLen, n, b, s.link.now, m + 1);
    InputsServe(ins[..m + 1], octets, s.mh.odLen, s.pd.rxLen, n, b, s.link.now);
    assert ins[..m + 1][1..] == ins[1..][..m];
    assert ins[1..][..m][2 * n - 1] == ins[2 * n];
    assert TransferDue(s, es, base, r, octets, b);
  }

  lemma FirstInputs(ins: seq<IsduIn>, octets: seq<Octet>, odLen: nat, pdRx: nat, n: nat, b: nat, now: nat, k: nat)
    requires odLen >= 1 && k <= |ins| && InputsOf(ins, octets, odLen, pdRx, n, b, now)
    ensures InputsOf(ins[..k], octets, odLen, pdRx, n, b, now)
  {
    hide Reply;
  }
}
