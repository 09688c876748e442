// Segmentation and reassembly: what a strictly alternating series of master
// and device triggers makes of one request and one response.
module IsduTransfer {
  import opened Octets
  import opened DlTypes
  import opened IsduMachine
  import opened IsduCoding

  // Master, device, master, device, ... on a live link.
  ghost predicate Alternating(ins: seq<IsduIn>, odLen: nat) {
    forall k :: 0 <= k < |ins| ==>
      && ins[k].trigger == (if k % 2 == 0 then MasterMessage else DeviceMessage)
      && ins[k].odLen == odLen
      && !ins[k].comLost
  }

  // Two more inputs at the end of a run.
  lemma {:induction false} RunPair(c: Ctx, ins: seq<IsduIn>, k: nat)
    requires 2 * k + 2 <= |ins|
    ensures var before := Run(c, ins[..2 * k]);
      var m := Step(before.c, ins[2 * k]);
      var d := Step(m.c, ins[2 * k + 1]);
      Run(c, ins[..2 * k + 2]) == Out(d.c, before.acts + m.acts + d.acts)
  {
    hide Step;
    assert ins[..2 * k + 2][..2 * k + 1] == ins[..2 * k + 1];
    assert ins[..2 * k + 1][..2 * k] == ins[..2 * k];
  }

  // ---- the request ----

  // The buffer after DL_ISDUTransport_req, and the bookkeeping that goes with it.
  ghost predicate Accepted(c: Ctx, r: Request, odLen: nat)
    requires Encodable(r)
  {
    && c.h.state == IsduIdle1 && c.h.active && c.rw == RwIsduTransport
    && c.h.data == EncodeRequest(r) + Zeros(ISDU_MAX_SIZE - |EncodeRequest(r)|)
    && c.h.totalSeg == TotalSegments(|EncodeRequest(r)|, odLen)
    && c.h.dirRead == r.read
  }

  function FlowControl(k: nat): (f: nat)
    ensures f < 32
  {
    if k == 0 then FLOWCTRL_START else k % 16
  }

  // The first k segments of a buffer as OD write requests.
  function Writes(data: seq<Octet>, odLen: nat, k: nat): (w: seq<Act>)
    ensures |w| == k
  {
    if k == 0 then []
    else Writes(data, odLen, k - 1) + [OdRequest(true, Isdu, FlowControl(k - 1), Slice(data, odLen * (k - 1), odLen))]
  }

  // The octets OD write requests carry, joined.
  function Carried(acts: seq<Act>): (o: seq<Octet>) {
    if acts == [] then []
    else
      var a := acts[|acts| - 1];
      var last := if a.OdRequest? && a.write then a.payload else [];
      Carried(acts[..|acts| - 1]) + last
  }

  lemma {:induction false} WritesCarryBuffer(data: seq<Octet>, odLen: nat, k: nat)
    ensures Carried(Writes(data, odLen, k)) == Slice(data, 0, odLen * k)
  {
    if k > 0 {
      WritesCarryBuffer(data, odLen, k - 1);
      var w := Writes(data, odLen, k);
      assert w[..|w| - 1] == Writes(data, odLen, k - 1);
      assert odLen * k == odLen * (k - 1) + odLen;
    }
  }

  lemma Grows(a: nat, b: nat)
    requires b >= 1
    ensures a * b >= a
  {
  }

  // The number of segments, without the wrap of the eight bit division.
  lemma SegmentCount(total: Octet, odLen: nat)
    requires 1 <= odLen && 1 <= total
    ensures TotalSegments(total, odLen) == CeilDiv(total, odLen) <= total
  {
    hide CeilDiv;
    Grows(CeilDiv(total, odLen) - 1, odLen);
  }

  // k of n segments are out; with the last reply, at `now`, the wait begins.
  ghost predicate SendingAt(c0: Ctx, c: Ctx, n: nat, k: nat, now: nat) {
    && c.rw == c0.rw
    && c.h.data == c0.h.data && c.h.dirRead == c0.h.dirRead && c.h.active && c.h.totalSeg == n
    && (k < n ==> c.h.state == IsduRequest2 && c.h.currentSeg == k)
    && (k == n ==> c.h.state == IsduWait3 && c.h.currentSeg == 0 && c.h.timer == TimerStart(now))
  }

  // After k master/device pairs exactly the first k segments are out.
  lemma {:induction false} SendPrefix(c: Ctx, ins: seq<IsduIn>, odLen: nat, k: nat)
    requires c.h.state == IsduIdle1 && c.h.active && c.rw == RwIsduTransport
    requires 1 <= k <= c.h.totalSeg && 2 * k <= |ins| && Alternating(ins, odLen)
    ensures var o := Run(c, ins[..2 * k]);
      o.acts == Writes(c.h.data, odLen, k) && SendingAt(c, o.c, c.h.totalSeg, k, ins[2 * k - 1].now)
  {
    hide Step, Run, Slice, SendingAt, TimerStart;
    RunPair(c, ins, k - 1);
    if k == 1 {
      assert ins[..0] == [];
      RunNothing(c);
      FirstSend(c, ins[0], ins[1]);
    } else {
      SendPrefix(c, ins, odLen, k - 1);
      var before := Run(c, ins[..2 * (k - 1)]).c;
      SendStep(c, before, ins[2 * (k - 1)], ins[2 * k - 1], c.h.totalSeg, k - 1, ins[2 * k - 3].now);
    }
    assert odLen * (k - 1) == (k - 1) * odLen;
  }

  lemma {:induction false} FirstSend(c: Ctx, m: IsduIn, d: IsduIn)
    requires c.h.state == IsduIdle1 && c.h.active && c.rw == RwIsduTransport && c.h.totalSeg >= 1
    requires m.trigger == MasterMessage && d.trigger == DeviceMessage && !m.comLost && !d.comLost
    ensures var sent := Step(c, m); var next := Step(sent.c, d);
      && sent.acts == [OdRequest(true, Isdu, FLOWCTRL_START, Slice(c.h.data, 0, m.odLen))]
      && next.acts == []
      && SendingAt(c, next.c, c.h.totalSeg, 1, d.now)
  {
  }

  lemma {:induction false} SendStep(c0: Ctx, c: Ctx, m: IsduIn, d: IsduIn, n: nat, k: nat, before: nat)
    requires c0.rw == RwIsduTransport && SendingAt(c0, c, n, k, before) && 1 <= k < n <= 255
    requires m.trigger == MasterMessage && d.trigger == DeviceMessage && !m.comLost && !d.comLost
    ensures var sent := Step(c, m); var next := Step(sent.c, d);
      && sent.acts == [OdRequest(true, Isdu, FlowControl(k), Slice(c0.h.data, m.odLen * k, m.odLen))]
      && next.acts == []
      && SendingAt(c0, next.c, n, k + 1, d.now)
  {
  }

  // The request transfer. For every request and OD length, the octets of the
  // OD writes decode to exactly that request; the writes number the segments
  // START, 1, 2, ... modulo 16, and there are exactly enough of them.
  lemma {:induction false} RequestTransfer(c: Ctx, r: Request, odLen: nat, ins: seq<IsduIn>)
    requires 1 <= odLen <= 32 && Encodable(r) && Accepted(c, r, odLen)
    requires Alternating(ins, odLen) && |ins| == 2 * CeilDiv(|EncodeRequest(r)|, odLen)
    ensures var n := CeilDiv(|EncodeRequest(r)|, odLen); var o := Run(c, ins);
      && o.acts == Writes(c.h.data, odLen, n)
      && DecodeRequest(Carried(o.acts)) == Some(r)
      && SendingAt(c, o.c, n, n, ins[2 * n - 1].now)
  {
    hide Run, Step, DecodeRequest, EncodeRequest, TotalSegments, CeilDiv, Writes, Carried, Alternating;
    var n := CeilDiv(|EncodeRequest(r)|, odLen);
    FrameLength(r);
    SegmentCount(|EncodeRequest(r)|, odLen);
    assert odLen * n == n * odLen;
    SendAll(c, r, odLen, ins, n);
  }

  lemma {:induction false} SendAll(c: Ctx, r: Request, odLen: nat, ins: seq<IsduIn>, n: nat)
    requires c.h.state == IsduIdle1 && c.h.active && c.rw == RwIsduTransport && c.h.totalSeg == n >= 1
    requires Encodable(r) && EncodeRequest(r) <= c.h.data && odLen * n >= |EncodeRequest(r)|
    requires Alternating(ins, odLen) && |ins| == 2 * n
    ensures var o := Run(c, ins);
      && o.acts == Writes(c.h.data, odLen, n)
      && DecodeRequest(Carried(o.acts)) == Some(r)
      && SendingAt(c, o.c, n, n, ins[2 * n - 1].now)
  {
    hide Run, Step, DecodeRequest, EncodeRequest, Writes, Carried, Alternating;
    SendPrefix(c, ins, odLen, n);
    assert ins[..2 * n] == ins;
    WritesCarryBuffer(c.h.data, odLen, n);
    PaddedDecodes(c.h.data, r, odLen * n);
  }

  lemma FrameLength(r: Request)
    requires Encodable(r)
    ensures 3 <= |EncodeRequest(r)| <= ISDU_MAX_SIZE
  {
  }

  // Any number of buffer octets that covers the request decodes to it.
  lemma PaddedDecodes(data: seq<Octet>, r: Request, m: nat)
    requires Encodable(r) && EncodeRequest(r) <= data && m >= |EncodeRequest(r)|
    ensures DecodeRequest(Slice(data, 0, m)) == Some(r)
  {
    hide DecodeRequest, Frame;
    var e := EncodeRequest(r);
    var wire := Slice(data, 0, m);
    assert wire == e + wire[|e|..];
    RequestRoundTrip(r, wire[|e|..]);
  }

  // ---- the response ----

  // The device's j-th segment: the response octets it still has, then anything.
  ghost predicate Carries(rx: seq<Octet>, octets: seq<Octet>, j: nat, odLen: nat) {
    && odLen <= |rx|
    && forall i :: 0 <= i < odLen && j * odLen + i < |octets| ==> rx[i] == octets[j * odLen + i]
  }

  // b busy replies, then the segments of `octets` in order.
  ghost predicate Replies(ins: seq<IsduIn>, octets: seq<Octet>, odLen: nat, b: nat) {
    forall k :: 0 <= k < |ins| && k % 2 == 1 ==>
      && (k / 2 < b ==> 1 <= odLen <= |ins[k].rx| && ins[k].rx[0] == 1)
      && (k / 2 >= b ==> Carries(ins[k].rx, octets, k / 2 - b, odLen))
  }

  // The timer does not run out on any of these inputs.
  ghost predicate InTime(timer: nat, ins: seq<IsduIn>) {
    forall k :: 0 <= k < |ins| ==> !TimerElapsed(timer, ins[k].now)
  }

  ghost predicate Waiting(c: Ctx, read: bool) {
    && c.h.state == IsduWait3 && c.h.active && c.h.currentSeg == 0 && c.rw == RwIsduTransport
    && |c.h.data| == ISDU_MAX_SIZE && c.h.dirRead == read
  }

  // The read requests for b + k segments, the first b answered by "busy".
  function Reads(b: nat, k: nat): (w: seq<Act>)
    ensures |w| == b + k
  {
    if k == 0 then (if b == 0 then [] else Reads(b - 1, 0) + [OdRequest(false, Isdu, FLOWCTRL_START, [])])
    else Reads(b, k - 1) + [OdRequest(false, Isdu, FlowControl(k - 1), [])]
  }

  // Waiting is unchanged by busy replies, up to the octets they leave behind.
  lemma {:induction false} BusyPrefix(c: Ctx, ins: seq<IsduIn>, octets: seq<Octet>, odLen: nat, b: nat, j: nat)
    requires 1 <= odLen <= 32 && Waiting(c, c.h.dirRead)
    requires Alternating(ins, odLen) && Replies(ins, octets, odLen, b) && InTime(c.h.timer, ins)
    requires j <= b && 2 * j <= |ins|
    ensures var o := Run(c, ins[..2 * j]);
      && o.acts == Reads(j, 0)
      && Waiting(o.c, c.h.dirRead) && o.c.h.timer == c.h.timer
      && (forall i :: odLen <= i < ISDU_MAX_SIZE ==> o.c.h.data[i] == c.h.data[i])
  {
    hide Step, Run, TimerElapsed, FlowControl;
    if j == 0 {
      assert ins[..0] == [];
      RunNothing(c);
    } else {
      assert (2 * j - 1) % 2 == 1 && (2 * j - 1) / 2 == j - 1;
      BusyPrefix(c, ins, octets, odLen, b, j - 1);
      RunPair(c, ins, j - 1);
      var before := Run(c, ins[..2 * (j - 1)]).c;
      BusyStep(before, ins[2 * j - 2], ins[2 * j - 1]);
    }
  }

  lemma BusyStep(c: Ctx, m: IsduIn, d: IsduIn)
    requires Waiting(c, c.h.dirRead) && 1 <= d.odLen <= |d.rx| && d.rx[0] == 1
    requires m.trigger == MasterMessage && d.trigger == DeviceMessage && !m.comLost && !d.comLost
    requires !TimerElapsed(c.h.timer, m.now) && !TimerElapsed(c.h.timer, d.now)
    ensures var sent := Step(c, m); var next := Step(sent.c, d);
      && sent.acts == [OdRequest(false, Isdu, FLOWCTRL_START, [])] && next.acts == []
      && Waiting(next.c, c.h.dirRead) && next.c.h.timer == c.h.timer
      && (forall i :: d.odLen <= i < ISDU_MAX_SIZE ==> next.c.h.data[i] == c.h.data[i])
  {
    hide TimerElapsed, ValidHeader, TotalLen, TotalSegments, EnterError4, ReceptionComplete;
  }

  // The octet the length is read from before the segment that holds it arrives.
  ghost predicate Readable(octets: seq<Octet>, odLen: nat, stale: Octet) {
    odLen >= 2 || |octets| <= 15 || (stale >= 3 && stale != 16)
  }

  // The buffer agrees with the response on its first m octets.
  ghost predicate Agrees(data: seq<Octet>, octets: seq<Octet>, m: nat) {
    |data| == ISDU_MAX_SIZE && forall i :: 0 <= i < m && i < |octets| && i < ISDU_MAX_SIZE ==> data[i] == octets[i]
  }

  ghost predicate ReceivingAt(c: Ctx, octets: seq<Octet>, odLen: nat, stale: Octet, k: nat) {
    && c.h.state == IsduResponse5 && c.h.active && c.rw == RwIsduTransport && c.h.currentSeg == k
    && Agrees(c.h.data, octets, k * odLen)
    && (k * odLen == 1 ==> c.h.data[1] == stale)
  }

  lemma BlitAgrees(data: seq<Octet>, octets: seq<Octet>, rx: seq<Octet>, odLen: nat, j: nat)
    requires Agrees(data, octets, j * odLen) && Carries(rx, octets, j, odLen)
    ensures Agrees(Blit(data, j * odLen, Slice(rx, 0, odLen)), octets, (j + 1) * odLen)
  {
    assert (j + 1) * odLen == j * odLen + odLen;
  }

  // With the whole response in the buffer, the confirmation is its contents.
  lemma CompletionConfirms(c: Ctx, octets: seq<Octet>, read: bool)
    requires WellFormedResponse(octets, read) && |octets| <= ISDU_MAX_SIZE
    requires Agrees(c.h.data, octets, |octets|) && c.h.totalLen == |octets|
    ensures Finished(ReceptionComplete(c), octets)
  {
    hide XorAll;
    var d := c.h.data;
    var p := ParseResponse(octets);
    assert TotalLen(d) == |octets|;
    var offset := if LenOf(d) == 1 then 2 else 1;
    assert Slice(d, offset, |octets| - offset - 1) == p.data;
    assert Slice(d, 0, |octets|) == octets;
  }

  // The length is known whenever the next segment needs it, or the octet it is
  // read from does not end the reception yet.
  lemma LengthKnown(c: Ctx, octets: seq<Octet>, odLen: nat, stale: Octet, read: bool, k: nat)
    requires 1 <= odLen <= 32 && WellFormedResponse(octets, read) && |octets| <= ISDU_MAX_SIZE
    requires Readable(octets, odLen, stale) && ReceivingAt(c, octets, odLen, stale, k)
    requires var n := CeilDiv(|octets|, odLen); 1 <= k < n
    ensures var n := CeilDiv(|octets|, odLen); var total := TotalLen(c.h.data);
      (total == |octets| && TotalSegments(total, odLen) == n) || (k + 1 < n && TotalSegments(total, odLen) > k + 1)
  {
    hide XorAll, CeilDiv;
    SegmentCount(|octets|, odLen);
    assert k * odLen >= 1;
    if k * odLen >= 2 || |octets| <= 15 {
      assert TotalLen(c.h.data) == |octets|;
    } else {
      assert odLen == 1 && k == 1;
      SegmentCount(stale, 1);
    }
  }

  // A segment in, with the length that was known before it.
  function SegmentIn(c: Ctx, d: IsduIn): Ctx {
    c.(h := ReadTotal(c.h, d.odLen).(
      data := Blit(c.h.data, c.h.currentSeg * d.odLen, Slice(d.rx, 0, d.odLen)),
      currentSeg := (c.h.currentSeg + 1) % 256))
  }

  lemma {:induction false} ResponsePair(c: Ctx, m: IsduIn, d: IsduIn)
    requires c.h.state == IsduResponse5 && c.rw == RwIsduTransport
    requires m.trigger == MasterMessage && d.trigger == DeviceMessage && !m.comLost && !d.comLost
    ensures var sent := Step(c, m); var c1 := SegmentIn(c, d);
      && sent == Out(c, [OdRequest(false, Isdu, c.h.currentSeg % 16, [])])
      && Step(c, d) == (if c1.h.currentSeg >= c1.h.totalSeg then ReceptionComplete(c1) else Out(c1, []))
  {
    hide XorAll, ReceptionComplete, ReadTotal, Slice, Blit;
  }

  // What one more segment adds.
  lemma SegmentArrives(c: Ctx, d: IsduIn, octets: seq<Octet>, odLen: nat, stale: Octet, k: nat)
    requires 1 <= odLen <= 32 && 2 <= |octets| <= ISDU_MAX_SIZE && 1 <= k < CeilDiv(|octets|, odLen)
    requires ReceivingAt(c, octets, odLen, stale, k) && Carries(d.rx, octets, k, odLen) && d.odLen == odLen
    ensures var c1 := SegmentIn(c, d);
      && c1.h.totalLen == TotalLen(c.h.data) && c1.h.totalSeg == TotalSegments(c1.h.totalLen, odLen)
      && ReceivingAt(c1, octets, odLen, stale, k + 1)
      && (k + 1 == CeilDiv(|octets|, odLen) ==> Agrees(c1.h.data, octets, |octets|))
  {
    hide CeilDiv, TotalLen, TotalSegments, Slice, Blit, Carries;
    SegmentCount(|octets|, odLen);
    BlitAgrees(c.h.data, octets, d.rx, odLen, k);
    assert (k + 1) * odLen == k * odLen + odLen >= 2;
  }

  // One more pair while segments are still missing.
  lemma ReceiveStep(c: Ctx, m: IsduIn, d: IsduIn, octets: seq<Octet>, odLen: nat, stale: Octet, read: bool, k: nat)
    requires 1 <= odLen <= 32 && WellFormedResponse(octets, read) && |octets| <= ISDU_MAX_SIZE
    requires Readable(octets, odLen, stale)
    requires var n := CeilDiv(|octets|, odLen); 1 <= k < n
    requires ReceivingAt(c, octets, odLen, stale, k) && Carries(d.rx, octets, k, odLen)
    requires m.trigger == MasterMessage && d.trigger == DeviceMessage && !m.comLost && !d.comLost
    requires m.odLen == d.odLen == odLen
    ensures var n := CeilDiv(|octets|, odLen); var sent := Step(c, m); var next := Step(sent.c, d);
      && sent.acts == [OdRequest(false, Isdu, FlowControl(k), [])]
      && (k + 1 < n ==> next.acts == [] && ReceivingAt(next.c, octets, odLen, stale, k + 1))
      && (k + 1 == n ==> Finished(next, octets))
  {
    hide Step, XorAll, ReceptionComplete, Confirmation, CeilDiv, TotalLen, TotalSegments, SegmentIn, Carries, Readable, Agrees;
    SegmentCount(|octets|, odLen);
    ResponsePair(c, m, d);
    LengthKnown(c, octets, odLen, stale, read, k);
    SegmentArrives(c, d, octets, odLen, stale, k);
    if k + 1 == CeilDiv(|octets|, odLen) {
      CompletionConfirms(SegmentIn(c, d), octets, read);
    }
  }

  // The confirmation a response must lead to, and the handler back at rest.
  function Confirmation(octets: seq<Octet>): (a: Act)
    requires AnnouncedLength(octets) == Some(|octets|)
  {
    var p := ParseResponse(octets);
    IsduCnf(p.data, p.service, if p.intact then NoError else ChecksumError)
  }

  ghost predicate AtRest(c: Ctx) {
    c.h.state == IsduIdle1 && c.h.totalSeg == 0 && c.rw == RwNone
  }

  ghost predicate Finished(o: Out, octets: seq<Octet>)
    requires AnnouncedLength(octets) == Some(|octets|)
  {
    o.acts == [Confirmation(octets)] && AtRest(o.c)
  }

  // The first segment, out of Wait3.
  lemma {:induction false} FirstSegment(c: Ctx, m: IsduIn, d: IsduIn, octets: seq<Octet>, odLen: nat, read: bool)
    requires 1 <= odLen <= 32 && WellFormedResponse(octets, read) && |octets| <= ISDU_MAX_SIZE
    requires Waiting(c, read) && Carries(d.rx, octets, 0, odLen) && Readable(octets, odLen, c.h.data[1])
    requires m.trigger == MasterMessage && d.trigger == DeviceMessage && !m.comLost && !d.comLost
    requires m.odLen == d.odLen == odLen
    requires !TimerElapsed(c.h.timer, m.now) && !TimerElapsed(c.h.timer, d.now)
    ensures var n := CeilDiv(|octets|, odLen); var sent := Step(c, m); var next := Step(sent.c, d);
      && sent.acts == [OdRequest(false, Isdu, FLOWCTRL_START, [])]
      && (n == 1 ==> Finished(next, octets))
      && (n > 1 ==> next.acts == [] && ReceivingAt(next.c, octets, odLen, c.h.data[1], 1))
  {
    hide XorAll, ReceptionComplete, ParseResponse;
    var n := CeilDiv(|octets|, odLen);
    SegmentCount(|octets|, odLen);
    BlitAgrees(c.h.data, octets, d.rx, odLen, 0);
    var data := Blit(c.h.data, 0, Slice(d.rx, 0, odLen));
    assert data[0] == octets[0] && ValidHeader(data, read) && At(data, 0) != 1 && At(data, 0) != 0;
    var total := TotalLen(data);
    assert odLen >= 2 || |octets| <= 15 ==> total == |octets|;
    if odLen == 1 && |octets| >= 17 {
      assert total == c.h.data[1] && TotalSegments(total, 1) == total;
    }
    if n == 1 {
      CompletionConfirms(c.(h := c.h.(data := data, totalLen := |octets|, currentSeg := 1, totalSeg := 1, timer := 0)), octets, read);
    }
  }

  // The state after b busy replies and the first k segments.
  ghost predicate Received(o: Out, octets: seq<Octet>, odLen: nat, stale: Octet, b: nat, k: nat)
    requires AnnouncedLength(octets) == Some(|octets|) && odLen >= 1
  {
    if k < CeilDiv(|octets|, odLen)
    then o.acts == Reads(b, k) && ReceivingAt(o.c, octets, odLen, stale, k)
    else o.acts == Reads(b, k) + [Confirmation(octets)] && AtRest(o.c)
  }

  lemma {:induction false} ReceivePrefix(c: Ctx, ins: seq<IsduIn>, octets: seq<Octet>, odLen: nat, read: bool, b: nat, k: nat)
    requires 1 <= odLen <= 32 && WellFormedResponse(octets, read) && |octets| <= ISDU_MAX_SIZE
    requires Waiting(c, read) && Readable(octets, odLen, c.h.data[1])
    requires Alternating(ins, odLen) && Replies(ins, octets, odLen, b) && InTime(c.h.timer, ins)
    requires 1 <= k <= CeilDiv(|octets|, odLen) && |ins| >= 2 * (b + k)
    ensures Received(Run(c, ins[..2 * (b + k)]), octets, odLen, c.h.data[1], b, k)
  {
    hide Step, Run, Confirmation, Agrees, TimerElapsed, AnnouncedLength, Answers, CeilDiv;
    RunPair(c, ins, b + k - 1);
    var at := 2 * (b + k) - 1;
    var m, d := ins[at - 1], ins[at];
    var before := Run(c, ins[..at - 1]);
    assert Carries(d.rx, octets, k - 1, odLen) by {
      assert at % 2 == 1 && at / 2 == b + k - 1;
    }
    if k == 1 {
      BusyPrefix(c, ins, octets, odLen, b, b);
      assert odLen == 1 ==> before.c.h.data[1] == c.h.data[1];
      FirstSegment(before.c, m, d, octets, odLen, read);
    } else {
      ReceivePrefix(c, ins, octets, odLen, read, b, k - 1);
      ReceiveStep(before.c, m, d, octets, odLen, c.h.data[1], read, k - 1);
    }
  }

  // The response transfer. After any number of busy replies, the segments of
  // any well-formed response rebuild it: one read request per segment, and one
  // confirmation with its service nibble and its data, without error exactly
  // when all its octets sum to zero.
  lemma {:induction false} ResponseTransfer(c: Ctx, octets: seq<Octet>, odLen: nat, read: bool, b: nat, ins: seq<IsduIn>)
    requires 1 <= odLen <= 32 && WellFormedResponse(octets, read) && |octets| <= ISDU_MAX_SIZE
    requires Waiting(c, read) && Readable(octets, odLen, c.h.data[1])
    requires Alternating(ins, odLen) && Replies(ins, octets, odLen, b) && InTime(c.h.timer, ins)
    requires |ins| == 2 * (b + CeilDiv(|octets|, odLen))
    ensures var o := Run(c, ins);
      && o.acts == Reads(b, CeilDiv(|octets|, odLen)) + [Confirmation(octets)]
      && AtRest(o.c)
  {
    hide Step, Run, Confirmation, CeilDiv;
    ReceivePrefix(c, ins, octets, odLen, read, b, CeilDiv(|octets|, odLen));
    assert ins[..|ins|] == ins;
  }

  // A whole service: the request goes out, the device is busy b times, and its
  // response is confirmed to the caller.
  lemma {:induction false} Conversation(c: Ctx, r: Request, octets: seq<Octet>, odLen: nat, b: nat, ins: seq<IsduIn>)
    requires 1 <= odLen <= 32 && Encodable(r) && Accepted(c, r, odLen)
    requires WellFormedResponse(octets, r.read) && |octets| <= ISDU_MAX_SIZE && Readable(octets, odLen, c.h.data[1])
    requires var n := CeilDiv(|EncodeRequest(r)|, odLen);
      && Alternating(ins, odLen) && |ins| == 2 * n + 2 * (b + CeilDiv(|octets|, odLen))
      && Replies(ins[2 * n..], octets, odLen, b) && InTime(TimerStart(ins[2 * n - 1].now), ins[2 * n..])
    ensures var n := CeilDiv(|EncodeRequest(r)|, odLen); var o := Run(c, ins);
      && o.acts == Writes(c.h.data, odLen, n) + (Reads(b, CeilDiv(|octets|, odLen)) + [Confirmation(octets)])
      && DecodeRequest(Carried(Writes(c.h.data, odLen, n))) == Some(r)
      && AtRest(o.c)
  {
    hide Run, Step, DecodeRequest, EncodeRequest, CeilDiv, Writes, Carried, Replies, InTime, Confirmation, Alternating, Readable,
      TimerStart, TotalSegments, WellFormedResponse;
    FrameLength(r);
    var n := CeilDiv(|EncodeRequest(r)|, odLen);
    assert ins[..2 * n] + ins[2 * n..] == ins && ins[..2 * n][2 * n - 1] == ins[2 * n - 1];
    AlternatingParts(ins, odLen, n);
    RequestTransfer(c, r, odLen, ins[..2 * n]);
    var mid := Run(c, ins[..2 * n]).c;
    ResponseTransfer(mid, octets, odLen, r.read, b, ins[2 * n..]);
    RunAppend(c, ins[..2 * n], ins[2 * n..]);
  }

  // A device that answers at once: b busy replies, then its response. The first
  // n replies, to the request, carry nothing.
  function Prompt(octets: seq<Octet>, odLen: nat, n: nat, b: nat, k: nat): IsduIn
    requires odLen >= 1
  {
    var j := k / 2;
    IsduIn(if k % 2 == 0 then MasterMessage else DeviceMessage, odLen, false, 1,
           if j < n then [] else if j - n < b then [1] + Zeros(odLen - 1) else Slice(octets, (j - n - b) * odLen, odLen), 0, 0)
  }

  // Whatever the request and the response, there is such a conversation.
  lemma ConversationPossible(octets: seq<Octet>, odLen: nat, n: nat, b: nat)
    requires 1 <= odLen <= 32 && n >= 1
    ensures exists ins: seq<IsduIn> ::
      && Alternating(ins, odLen) && |ins| == 2 * n + 2 * (b + CeilDiv(|octets|, odLen))
      && Replies(ins[2 * n..], octets, odLen, b) && InTime(TimerStart(ins[2 * n - 1].now), ins[2 * n..])
  {
    hide Slice, CeilDiv;
    var total := 2 * n + 2 * (b + CeilDiv(|octets|, odLen));
    var ins := seq(total, k requires 0 <= k < total => Prompt(octets, odLen, n, b, k));
    var rest := ins[2 * n..];
    assert Alternating(ins, odLen);
    forall k | 0 <= k < |rest| && k % 2 == 1
      ensures k / 2 < b ==> rest[k].rx == [1] + Zeros(odLen - 1)
      ensures k / 2 >= b ==> Carries(rest[k].rx, octets, k / 2 - b, odLen)
    {
      var i := 2 * n + k;
      assert rest[k] == Prompt(octets, odLen, n, b, i) && i / 2 == n + k / 2;
      if k / 2 >= b { SliceCarries(octets, k / 2 - b, odLen); }
    }
    assert Replies(rest, octets, odLen, b);
    assert InTime(TimerStart(1), rest);
  }

  lemma SliceCarries(octets: seq<Octet>, j: nat, odLen: nat)
    ensures Carries(Slice(octets, j * odLen, odLen), octets, j, odLen)
  {
  }

  lemma AlternatingParts(ins: seq<IsduIn>, odLen: nat, n: nat)
    requires Alternating(ins, odLen) && 2 * n <= |ins|
    ensures Alternating(ins[..2 * n], odLen) && Alternating(ins[2 * n..], odLen)
  {
  }

  lemma {:induction false} ReadsAreRequests(b: nat, k: nat, i: nat)
    requires i < b + k
    ensures Reads(b, k)[i].OdRequest?
  {
    if k == 0 {
      if i < b - 1 { ReadsAreRequests(b - 1, 0, i); }
    } else if i < b + k - 1 {
      ReadsAreRequests(b, k - 1, i);
    }
  }

  // A stale second octet of 0, 1, 2 or 16 ends a one-octet-segment reception of
  // an extended response after its first or second segment.
  lemma {:induction false} EarlyFirst(c: Ctx, m: IsduIn, d: IsduIn, octets: seq<Octet>, read: bool)
    requires WellFormedResponse(octets, read) && |octets| >= 17
    requires Waiting(c, read) && Carries(d.rx, octets, 0, 1) && !Readable(octets, 1, c.h.data[1])
    requires m.trigger == MasterMessage && d.trigger == DeviceMessage && !m.comLost && !d.comLost
    requires m.odLen == d.odLen == 1
    requires !TimerElapsed(c.h.timer, m.now) && !TimerElapsed(c.h.timer, d.now)
    ensures var sent := Step(c, m); var next := Step(sent.c, d);
      && sent.acts == [OdRequest(false, Isdu, FLOWCTRL_START, [])]
      && (c.h.data[1] != 2 ==> |next.acts| == 1 && next.acts[0].IsduCnf?)
      && (c.h.data[1] == 2 ==> next.acts == [] && ReceivingAt(next.c, octets, 1, 2, 1))
  {
    hide XorAll;
    var data := Blit(c.h.data, 0, Slice(d.rx, 0, 1));
    assert data[0] == octets[0] && data[1] == c.h.data[1];
  }

  lemma {:induction false} EarlySecond(c: Ctx, m: IsduIn, d: IsduIn, octets: seq<Octet>, read: bool)
    requires WellFormedResponse(octets, read) && |octets| >= 17
    requires ReceivingAt(c, octets, 1, 2, 1)
    requires m.trigger == MasterMessage && d.trigger == DeviceMessage && !m.comLost && !d.comLost
    requires m.odLen == d.odLen == 1
    ensures var sent := Step(c, m); var next := Step(sent.c, d);
      && sent.acts == [OdRequest(false, Isdu, FlowControl(1), [])]
      && |next.acts| == 1 && next.acts[0].IsduCnf?
  {
    hide XorAll;
  }

  // Exactly when an extended response survives one-octet segments: the length
  // is first taken from the octet left in the buffer by the request or by an
  // earlier response, so that octet must not end the reception too soon.
  lemma {:induction false} SingleOctetSegments(c: Ctx, octets: seq<Octet>, read: bool, b: nat, ins: seq<IsduIn>)
    requires WellFormedResponse(octets, read) && 17 <= |octets| <= ISDU_MAX_SIZE
    requires Waiting(c, read)
    requires Alternating(ins, 1) && Replies(ins, octets, 1, b) && InTime(c.h.timer, ins)
    requires |ins| == 2 * (b + |octets|)
    ensures Run(c, ins).acts == Reads(b, |octets|) + [Confirmation(octets)]
      <==> c.h.data[1] >= 3 && c.h.data[1] != 16
  {
    hide Step, Run, Confirmation, AnnouncedLength, Answers;
    assert CeilDiv(|octets|, 1) == |octets|;
    if Readable(octets, 1, c.h.data[1]) {
      ResponseTransfer(c, octets, 1, read, b, ins);
    } else {
      var j := if c.h.data[1] == 2 then 2 else 1;
      EarlyEnd(c, octets, read, b, ins, j);
      var m := 2 * (b + j);
      RunAppend(c, ins[..m], ins[m..]);
      assert ins[..m] + ins[m..] == ins;
      assert Run(c, ins).acts[b + j].IsduCnf?;
      ReadsAreRequests(b, |octets|, b + j);
    }
  }

  lemma {:induction false} EarlyEnd(c: Ctx, octets: seq<Octet>, read: bool, b: nat, ins: seq<IsduIn>, j: nat)
    requires WellFormedResponse(octets, read) && 17 <= |octets| <= ISDU_MAX_SIZE
    requires Waiting(c, read) && !Readable(octets, 1, c.h.data[1])
    requires Alternating(ins, 1) && Replies(ins, octets, 1, b) && InTime(c.h.timer, ins)
    requires |ins| == 2 * (b + |octets|) && j == (if c.h.data[1] == 2 then 2 else 1)
    ensures var acts := Run(c, ins[..2 * (b + j)]).acts; |acts| == b + j + 1 && acts[b + j].IsduCnf?
  {
    hide Step, Run, AnnouncedLength, Answers, TimerElapsed;
    BusyPrefix(c, ins, octets, 1, b, b);
    RunPair(c, ins, b);
    var at := 2 * b;
    var waiting := Run(c, ins[..at]).c;
    assert Carries(ins[at + 1].rx, octets, 0, 1) by {
      assert (at + 1) % 2 == 1 && (at + 1) / 2 == b;
    }
    EarlyFirst(waiting, ins[at], ins[at + 1], octets, read);
    if c.h.data[1] == 2 {
      RunPair(c, ins, b + 1);
      EarlySecond(Run(c, ins[..at + 2]).c, ins[at + 2], ins[at + 3], octets, read);
    }
  }

  // The second octet of a request: its length if that does not fit the first,
  // and the first octet of the index otherwise.
  lemma SecondOctet(r: Request)
    requires Encodable(r)
    ensures var short := |Address(r)| + |r.data| <= 13; var e := EncodeRequest(r);
      && e[1] == (if !short then |e| else if r.index > 255 then r.index / 256 else r.index)
      && (!short ==> |e| >= 17)
  {
    hide XorAll;
  }

  // In one-octet segments it is the request that decides whether an extended
  // response can be received: it fails for every short request whose index, or
  // its first octet, is 1, 2 or 16, such as a read of index 2, and for no other.
  lemma {:induction false} SingleOctetService(c: Ctx, r: Request, octets: seq<Octet>, b: nat, ins: seq<IsduIn>)
    requires Encodable(r) && Accepted(c, r, 1)
    requires WellFormedResponse(octets, r.read) && 17 <= |octets| <= ISDU_MAX_SIZE
    requires var n := |EncodeRequest(r)|;
      && Alternating(ins, 1) && |ins| == 2 * n + 2 * (b + |octets|)
      && Replies(ins[2 * n..], octets, 1, b) && n >= 1 && InTime(TimerStart(ins[2 * n - 1].now), ins[2 * n..])
    ensures Run(c, ins).acts == Writes(c.h.data, 1, |EncodeRequest(r)|) + (Reads(b, |octets|) + [Confirmation(octets)])
      <==> !(|Address(r)| + |r.data| <= 13 && (if r.index > 255 then r.index / 256 else r.index) in {1, 2, 16})
  {
    hide Run, Step, DecodeRequest, EncodeRequest, CeilDiv, Writes, Carried, Replies, InTime, Confirmation, Alternating,
      TimerStart, TotalSegments, Address, AnnouncedLength, Answers;
    FrameLength(r);
    SecondOctet(r);
    CeilOne(|EncodeRequest(r)|);
    var n := |EncodeRequest(r)|;
    assert ins[..2 * n] + ins[2 * n..] == ins && ins[..2 * n][2 * n - 1] == ins[2 * n - 1];
    AlternatingParts(ins, 1, n);
    RequestTransfer(c, r, 1, ins[..2 * n]);
    var first := Run(c, ins[..2 * n]);
    SingleOctetSegments(first.c, octets, r.read, b, ins[2 * n..]);
    RunAppend(c, ins[..2 * n], ins[2 * n..]);
    var second := Run(first.c, ins[2 * n..]).acts;
    assert first.c.h.data[1] == EncodeRequest(r)[1];
    Cancelled(first.acts, second, Reads(b, |octets|) + [Confirmation(octets)]);
  }

  lemma Cancelled(a: seq<Act>, x: seq<Act>, y: seq<Act>)
    ensures a + x == a + y <==> x == y
  {
    assert (a + x)[|a|..] == x && (a + y)[|a|..] == y;
  }

  lemma CeilOne(a: nat)
    ensures CeilDiv(a, 1) == a
  {
  }

  // Whole-segment copies of a message stay inside the ISDU buffer exactly when
  // its last segment does.
  lemma CopiesInsideBuffer(total: nat, odLen: nat)
    requires 1 <= odLen && 1 <= total
    ensures (forall k :: 0 <= k < CeilDiv(total, odLen) ==> odLen * k + odLen <= ISDU_MAX_SIZE)
      <==> odLen * CeilDiv(total, odLen) <= ISDU_MAX_SIZE
  {
    var n := CeilDiv(total, odLen);
    assert odLen * (n - 1) + odLen == odLen * n;
    forall k | 0 <= k < n
      ensures odLen * k + odLen <= odLen * n
    {
      assert odLen * (n - 1 - k) >= 0;
    }
  }
}
