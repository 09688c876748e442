// The ISDU handler of section 7.3.6 as iolink_dl.c runs it: one step per call
// of iolink_dl_isdu_h_sm, on the handler's own record, the pending read/write
// command and the inputs it looks at.
module IsduMachine {
  import opened Octets
  import opened DlTypes
  import IsduCoding

  datatype Ctx = Ctx(h: IsduHandler, rw: RwCmd)

  datatype Out = Out(c: Ctx, acts: seq<Act>)

  const RESPONSE_TIME: nat := 5_000_000
  const CLOCK_RANGE: nat := 0x1_0000_0000

  function TimerStart(now: nat): (t: nat)
    ensures t > 0
  {
    if now == 0 then 1 else now
  }

  predicate TimerElapsed(timer: nat, now: nat) {
    timer != 0 && (now - timer) % CLOCK_RANGE > RESPONSE_TIME
  }

  // An OD write carries `data` padded with zeros to the OD length.
  function Payload(data: seq<Octet>, odLen: nat): (p: seq<Octet>)
    ensures |p| == odLen
  {
    Slice(data, 0, odLen)
  }

  // ---- header access (get_isdu_*) ----

  function At(data: seq<Octet>, i: nat): (o: Octet) {
    if i < |data| then data[i] else 0
  }

  function ServiceOf(data: seq<Octet>): (n: nat)
    ensures n < 16
  {
    At(data, 0) / 16
  }

  function LenOf(data: seq<Octet>): (n: nat)
    ensures n < 16
  {
    At(data, 0) % 16
  }

  // The total length as the code reads it; 0 stands for "no legal length".
  function TotalLen(data: seq<Octet>): (n: Octet) {
    var len := if LenOf(data) == 1 then At(data, 1) else LenOf(data);
    if len < 2 || len == 16 then 0 else len
  }

  function TotalSegments(totalLen: Octet, odLen: nat): (n: Octet) {
    if odLen == 0 then 0 else CeilDiv(totalLen, odLen) % 256
  }

  predicate ValidHeader(data: seq<Octet>, dirRead: bool) {
    var service := ServiceOf(data);
    if service == IsduCoding.NO_SERVICE then LenOf(data) <= 1
    else LenOf(data) != 0 && IsduCoding.Answers(service, dirRead)
  }

  // ---- the states ----

  // Why the transfer ended in an error.
  function ErrorCause(c: Ctx, i: IsduIn): Status {
    if TimerElapsed(c.h.timer, i.now) then IsduTimeout
    else if i.comLost then NoComm
    else if c.rw == RwIsduAbort then IsduAborted
    else if !ValidHeader(c.h.data, c.h.dirRead) then IllegalService
    else Invalid
  }

  // iolink_dl_isdu_h_sm_isdu_error4
  function Error4(c: Ctx, i: IsduIn): (o: Out) {
    if !c.h.active then
      Out(c.(h := c.h.(state := IsduInactive0)), [IsduDropped])
    else
      var status := ErrorCause(c, i);
      var qualifier := if status == IllegalService then ServiceOf(c.h.data) else 0;
      Out(Ctx(c.h.(totalSeg := 0, state := IsduIdle1), RwNone),
          [OdRequest(false, Isdu, FLOWCTRL_ABORT, []), IsduCnf([], qualifier, status)])
  }

  // iolink_dl_isdu_h_sm_enter_isduerror4
  function EnterError4(c: Ctx, i: IsduIn): (o: Out) {
    if !c.h.active then
      Out(c.(h := c.h.(totalSeg := 0, state := IsduInactive0)), [IsduCnf([], 0, NoComm)])
    else if i.trigger == MasterMessage then Error4(c, i)
    else Out(c.(h := c.h.(state := IsduError4)), [])
  }

  // iolink_dl_isdu_h_sm_reception_complete
  function ReceptionComplete(c: Ctx): (o: Out) {
    var d := c.h.data;
    var total := TotalLen(d);
    var offset := if LenOf(d) == 1 then 2 else 1;
    var cnf :=
      if total == 0 then IsduCnf([], ServiceOf(d), Invalid)
      else IsduCnf(Slice(d, offset, (total - offset - 1) % 256), ServiceOf(d),
                   if XorAll(Slice(d, 0, c.h.totalLen)) == 0 then NoError else ChecksumError);
    Out(Ctx(c.h.(currentSeg := 0, totalSeg := 0, state := IsduIdle1), RwNone), [cnf])
  }

  function Inactive0(c: Ctx): (o: Out) {
    if c.h.active then
      Out(c.(h := c.h.(totalSeg := 0, currentSeg := 0, state := IsduIdle1)), [])
    else Out(c, [])
  }

  function Idle1(c: Ctx, i: IsduIn): (o: Out) {
    if !c.h.active then
      if c.h.totalSeg != 0 then
        Out(c.(h := c.h.(totalSeg := 0, state := IsduInactive0)), [IsduCnf([], 0, NoComm)])
      else Out(c.(h := c.h.(state := IsduInactive0)), [])
    else match i.trigger
      case MasterMessage =>
        (match c.rw
         case RwIsduTransport =>
           Out(c.(h := c.h.(currentSeg := 1, state := IsduRequest2)),
               [OdRequest(true, Isdu, FLOWCTRL_START, Slice(c.h.data, 0, i.odLen))])
         case RwReadParam => Out(c, [OdRequest(false, Page, i.addr, [])])
         case RwWriteParam => Out(c, [OdRequest(true, Page, i.addr, Payload([i.value], i.odLen))])
         case _ => Out(c, [OdRequest(false, Isdu, FLOWCTRL_IDLE, [])]))
      case DeviceMessage =>
        (match c.rw
         case RwReadParam => Out(c.(rw := RwNone), [ReadParamCnf(At(i.rx, 0), NoError)])
         case RwWriteParam => Out(c.(rw := RwNone), [WriteParamCnf(NoError)])
         case _ => Out(c, []))
      case TrigNone => Out(c, [])
  }

  function Request2(c: Ctx, i: IsduIn): (o: Out) {
    if c.rw == RwIsduAbort || i.comLost then EnterError4(c, i)
    else match i.trigger
      case MasterMessage =>
        Out(c.(h := c.h.(currentSeg := (c.h.currentSeg + 1) % 256)),
            [OdRequest(true, Isdu, c.h.currentSeg % 16, Slice(c.h.data, i.odLen * c.h.currentSeg, i.odLen))])
      case DeviceMessage =>
        if c.h.currentSeg >= c.h.totalSeg then
          Out(c.(h := c.h.(timer := TimerStart(i.now), currentSeg := 0, state := IsduWait3)), [])
        else Out(c, [])
      case TrigNone => Out(c, [])
  }

  // The length of the reply, from its header in the buffer.
  function ReadTotal(h: IsduHandler, odLen: nat): IsduHandler {
    var total := TotalLen(h.data);
    h.(totalLen := total, totalSeg := TotalSegments(total, odLen))
  }

  // What the first segment of a reply, already in the buffer, leads to.
  function FirstReply(c: Ctx, i: IsduIn): (o: Out) {
    if At(c.h.data, 0) == 1 then Out(c, []) // device busy
    else
      var c1 := c.(h := c.h.(timer := 0));
      if At(c.h.data, 0) == 0 || !ValidHeader(c.h.data, c.h.dirRead) then EnterError4(c1, i)
      else
        var c2 := c1.(h := ReadTotal(c1.h, i.odLen).(currentSeg := 1));
        if 1 >= c2.h.totalSeg then ReceptionComplete(c2)
        else Out(c2.(h := c2.h.(state := IsduResponse5)), [])
  }

  // iolink_dl_isdu_h_sm_isdu_wait3
  function Wait3(c: Ctx, i: IsduIn): (o: Out) {
    if c.rw == RwIsduAbort then EnterError4(c.(h := c.h.(timer := 0)), i)
    else if TimerElapsed(c.h.timer, i.now) || i.comLost then EnterError4(c, i)
    else match i.trigger
      case MasterMessage => Out(c, [OdRequest(false, Isdu, FLOWCTRL_START, [])])
      case DeviceMessage => FirstReply(c.(h := c.h.(data := Blit(c.h.data, c.h.currentSeg * i.odLen, Slice(i.rx, 0, i.odLen)))), i)
      case TrigNone => Out(c, [])
  }

  function Response5(c: Ctx, i: IsduIn): (o: Out) {
    if c.rw == RwIsduAbort || i.comLost then EnterError4(c, i)
    else match i.trigger
      case MasterMessage => Out(c, [OdRequest(false, Isdu, c.h.currentSeg % 16, [])])
      case DeviceMessage =>
        // The total is read before the segment is copied in.
        var read := ReadTotal(c.h, i.odLen);
        var c1 := c.(h := read.(
          data := Blit(c.h.data, c.h.currentSeg * i.odLen, Slice(i.rx, 0, i.odLen)),
          currentSeg := (c.h.currentSeg + 1) % 256));
        if c1.h.currentSeg >= c1.h.totalSeg then ReceptionComplete(c1) else Out(c1, [])
      case TrigNone => Out(c, [])
  }

  // iolink_dl_isdu_h_sm
  function Step(c: Ctx, i: IsduIn): (o: Out) {
    match c.h.state
    case IsduInactive0 => Inactive0(c)
    case IsduIdle1 => Idle1(c, i)
    case IsduRequest2 => Request2(c, i)
    case IsduWait3 => Wait3(c, i)
    case IsduError4 => Error4(c, i)
    case IsduResponse5 => Response5(c, i)
  }

  // Several steps, with the acts of all of them in order.
  function Run(c: Ctx, ins: seq<IsduIn>): (o: Out) {
    if ins == [] then Out(c, [])
    else
      var before := Run(c, ins[..|ins| - 1]);
      var last := Step(before.c, ins[|ins| - 1]);
      Out(last.c, before.acts + last.acts)
  }

  lemma {:induction false} RunNothing(c: Ctx)
    ensures Run(c, []) == Out(c, [])
  {
  }

  lemma {:induction false} RunAppend(c: Ctx, a: seq<IsduIn>, b: seq<IsduIn>)
    ensures var first := Run(c, a); var second := Run(first.c, b);
      Run(c, a + b) == Out(second.c, first.acts + second.acts)
  {
    hide Step;
    if b == [] {
      assert a + b == a;
    } else {
      var ab := a + b;
      assert ab[..|ab| - 1] == a + b[..|b| - 1];
      RunAppend(c, a, b[..|b| - 1]);
    }
  }

  // All the handler ever does; and it only ever drops the pending command.
  predicate OwnAct(a: Act) {
    a.IsduCnf? || a.IsduDropped? || a.ReadParamCnf? || a.WriteParamCnf? || (a.OdRequest? && a.channel != Diagnosis)
  }

  ghost predicate Plain(c: Ctx, o: Out) {
    && (forall k :: 0 <= k < |o.acts| ==> OwnAct(o.acts[k]))
    && o.c.rw in {c.rw, RwNone} && o.c.h.active == c.h.active
  }

  lemma EndActs(c: Ctx, i: IsduIn)
    ensures Plain(c, Error4(c, i)) && Plain(c, EnterError4(c, i)) && Plain(c, ReceptionComplete(c))
  {
    hide XorAll, Slice, ValidHeader, TotalLen, TimerElapsed, At;
  }

  lemma {:induction false} QuietStatesActs(c: Ctx, i: IsduIn)
    ensures Plain(c, Inactive0(c)) && Plain(c, Idle1(c, i)) && Plain(c, Request2(c, i))
  {
    hide Slice, Payload, At, EnterError4;
    EndActs(c, i);
  }

  lemma Wait3Acts(c: Ctx, i: IsduIn)
    ensures Plain(c, Wait3(c, i))
  {
    hide Slice, Blit, ValidHeader, TotalLen, TotalSegments, TimerElapsed, At, EnterError4, ReceptionComplete;
    forall x { EndActs(x, i); }
  }

  lemma {:induction false} Response5Acts(c: Ctx, i: IsduIn)
    ensures Plain(c, Response5(c, i))
  {
    hide Slice, Blit, TotalLen, TotalSegments, EnterError4, ReceptionComplete;
    forall x { EndActs(x, i); }
  }

  lemma StepActs(c: Ctx, i: IsduIn)
    ensures Plain(c, Step(c, i))
  {
    hide Inactive0, Idle1, Request2, Wait3, Error4, Response5, Plain;
    QuietStatesActs(c, i);
    Wait3Acts(c, i);
    Response5Acts(c, i);
    EndActs(c, i);
  }

  // No step switches the handler on or off.
  lemma {:induction false} StepsActive(c: Ctx, ins: seq<IsduIn>)
    ensures Run(c, ins).c.h.active == c.h.active
  {
    hide Step;
    if ins != [] {
      StepsActive(c, ins[..|ins| - 1]);
      StepActs(Run(c, ins[..|ins| - 1]).c, ins[|ins| - 1]);
    }
  }
}
