// From one layer to the next: what the data link layer confirms is what the
// caller gets, and the events it reads out reach the application as one set.
module AlServices {
  import opened Octets
  import opened DlTypes
  import opened AlMachine
  import opened AlAnswers
  import IsduCoding
  import IsduTransfer
  import EventReadout
  import EM = EventMachine
  import OM = OdMarks
  import LL = LinkLayer
  import OI = OdInterleaving
  import SC = SharedChannel

  // ---- reads and writes ----

  // The layer at rest, with its buffer.
  ghost predicate Resting(s: Al) {
    s.od == OnReqIdle && !s.halted && |s.dataRead| == IsduCoding.ISDU_MAX_SIZE
  }

  ghost predicate Requests(ins: seq<Input>) { forall i :: i in ins ==> i.Request? }

  // One ISDU service: the request, others too soon, the response data handed
  // over by the link thread, more others, and the confirmation job.
  function Serving(r: AlRequest, early: seq<Input>, data: Option<seq<Octet>>, late: seq<Input>, q: nat, st: Status): seq<Input> {
    [Request(r)] + early + [IsduIndicated(data, q, st)] + late + [IsduCnfJob(q, st)]
  }

  // What the caller must learn from a response: the device's error code when a
  // negative response has one, and that anything went wrong when it has none.
  function ErrorFor(p: IsduCoding.Response): nat
  {
    if !p.intact then ERR_CHECKSUM
    else if p.service in {IsduCoding.READ_NEG, IsduCoding.WRITE_NEG} then
      (if |p.data| == 2 then (p.data[0] as nat) * 256 + p.data[1] else ERR_APP_DEV)
    else ERR_NONE
  }

  lemma {:induction false} RunOne(s: Al, i: Input)
    ensures Run(s, [i]) == Step(s, i)
  {
    hide Step;
    assert [i][..0] == [];
  }

  // The five stages of a service, one after the other.
  lemma {:induction false} RunServing(s: Al, r: AlRequest, early: seq<Input>, data: Option<seq<Octet>>, late: seq<Input>, q: nat, st: Status)
    ensures var a := Step(s, Request(r)); var b := Run(a, early); var c := Step(b, IsduIndicated(data, q, st));
      var d := Run(c, late);
      Run(s, Serving(r, early, data, late, q, st)) == Step(d, IsduCnfJob(q, st))
  {
    hide Step, Run;
    RunJoined(s, [Request(r)] + early + [IsduIndicated(data, q, st)] + late, [IsduCnfJob(q, st)]);
    RunJoined(s, [Request(r)] + early + [IsduIndicated(data, q, st)], late);
    RunJoined(s, [Request(r)] + early, [IsduIndicated(data, q, st)]);
    RunJoined(s, [Request(r)], early);
    RunOne(s, Request(r));
    RunOne(Run(Step(s, Request(r)), early), IsduIndicated(data, q, st));
    RunOne(Run(Step(Run(Step(s, Request(r)), early), IsduIndicated(data, q, st)), late), IsduCnfJob(q, st));
  }

  // The request goes down unchanged.
  lemma Accepted(s: Al, r: AlRequest)
    requires Resting(s) && r.index >= 2 && (r.WriteReq? ==> |r.data| <= 255)
    ensures var t := Step(s, Request(r));
      && t.od == AwaitIsduCnf && !t.halted && t.dataRead == s.dataRead
      && t.log == s.log + [DlIsduTransport(IsduCoding.Request(r.ReadReq?, r.index, r.subindex, if r.ReadReq? then [] else r.data))]
      && t.service.cb == CallbackOf(r) && t.service.read == r.ReadReq? && (r.ReadReq? ==> t.service.dataLen == 0)
  {
    hide OdFire, OdSteps;
    DispatchEnds(s.(service := s.service.(job := r)), ServiceEvent);
    if r.WriteReq? {
      assert Slice(r.data, 0, |r.data|) == r.data;
    }
  }

  // The confirmation comes up.
  lemma Confirmed(s: Al, q: nat, st: Status)
    requires s.od == AwaitIsduCnf && !s.halted
    ensures var t := Step(s, IsduCnfJob(q, st));
      && t.od == OnReqIdle
      && t.log == s.log + [Confirmation(s.service.(errinfo := st, qualifier := q), s.dataRead, IsduTransportEvent)]
  {
    hide OdFire, OdSteps, Confirmation;
    DispatchEnds(s.(service := s.service.(errinfo := st, qualifier := q)), IsduTransportEvent);
  }

  // Handing over: data and length for an undisturbed read, data and length of
  // a negative response for a write.
  lemma HandedOver(s: Al, p: IsduCoding.Response, st: Status)
    requires s.od == AwaitIsduCnf && !s.halted && |s.dataRead| == IsduCoding.ISDU_MAX_SIZE && |p.data| <= IsduCoding.ISDU_MAX_SIZE
    requires IsduCoding.Answers(p.service, s.service.read) && (s.service.read ==> s.service.dataLen == 0)
    requires st == (if p.intact then NoError else ChecksumError)
    ensures var t := Step(s, IsduIndicated(Some(p.data), p.service, st)); var v := t.service.(errinfo := st, qualifier := p.service);
      && t == s.(dataRead := t.dataRead, service := s.service.(dataLen := t.service.dataLen))
      && Confirmation(v, t.dataRead, IsduTransportEvent) ==
         (if s.service.read
          then ReadDone(s.service.cb, if p.intact then p.data else [], ErrorFor(p))
          else WriteDone(s.service.cb, ErrorFor(p)))
  {
    var t := Step(s, IsduIndicated(Some(p.data), p.service, st));
    if t != s {
      assert Slice(t.dataRead, 0, |p.data|) == p.data;
    }
  }

  // A read or write of an index above 1, from a layer at rest: the request
  // goes down once and unchanged, everyone who comes too soon is told so, and
  // the caller is called back with the data of the device's response and its
  // error code, or told of a broken checksum.
  lemma {:induction false} ServiceAnswered(s: Al, r: AlRequest, early: seq<Input>, late: seq<Input>, octets: seq<Octet>)
    requires Resting(s) && r.index >= 2 && (r.WriteReq? ==> |r.data| <= 255)
    requires Requests(early) && Requests(late)
    requires IsduCoding.WellFormedResponse(octets, r.ReadReq?) && |octets| <= IsduCoding.ISDU_MAX_SIZE
    ensures var p := IsduCoding.ParseResponse(octets); var c := IsduTransfer.Confirmation(octets);
      var t := Run(s, Serving(r, early, Some(c.data), late, c.qualifier, c.status));
      && t.od == OnReqIdle
      && t.log == s.log
         + [DlIsduTransport(IsduCoding.Request(r.ReadReq?, r.index, r.subindex, if r.ReadReq? then [] else r.data))]
         + Rejections(early) + Rejections(late)
         + [if r.ReadReq? then ReadDone(CallbackOf(r), if p.intact then p.data else [], ErrorFor(p))
            else WriteDone(CallbackOf(r), ErrorFor(p))]
  {
    hide Step, Run, Confirmation, XorAll, Rejections;
    var p := IsduCoding.ParseResponse(octets);
    var c := IsduTransfer.Confirmation(octets);
    RunServing(s, r, early, Some(c.data), late, c.qualifier, c.status);
    Accepted(s, r);
    var a := Step(s, Request(r));
    BusyLeavesService(a, early);
    var b := Run(a, early);
    HandedOver(b, p, c.status);
    var d := Step(b, IsduIndicated(Some(c.data), c.qualifier, c.status));
    BusyLeavesService(d, late);
    var e := Run(d, late);
    Confirmed(e, c.qualifier, c.status);
    SameService(d.service, e.service, d.dataRead, p.service, c.status);
  }

  // The job slot plays no part in a confirmation.
  lemma SameService(v: Service, w: Service, data: seq<Octet>, q: nat, st: Status)
    requires w == v.(job := w.job)
    ensures Confirmation(w.(errinfo := st, qualifier := q), data, IsduTransportEvent)
         == Confirmation(v.(errinfo := st, qualifier := q), data, IsduTransportEvent)
  {
  }

  // ---- events ----

  ghost predicate EventsIdle(s: Al) {
    s.events == EventIdle && s.eventCnt == 0 && |s.eventBuf| == MAX_EVENTS && !s.halted
  }

  // One job per event, counting down.
  function EventJobs(entries: seq<DiagEntry>, from: nat): (ins: seq<Input>)
    decreases |entries| - from
  {
    if from >= |entries| then []
    else [EventIndJob(entries[from].code, entries[from].qualifier, |entries| - 1 - from)] + EventJobs(entries, from + 1)
  }

  ghost predicate Collected(s: Al, t: Al, entries: seq<DiagEntry>, k: nat) {
    && t == s.(events := t.events, eventCnt := s.eventCnt + k, eventBuf := t.eventBuf, log := t.log)
    && |t.eventBuf| == MAX_EVENTS && k <= |entries|
    && (forall i :: 0 <= i < k && s.eventCnt + i < MAX_EVENTS ==> t.eventBuf[s.eventCnt + i] == entries[i])
    && (k < |entries| ==> t.events in {EventIdle, ReadEventSet} && t.log == s.log)
  }

  lemma {:induction false} CollectRest(s: Al, t: Al, entries: seq<DiagEntry>, k: nat)
    requires EventsIdle(s) && 1 <= |entries| <= MAX_EVENTS && k < |entries| && Collected(s, t, entries, k)
    ensures var u := Run(t, EventJobs(entries, k));
      && u == s.(events := DuEventHandling, eventCnt := |entries|, eventBuf := u.eventBuf, log := s.log + [AlEventInd(entries)])
      && |u.eventBuf| == MAX_EVENTS
    decreases |entries| - k
  {
    hide Run;
    var i := EventIndJob(entries[k].code, entries[k].qualifier, |entries| - 1 - k);
    RunJoined(t, [i], EventJobs(entries, k + 1));
    RunOne(t, i);
    var u := Step(t, i);
    if k + 1 < |entries| {
      CollectRest(s, u, entries, k + 1);
    } else {
      assert u.eventBuf[..|entries|] == entries;
      RunNothing(u);
    }
  }

  lemma {:induction false} RunNothing(s: Al)
    ensures Run(s, []) == s
  {
  }

  // A set of one to six events, from idle, becomes one indication with those
  // events in order; the assertion on the event count holds throughout.
  lemma {:induction false} EventSetDelivered(s: Al, entries: seq<DiagEntry>)
    requires EventsIdle(s) && 1 <= |entries| <= MAX_EVENTS
    ensures var t := Run(s, EventJobs(entries, 0));
      && t.log == s.log + [AlEventInd(entries)] && t.events == DuEventHandling && !t.halted
      && EventsIdle(Step(t, EventRspJob))
  {
    hide Run;
    CollectRest(s, s, entries, 0);
  }

  // Set after set, each acknowledged before the next.
  function SetJobs(sets: seq<seq<DiagEntry>>): (ins: seq<Input>) {
    if sets == [] then [] else SetJobs(sets[..|sets| - 1]) + (EventJobs(sets[|sets| - 1], 0) + [EventRspJob])
  }

  function SetInds(sets: seq<seq<DiagEntry>>): (acts: seq<AlAct>) {
    if sets == [] then [] else SetInds(sets[..|sets| - 1]) + [AlEventInd(sets[|sets| - 1])]
  }

  lemma {:induction false} EventSetsDelivered(s: Al, sets: seq<seq<DiagEntry>>)
    requires EventsIdle(s) && forall k :: 0 <= k < |sets| ==> 1 <= |sets[k]| <= MAX_EVENTS
    ensures var t := Run(s, SetJobs(sets)); EventsIdle(t) && t.log == s.log + SetInds(sets)
  {
    hide Run, Step;
    if sets == [] {
      RunNothing(s);
      assert s.log + [] == s.log;
    } else {
      var front := sets[..|sets| - 1];
      var last := sets[|sets| - 1];
      EventSetsDelivered(s, front);
      var b := Run(s, SetJobs(front));
      EventSetDelivered(b, last);
      RunJoined(s, SetJobs(front), EventJobs(last, 0) + [EventRspJob]);
      RunJoined(b, EventJobs(last, 0), [EventRspJob]);
      RunOne(Run(b, EventJobs(last, 0)), EventRspJob);
      AcknowledgeQuiet(Run(b, EventJobs(last, 0)));
    }
  }

  lemma AcknowledgeQuiet(s: Al)
    ensures Step(s, EventRspJob).log == s.log
  {
  }

  // Events that come before the acknowledgement are never indicated; they are
  // counted, and the assertion fails exactly when they no longer fit.
  lemma {:induction false} UnacknowledgedEvents(s: Al, entries: seq<DiagEntry>, k: nat)
    requires s.events == DuEventHandling && !s.halted && s.eventCnt <= MAX_EVENTS && k <= |entries|
    ensures var t := Run(s, EventJobs(entries, k));
      && t.log == s.log && t.events == DuEventHandling
      && (t.halted <==> s.eventCnt + |entries| - k > MAX_EVENTS)
    decreases |entries| - k
  {
    hide Run;
    if k == |entries| {
      RunNothing(s);
    } else {
      var i := EventIndJob(entries[k].code, entries[k].qualifier, |entries| - 1 - k);
      RunJoined(s, [i], EventJobs(entries, k + 1));
      RunOne(s, i);
      if s.eventCnt < MAX_EVENTS {
        UnacknowledgedEvents(Step(s, i), entries, k + 1);
      } else {
        StaysHalted(Step(s, i), EventJobs(entries, k + 1));
      }
    }
  }

  lemma {:induction false} StaysHalted(s: Al, ins: seq<Input>)
    requires s.halted
    ensures Run(s, ins) == s
  {
    if ins != [] { StaysHalted(s, ins[..|ins| - 1]); }
  }

  // Two sets in a row without an acknowledgement in between: the second is
  // lost, and the layer stops if and only if they have more than six events.
  lemma {:induction false} SecondSetUnacknowledged(s: Al, first: seq<DiagEntry>, second: seq<DiagEntry>)
    requires EventsIdle(s) && 1 <= |first| <= MAX_EVENTS && 1 <= |second| <= MAX_EVENTS
    ensures var t := Run(s, EventJobs(first, 0) + EventJobs(second, 0));
      && t.log == s.log + [AlEventInd(first)]
      && (t.halted <==> |first| + |second| > MAX_EVENTS)
  {
    hide Run;
    RunJoined(s, EventJobs(first, 0), EventJobs(second, 0));
    CollectRest(s, s, first, 0);
    UnacknowledgedEvents(Run(s, EventJobs(first, 0)), second, 0);
  }

  // The jobs the data link layer's indications become.
  function JobOf(a: Act): (ins: seq<Input>) {
    if a.EventInd? then [EventIndJob(a.code, a.eventQualifier, a.eventsLeft)] else []
  }

  function JobsOf(acts: seq<Act>): (ins: seq<Input>) {
    if acts == [] then [] else JobOf(acts[0]) + JobsOf(acts[1..])
  }

  // The events flagged in a device's memory.
  function Flagged(mem: EventReadout.Memory, bits: seq<nat>): (entries: seq<DiagEntry>)
    requires forall i :: 0 <= i < |bits| ==> bits[i] < MAX_EVENTS
    ensures |entries| == |bits|
  {
    seq(|bits|, i requires 0 <= i < |bits| =>
      DiagEntry((mem[3 * bits[i] + 2] as nat) * 256 + mem[3 * bits[i] + 3], mem[3 * bits[i] + 1]))
  }

  lemma {:induction false} IndicationsAreJobs(mem: EventReadout.Memory, bits: seq<nat>, k: nat)
    requires (forall i :: 0 <= i < |bits| ==> bits[i] < MAX_EVENTS) && k <= |bits|
    ensures JobsOf(EventReadout.Indications(mem, bits[k..])) == EventJobs(Flagged(mem, bits), k)
    decreases |bits| - k
  {
    if k < |bits| {
      assert bits[k..][1..] == bits[k + 1..];
      IndicationsAreJobs(mem, bits, k + 1);
    }
  }

  lemma {:induction false} JobsJoined(a: seq<Act>, b: seq<Act>)
    ensures JobsOf(a + b) == JobsOf(a) + JobsOf(b)
  {
    hide JobOf;
    if a == [] {
      assert a + b == b;
    } else {
      assert (a + b)[1..] == a[1..] + b;
      JobsJoined(a[1..], b);
    }
  }

  lemma {:induction false} RequestsAreNoJobs(acts: seq<Act>)
    requires forall k :: 0 <= k < |acts| ==> acts[k].OdRequest?
    ensures JobsOf(acts) == []
  {
    if acts != [] { RequestsAreNoJobs(acts[1..]); }
  }

  lemma {:induction false} ReadsAreRequests(bits: seq<nat>)
    ensures forall k :: 0 <= k < |EventReadout.EntryReads(bits)| ==> EventReadout.EntryReads(bits)[k].OdRequest?
  {
    if bits != [] { ReadsAreRequests(bits[1..]); }
  }

  // Only the event handler's indications become jobs.
  lemma {:induction false} JobsOfTraffic(acts: seq<Act>)
    ensures JobsOf(OM.EvTraffic(acts)) == JobsOf(acts)
  {
    if acts != [] {
      var front, a := acts[..|acts| - 1], acts[|acts| - 1];
      JobsOfTraffic(front);
      assert acts == front + [a];
      JobsJoined(front, [a]);
      JobsJoined(OM.EvTraffic(front), if OM.OnDiagnosis(a) then [a] else []);
      assert [a][1..] == [];
    }
  }

  lemma {:induction false} ReadoutJobs(mem: EventReadout.Memory, odLen: nat)
    ensures var bits := EventReadout.SetBits(mem[0], 0);
      JobsOf(EventReadout.WholeReadout(mem, odLen)) == EventJobs(Flagged(mem, bits), 0)
  {
    hide EventReadout.SetBits, EventReadout.Indications, EventReadout.EntryReads, Bit, JobsOf;
    var bits := EventReadout.SetBits(mem[0], 0);
    var asked := [EventReadout.Read(0)] + EventReadout.EntryReads(bits);
    var told := EventReadout.Indications(mem, bits);
    JobsJoined(asked, told);
    JobsJoined(asked + told, [EventReadout.Confirm(odLen)]);
    ReadsAreRequests(bits);
    RequestsAreNoJobs(asked);
    RequestsAreNoJobs([EventReadout.Confirm(odLen)]);
    IndicationsAreJobs(mem, bits, 0);
    assert bits[0..] == bits;
  }

  // Events end to end: on a run of the link with the event flag held, however
  // commands and ISDU traffic cut in, the device's memory is read out, and what
  // the application is given, once, is exactly the flagged events in ascending
  // order of their bits.
  lemma {:induction false} EventsReachApplication(s: LL.Dl, es: seq<LL.Event>, base: nat, mem: EventReadout.Memory, a: Al)
    requires SC.ReadoutDue(s, es, base, mem) && |OM.EvInputs(OI.New(s, LL.Run(s, es)))| == EventReadout.TriggersFor(mem)
    requires EventsIdle(a)
    ensures var bits := EventReadout.SetBits(mem[0], 0); var t := Run(a, JobsOf(OI.New(s, LL.Run(s, es))));
      t.log == a.log + [AlEventInd(Flagged(mem, bits))] && !t.halted
  {
    hide Run, LL.Run, EventReadout.SetBits, EventReadout.WholeReadout, EventReadout.TriggersFor, EventReadout.FromMemory, JobsOf,
      OI.Session, OI.New, OM.Marks, OM.Held, OM.EvInputs, OM.EvTraffic, EM.Detailed;
    var said := OI.New(s, LL.Run(s, es));
    var bits := EventReadout.SetBits(mem[0], 0);
    SC.ReadoutOnSharedChannel(s, es, base, mem);
    JobsOfTraffic(said);
    ReadoutJobs(mem, s.mh.odLen);
    EventSetDelivered(a, Flagged(mem, bits));
  }
}
