// The application layer answers every request exactly once, whatever arrives.
module AlAnswers {
  import opened Octets
  import opened DlTypes
  import opened AlMachine
  import IM = IsduMachine

  // ---- one dispatch ----

  // A new request while idle: refused at once, or passed down.
  function Launched(s: Al): Al {
    var (t, again) := Build(s);
    match again
    case ArgErr => Did(t.(od := OnReqIdle), Confirmation(t.service, t.dataRead, ArgErr))
    case ParamRead => Did(t.(od := AwaitParamCnf), DlRequest(t.service, SendParamRead))
    case ParamWrite1 => Did(t.(od := AwaitParamCnf), DlRequest(t.service, SendParamWrite))
    case IsduReadEvent => Did(t.(od := AwaitIsduCnf), DlRequest(t.service, SendIsduRead))
    case _ => Did(t.(od := AwaitIsduCnf), DlRequest(t.service, SendIsduWrite))
  }

  // The events that end a running service.
  predicate Closes(st: AlOdState, e: AlOdEvent) {
    match st
    case AwaitParamCnf => e in {AbortEvent, ReadParamEvent, WriteParamEvent}
    case AwaitIsduCnf => e in {AbortEvent, IsduTransportEvent}
    case _ => false
  }

  // What a whole dispatch comes to, tables and loop aside.
  function Effect(s: Al, e: AlOdEvent): Al {
    if e == ServiceEvent then (if s.od == OnReqIdle then Launched(s) else Did(s, Rejection(s.service.job)))
    else if Closes(s.od, e) then Did(s.(od := OnReqIdle), Confirmation(s.service, s.dataRead, e))
    else s
  }

  lemma LookupStep(t: seq<Transition>, e: AlOdEvent, k: nat)
    ensures Lookup(t, e, k) ==
      if k >= |t| then None else if t[k].event == e then Some(t[k]) else Lookup(t, e, k + 1)
  {
  }

  lemma {:induction false} Lookups(st: AlOdState, e: AlOdEvent)
    ensures var t := Table(st);
      Lookup(t, e, 0) ==
        if e == t[0].event then Some(t[0]) else if e == t[1].event then Some(t[1])
        else if 2 < |t| && e == t[2].event then Some(t[2]) else if 3 < |t| && e == t[3].event then Some(t[3])
        else if 4 < |t| && e == t[4].event then Some(t[4]) else if 5 < |t| && e == t[5].event then Some(t[5])
        else None
  {
    hide Lookup;
    var t := Table(st);
    LookupStep(t, e, 0);
    LookupStep(t, e, 1);
    LookupStep(t, e, 2);
    LookupStep(t, e, 3);
    LookupStep(t, e, 4);
    LookupStep(t, e, 5);
    LookupStep(t, e, 6);
  }

  // The second transition of a new request.
  lemma {:induction false} SecondTransition(s: Al, e: AlOdEvent)
    requires s.od == BuildDlService && e in {ArgErr, ParamRead, ParamWrite1, IsduReadEvent, IsduWriteEvent}
    ensures OdSteps(s, e) == 1
    ensures OdFire(s, e) ==
      match e
      case ArgErr => Did(s.(od := OnReqIdle), Confirmation(s.service, s.dataRead, ArgErr))
      case ParamRead => Did(s.(od := AwaitParamCnf), DlRequest(s.service, SendParamRead))
      case ParamWrite1 => Did(s.(od := AwaitParamCnf), DlRequest(s.service, SendParamWrite))
      case IsduReadEvent => Did(s.(od := AwaitIsduCnf), DlRequest(s.service, SendIsduRead))
      case _ => Did(s.(od := AwaitIsduCnf), DlRequest(s.service, SendIsduWrite))
  {
    hide ErrorOf, Slice, Lookup;
    Lookups(BuildDlService, e);
  }

  // Every dispatch ends within two transitions, with the effect above.
  lemma {:induction false} DispatchEnds(s: Al, e: AlOdEvent)
    requires s.od != BuildDlService && e != RwParam
    ensures OdFire(s, e) == Effect(s, e)
    ensures OdSteps(s, e) <= 2 && (OdSteps(s, e) == 2 <==> s.od == OnReqIdle && e == ServiceEvent)
  {
    hide ErrorOf, Slice, Lookup, Confirmation, DlRequest;
    Lookups(s.od, e);
    if s.od == OnReqIdle && e == ServiceEvent {
      var (t, again) := Build(s.(od := BuildDlService));
      SecondTransition(t, again);
    }
  }

  // It never rests in the state that only builds the data link service.
  lemma {:induction false} NeverRestsBuilding(s: Al, e: AlOdEvent)
    requires s.od != BuildDlService && e != RwParam
    ensures OdFire(s, e).od != BuildDlService && OdFire(s, e).halted == s.halted
  {
    hide ErrorOf, Slice, OdFire, OdSteps, Confirmation, DlRequest;
    DispatchEnds(s, e);
  }

  // ---- exactly one answer ----

  function Asked(ins: seq<Input>): (m: multiset<Callback>) {
    if ins == [] then multiset{}
    else
      var i := ins[|ins| - 1];
      Asked(ins[..|ins| - 1]) + (if i.Request? then multiset{CallbackOf(i.request)} else multiset{})
  }

  function Called(log: seq<AlAct>): (m: multiset<Callback>) {
    if log == [] then multiset{}
    else
      var a := log[|log| - 1];
      Called(log[..|log| - 1]) + (if a.ReadDone? || a.WriteDone? then multiset{a.cb} else multiset{})
  }

  predicate Waiting(s: Al) { s.od in {AwaitParamCnf, AwaitIsduCnf} }

  // Whoever is still to be called back.
  function Owed(s: Al): multiset<Callback> { if Waiting(s) then multiset{s.service.cb} else multiset{} }

  lemma CalledNext(s: Al, a: AlAct)
    ensures Called(Did(s, a).log) == Called(s.log) + (if a.ReadDone? || a.WriteDone? then multiset{a.cb} else multiset{})
  {
    assert (s.log + [a])[..|s.log|] == s.log;
  }

  lemma LaunchAnswers(s: Al)
    ensures var t := Launched(s); Called(t.log) + Owed(t) == Called(s.log) + multiset{CallbackOf(s.service.job)}
  {
    hide Confirmation, DlRequest, Called;
    var (t, again) := Build(s);
    CalledNext(t, Confirmation(t.service, t.dataRead, ArgErr));
    CalledNext(t, DlRequest(t.service, SendParamRead));
    CalledNext(t, DlRequest(t.service, SendParamWrite));
    CalledNext(t, DlRequest(t.service, SendIsduRead));
    CalledNext(t, DlRequest(t.service, SendIsduWrite));
  }

  // The effect of one dispatch on who is owed a call.
  lemma {:induction false} FireAnswers(s: Al, e: AlOdEvent)
    requires s.od != BuildDlService && e != RwParam
    ensures var t := OdFire(s, e);
      Called(t.log) + Owed(t) ==
        Called(s.log) + Owed(s) + (if e == ServiceEvent then multiset{CallbackOf(s.service.job)} else multiset{})
  {
    hide OdFire, OdSteps, Confirmation, DlRequest, Called, Rejection, Launched;
    DispatchEnds(s, e);
    LaunchAnswers(s);
    CalledNext(s, Rejection(s.service.job));
    CalledNext(s, Confirmation(s.service, s.dataRead, e));
  }

  lemma EventAnswersNobody(s: Al, v: DiagEntry, left: nat)
    ensures var t := OnEventInd(s, v, left);
      Called(t.log) == Called(s.log) && t.od == s.od && t.service == s.service
  {
    hide Called;
    var t := OnEventInd(s, v, left);
    if t.log != s.log {
      CalledNext(s, t.log[|s.log|]);
    }
  }

  // From s to t, `news` were asked for: nobody is called twice or forgotten.
  ghost predicate Square(s: Al, t: Al, news: multiset<Callback>) {
    && Called(t.log) + Owed(t) == Called(s.log) + Owed(s) + news
    && t.od != BuildDlService && t.halted == s.halted
  }

  lemma {:induction false} JobSquare(s: Al, u: Al, e: AlOdEvent)
    requires s.od != BuildDlService && e != RwParam
    requires u.log == s.log && u.od == s.od && u.service.cb == s.service.cb && u.halted == s.halted
    ensures Square(s, OdFire(u, e), if e == ServiceEvent then multiset{CallbackOf(u.service.job)} else multiset{})
  {
    hide OdFire, OdSteps, Called;
    FireAnswers(u, e);
    NeverRestsBuilding(u, e);
  }

  lemma StepAnswers(s: Al, i: Input)
    requires s.od != BuildDlService && !Step(s, i).halted
    ensures Square(s, Step(s, i), if i.Request? then multiset{CallbackOf(i.request)} else multiset{})
  {
    hide OdFire, OdSteps, Called, Slice, Blit, OnEventInd, Square;
    match i {
      case Request(r) => JobSquare(s, s.(service := s.service.(job := r)), ServiceEvent);
      case ReadParamCnfJob(v, st) =>
        JobSquare(s, s.(dataRead := Blit(s.dataRead, s.service.dataLen, [v]),
                        service := s.service.(dataLen := (s.service.dataLen + 1) % 256, errinfo := st)), ReadParamEvent);
      case WriteParamCnfJob(st) => JobSquare(s, s.(service := s.service.(errinfo := st)), WriteParamEvent);
      case IsduCnfJob(q, st) => JobSquare(s, s.(service := s.service.(errinfo := st, qualifier := q)), IsduTransportEvent);
      case AbortJob =>
        JobSquare(s, s.(service := s.service.(errinfo := IsduAborted, dataLen := 0)),
                  if s.od == OnReqIdle then AbortPort else AbortEvent);
      case _ => OthersSquare(s, i);
    }
  }

  lemma SameSquare(s: Al, t: Al)
    requires s.od != BuildDlService && t.od == s.od && t.service.cb == s.service.cb && t.halted == s.halted
    requires Called(t.log) == Called(s.log)
    ensures Square(s, t, multiset{})
  {
    hide Called;
  }

  // The other inputs ask for nothing and answer nobody.
  lemma OthersSquare(s: Al, i: Input)
    requires i.IsduIndicated? || i.EventIndJob? || i.EventRspJob?
    requires s.od != BuildDlService && !Step(s, i).halted
    ensures Square(s, Step(s, i), multiset{})
  {
    hide Called, Slice, Blit, OnEventInd, Square, OdFire;
    if i.EventIndJob? {
      EventAnswersNobody(s, DiagEntry(i.code, i.equalifier), i.left);
      assert !s.halted;
    }
    SameSquare(s, Step(s, i));
  }

  // Exactly one answer. On every run, whatever confirmations and aborts arrive,
  // the callbacks of the requests made are exactly the callbacks called, plus
  // the one of the service still running.
  lemma {:induction false} AnsweredOnce(s: Al, ins: seq<Input>)
    requires s.od != BuildDlService && !Run(s, ins).halted
    ensures var t := Run(s, ins);
      && Called(s.log) + Owed(s) + Asked(ins) == Called(t.log) + Owed(t)
      && t.od != BuildDlService
  {
    hide Step, Called;
    if ins != [] {
      var before := Run(s, ins[..|ins| - 1]);
      assert !before.halted by { Halted(before, ins[|ins| - 1]); }
      AnsweredOnce(s, ins[..|ins| - 1]);
      StepAnswers(before, ins[|ins| - 1]);
    }
  }

  lemma Halted(s: Al, i: Input)
    ensures s.halted ==> Step(s, i).halted
  {
  }

  // An answer has the form its callback expects, except that a parameter
  // confirmation decides the form itself: it is right exactly when the running
  // service has that direction.
  lemma AnswerForm(s: Al, i: Input)
    requires Waiting(s) && s.service.cb.read == s.service.read && !s.halted && Step(s, i).od == OnReqIdle
    ensures var t := Step(s, i);
      && |t.log| == |s.log| + 1
      && var a := t.log[|s.log|];
         ((a.ReadDone? <==> s.service.cb.read) <==>
           (i.ReadParamCnfJob? ==> s.service.read) && (i.WriteParamCnfJob? ==> !s.service.read))
  {
    hide OdFire, OdSteps, Slice, Blit, ErrorOf;
    forall u: Al, e | u.od == s.od && e != RwParam { DispatchEnds(u, e); }
  }

  // How that comes about: a read is aborted, a write begun, and then the data
  // link layer's confirmation of the read arrives. The write is answered as a
  // read, and its own confirmation will find nobody waiting.
  lemma {:induction false} LateConfirmation(s: Al, index: nat, sub: Octet, reader: nat, data: seq<Octet>, writer: nat, value: Octet)
    requires s.od == OnReqIdle && !s.halted && index <= 1
    ensures var ins := [Request(ReadReq(index, sub, reader)), AbortJob, Request(WriteReq(1, sub, data, writer)), ReadParamCnfJob(value, NoError)];
      var t := Run(s, ins);
      && |t.log| == |s.log| + 4 && t.log[..|s.log|] == s.log
      && t.log[|s.log| + 1] == ReadDone(Callback(reader, true), [], ERR_APP_DEV)
      && t.log[|s.log| + 2] == DlWriteParam(1, IM.At(data, 0))
      && t.log[|s.log| + 3].ReadDone? && t.log[|s.log| + 3].cb == Callback(writer, false)
      && t.od == OnReqIdle && Step(t, WriteParamCnfJob(NoError)).log == t.log
  {
    hide OdFire, OdSteps, Slice, Blit, ErrorOf, Run, Step, Confirmation;
    var i0, i1 := Request(ReadReq(index, sub, reader)), AbortJob;
    var i2, i3 := Request(WriteReq(1, sub, data, writer)), ReadParamCnfJob(value, NoError);
    ParamBegun(s, i0.request);
    ParamAborted(Step(s, i0));
    ParamBegun(Step(Step(s, i0), i1), i2.request);
    ReadConfirmed(Step(Step(Step(s, i0), i1), i2), value);
    FourSteps(s, i0, i1, i2, i3);
    NobodyWaits(Run(s, [i0, i1, i2, i3]));
  }

  // The four steps: a parameter service begun, ...
  lemma ParamBegun(s: Al, r: AlRequest)
    requires s.od == OnReqIdle && !s.halted && (r.ReadReq? ==> r.index <= 1) && (r.WriteReq? ==> r.index == 1)
    ensures var t := Step(s, Request(r));
      && t.od == AwaitParamCnf && !t.halted && t.service.cb == CallbackOf(r) && t.service.read == r.ReadReq?
      && t.log == s.log + [if r.ReadReq? then DlReadParam(r.index) else DlWriteParam(1, IM.At(r.data, 0))]
  {
    hide OdFire, OdSteps, IM.At;
    DispatchEnds(s.(service := s.service.(job := r)), ServiceEvent);
  }

  // ... aborted, ...
  lemma ParamAborted(s: Al)
    requires s.od == AwaitParamCnf && !s.halted && s.service.read
    ensures var t := Step(s, AbortJob);
      t.od == OnReqIdle && !t.halted && t.log == s.log + [ReadDone(s.service.cb, [], ERR_APP_DEV)]
  {
    hide OdFire, OdSteps, ErrorOf;
    var v := s.service.(errinfo := IsduAborted, dataLen := 0);
    DispatchEnds(s.(service := v), AbortEvent);
    AbortedError(v, s.dataRead);
  }

  // ... and confirmed, as a read, whatever it is; nobody is left for the other.
  lemma ReadConfirmed(s: Al, value: Octet)
    requires s.od == AwaitParamCnf && !s.halted
    ensures var t := Step(s, ReadParamCnfJob(value, NoError));
      && t.od == OnReqIdle && |t.log| == |s.log| + 1 && t.log[..|s.log|] == s.log
      && t.log[|s.log|].ReadDone? && t.log[|s.log|].cb == s.service.cb && !t.halted
  {
    hide OdFire, OdSteps, Blit, Slice, ErrorOf;
    var u := s.(dataRead := Blit(s.dataRead, s.service.dataLen, [value]),
                service := s.service.(dataLen := (s.service.dataLen + 1) % 256, errinfo := NoError));
    DispatchEnds(u, ReadParamEvent);
  }

  lemma NobodyWaits(s: Al)
    requires s.od == OnReqIdle && !s.halted
    ensures Step(s, WriteParamCnfJob(NoError)).log == s.log
  {
    hide OdFire, OdSteps;
    DispatchEnds(s.(service := s.service.(errinfo := NoError)), WriteParamEvent);
  }

  lemma AbortedError(v: Service, data: seq<Octet>)
    requires v.errinfo == IsduAborted
    ensures ErrorOf(v, data, false) == ERR_APP_DEV
  {
  }

  lemma {:induction false} FourSteps(s: Al, i0: Input, i1: Input, i2: Input, i3: Input)
    ensures Run(s, [i0, i1, i2, i3]) == Step(Step(Step(Step(s, i0), i1), i2), i3)
  {
    hide Step;
    var ins := [i0, i1, i2, i3];
    assert ins[..3] == [i0, i1, i2] && [i0, i1, i2][..2] == [i0, i1] && [i0, i1][..1] == [i0] && [i0][..0] == [];
    assert Run(s, [i0]) == Step(s, i0);
    assert Run(s, [i0, i1]) == Step(Step(s, i0), i1);
    assert Run(s, [i0, i1, i2]) == Step(Step(Step(s, i0), i1), i2);
  }

  // ---- a service and those who come too soon ----

  lemma {:induction false} RunJoined(s: Al, a: seq<Input>, b: seq<Input>)
    ensures Run(s, a + b) == Run(Run(s, a), b)
  {
    hide Step;
    if b == [] {
      assert a + b == a;
    } else {
      var ab := a + b;
      assert ab[..|ab| - 1] == a + b[..|b| - 1];
      RunJoined(s, a, b[..|b| - 1]);
    }
  }

  function Rejections(rs: seq<Input>): (acts: seq<AlAct>)
    requires forall i :: i in rs ==> i.Request?
  {
    if rs == [] then [] else Rejections(rs[..|rs| - 1]) + [Rejection(rs[|rs| - 1].request)]
  }

  // A running service is left as it is: its callback, direction, index and
  // data survive any number of requests, each of which is told to come back.
  lemma {:induction false} BusyLeavesService(s: Al, rs: seq<Input>)
    requires Waiting(s) && !s.halted && forall i :: i in rs ==> i.Request?
    ensures var t := Run(s, rs);
      t == s.(service := s.service.(job := t.service.job), log := s.log + Rejections(rs))
  {
    hide OdFire, OdSteps;
    if rs == [] {
      assert s.log + [] == s.log;
    } else {
      BusyLeavesService(s, rs[..|rs| - 1]);
      var before := Run(s, rs[..|rs| - 1]);
      var u := before.(service := before.service.(job := rs[|rs| - 1].request));
      DispatchEnds(u, ServiceEvent);
    }
  }
}
