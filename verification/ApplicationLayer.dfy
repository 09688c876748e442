// iolink_al.c as it works: one object, driven by transition tables it searches
// anew for every event, with its read buffer and its event buffer filled in
// place. Its methods are proved against the functions of AlMachine.
module ApplicationLayer {
  import opened Octets
  import opened DlTypes
  import opened AlMachine
  import AlAnswers
  import IsduCoding

  class Layer {
    var od: AlOdState
    var service: Service
    const dataRead: array<Octet>
    var events: EventState
    var eventCnt: nat
    const eventBuf: array<DiagEntry>
    var halted: bool
    ghost var log: seq<AlAct>

    ghost predicate Valid() {
      && dataRead.Length == IsduCoding.ISDU_MAX_SIZE && eventBuf.Length == MAX_EVENTS
      && dataRead as object != eventBuf as object
    }

    ghost function Abs(): Al
      reads this, dataRead, eventBuf
    {
      Al(od, service, dataRead[..], events, eventCnt, eventBuf[..], halted, log)
    }

    // iolink_al_init
    constructor ()
      ensures Valid() && fresh(dataRead) && fresh(eventBuf)
      ensures od == OnReqIdle && events == EventIdle && eventCnt == 0 && !halted && log == []
    {
      od := OnReqIdle;
      service := Service(0, 0, true, [], 0, NoError, 0, Callback(0, true), ReadReq(0, 0, 0));
      dataRead := new Octet[IsduCoding.ISDU_MAX_SIZE](_ => 0);
      events := EventIdle;
      eventCnt := 0;
      eventBuf := new DiagEntry[MAX_EVENTS](_ => DiagEntry(0, 0));
      halted := false;
      log := [];
    }

    // The search through one state's transitions.
    static method FindTransition(t: seq<Transition>, e: AlOdEvent) returns (next: Option<Transition>)
      ensures next == Lookup(t, e, 0)
    {
      var i := 0;
      while i < |t|
        invariant i <= |t|
        invariant Lookup(t, e, 0) == Lookup(t, e, i)
      {
        if t[i].event == e {
          return Some(t[i]);
        }
        i := i + 1;
      }
      next := None;
    }

    // al_od_build_dl_service
    method MakeDlService() returns (again: AlOdEvent)
      modifies this`service
      ensures (Abs(), again) == Build(old(Abs()))
    {
      again := ArgErr;
      match service.job {
        case ReadReq(index, subindex, _) =>
          service := service.(dataLen := 0, index := index, subindex := subindex, read := true, cb := CallbackOf(service.job));
          again := if index <= 1 then ParamRead else IsduReadEvent;
        case WriteReq(index, subindex, data, _) =>
          service := service.(index := index, subindex := subindex, dataLen := |data| % 256, read := false,
                              dataWrite := data, cb := CallbackOf(service.job));
          if index == 1 {
            again := ParamWrite1;
          } else if index >= 2 {
            again := IsduWriteEvent;
          }
          if again == ArgErr {
            service := service.(errinfo := ParameterConflict);
          }
      }
    }

    // iolink_al_od_event
    method OdEvent(event: AlOdEvent)
      requires od != BuildDlService && event !in {RwParam, NoEvent}
      modifies this
      ensures Abs() == OdFire(old(Abs()), event)
      ensures od != BuildDlService
    {
      hide Confirmation, DlRequest, Rejection, Build, Lookup, Table, OdSteps;
      AlAnswers.NeverRestsBuilding(Abs(), event);
      ghost var was := Abs();
      var e := event;
      while e != NoEvent
        invariant e == NoEvent ==> Abs() == OdFire(was, event)
        invariant e != NoEvent ==> OdFire(Abs(), e) == OdFire(was, event)
        decreases if e == NoEvent then 0 else if od == OnReqIdle then 2 else 1
      {
        FireOnce(Abs(), e);
        var next := FindTransition(Table(od), e);
        if next.None? {
          return;
        }
        od := next.value.next;
        ghost var at := Abs();
        ghost var action := next.value.action;
        match next.value.action {
          case BuildService => e := MakeDlService();
          case Busy =>
            log := log + [Rejection(service.job)];
            e := NoEvent;
          case SendCnf =>
            log := log + [Confirmation(service, dataRead[..], e)];
            e := NoEvent;
          case SendAbortCnf => e := NoEvent;
          case NextRw => e := NoEvent;
          case _ =>
            log := log + [DlRequest(service, next.value.action)];
            e := NoEvent;
        }
      }
    }

    // al_read_write_cb
    method OnRequest(r: AlRequest)
      requires !halted && od != BuildDlService
      modifies this
      ensures Abs() == Step(old(Abs()), Request(r)) && od != BuildDlService
    {
      hide OdFire;
      service := service.(job := r);
      OdEvent(ServiceEvent);
    }

    // al_dl_readparam_cnf_cb
    method OnReadParam(value: Octet, st: Status)
      requires Valid() && !halted && od != BuildDlService
      modifies this, dataRead
      ensures Abs() == Step(old(Abs()), ReadParamCnfJob(value, st)) && od != BuildDlService
    {
      hide OdFire;
      ghost var was := dataRead[..];
      if service.dataLen < dataRead.Length {
        dataRead[service.dataLen] := value;
      }
      assert dataRead[..] == Blit(was, service.dataLen, [value]);
      var len: nat := service.dataLen;
      service := service.(dataLen := (len + 1) % 256, errinfo := st);
      OdEvent(ReadParamEvent);
    }

    // DL_ISDUTransport_cnf, in the link thread
    method IsduTransportCnf(data: Option<seq<Octet>>, q: nat, st: Status)
      requires Valid() && !halted
      modifies this`service, dataRead
      ensures Abs() == Step(old(Abs()), IsduIndicated(data, q, st))
    {
      var wanted := if service.read then st == NoError else q == IsduCoding.WRITE_NEG;
      if wanted && data.Some? && |data.value| <= dataRead.Length {
        ghost var was := dataRead[..];
        var i := 0;
        while i < |data.value|
          invariant i <= |data.value|
          invariant dataRead[..] == Blit(was, 0, data.value[..i])
          modifies dataRead
        {
          dataRead[i] := data.value[i];
          i := i + 1;
        }
        assert data.value[..i] == data.value;
        service := service.(dataLen := |data.value|);
      }
    }

    // al_abort_cb
    method OnAbortJob()
      requires !halted && od != BuildDlService
      modifies this
      ensures Abs() == Step(old(Abs()), AbortJob) && od != BuildDlService
    {
      hide OdFire;
      var idle := od == OnReqIdle;
      service := service.(errinfo := IsduAborted, dataLen := 0);
      OdEvent(if idle then AbortPort else AbortEvent);
    }

    // al_dl_event_ind_cb, with its assertion, and iolink_al_event_event
    method OnDlEvent(v: DiagEntry, left: nat)
      requires Valid() && !halted
      modifies this`events, this`eventCnt, this`halted, this`log, eventBuf
      ensures Abs() == OnEventInd(old(Abs()), v, left)
    {
      if eventCnt >= MAX_EVENTS {
        halted := true;
        return;
      }
      eventBuf[eventCnt] := v;
      eventCnt := eventCnt + 1;
      if events in {EventIdle, ReadEventSet} {
        if left == 0 {
          events := DuEventHandling;
          log := log + [AlEventInd(eventBuf[..eventCnt])];
        } else {
          events := ReadEventSet;
        }
      }
    }

    // One job of the layer.
    method Handle(i: Input)
      requires Valid() && od != BuildDlService
      modifies this, dataRead, eventBuf
      ensures Abs() == Step(old(Abs()), i) && od != BuildDlService
    {
      hide OdFire, OnEventInd;
      if halted {
        return;
      }
      match i {
        case Request(r) => OnRequest(r);
        case ReadParamCnfJob(v, st) => OnReadParam(v, st);
        case WriteParamCnfJob(st) =>
          service := service.(errinfo := st);
          OdEvent(WriteParamEvent);
        case IsduIndicated(d, q, st) => IsduTransportCnf(d, q, st);
        case IsduCnfJob(q, st) =>
          service := service.(errinfo := st, qualifier := q);
          OdEvent(IsduTransportEvent);
        case AbortJob => OnAbortJob();
        case EventIndJob(code, q, left) => OnDlEvent(DiagEntry(code, q), left);
        case EventRspJob =>
          if events == DuEventHandling {
            events := EventIdle;
            eventCnt := 0;
          }
      }
    }

    // Any series of jobs: unless the event assertion stops it, whoever asked
    // has been called back once, but for the service still running.
    method Serve(ins: seq<Input>)
      requires Valid() && od != BuildDlService
      modifies this, dataRead, eventBuf
      ensures Abs() == Run(old(Abs()), ins)
      ensures !halted ==>
        AlAnswers.Called(old(log)) + old(AlAnswers.Owed(Abs())) + AlAnswers.Asked(ins) == AlAnswers.Called(log) + AlAnswers.Owed(Abs())
    {
      hide Step, AlAnswers.Called, AlAnswers.Owed;
      ghost var was := Abs();
      assert ins[..0] == [];
      for k := 0 to |ins|
        invariant Abs() == Run(was, ins[..k]) && od != BuildDlService
      {
        assert ins[..k + 1][..k] == ins[..k];
        Handle(ins[k]);
      }
      assert ins[..|ins|] == ins;
      if !halted { AlAnswers.AnsweredOnce(was, ins); }
    }
  }

  // One turn of the loop.
  lemma {:induction false} FireOnce(s: Al, e: AlOdEvent)
    ensures OdFire(s, e) ==
      var next := Lookup(Table(s.od), e, 0);
      if next.None? then s
      else
        var (t, again) := Perform(s.(od := next.value.next), next.value.action, e);
        if again == NoEvent then t else OdFire(t, again)
    ensures var next := Lookup(Table(s.od), e, 0);
      next.Some? ==>
        var (t, again) := Perform(s.(od := next.value.next), next.value.action, e);
        again != NoEvent ==> s.od == OnReqIdle && t.od == BuildDlService
  {
  }
}
