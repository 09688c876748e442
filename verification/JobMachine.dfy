// The jobs of iolink_main.c: 40 for the stack and 10 for the API, each either
// free in its own mailbox, in a caller's hands, waiting in the work mailbox, or
// with the main loop. Every mailbox operation is one atomic step; steps of any
// threads interleave in any order.
module JobMachine {
  import opened Octets

  const JOB_CNT: nat := 40
  const JOB_API_CNT: nat := 10
  const ALL_JOBS: nat := 50

  datatype JobType =
    | JobNone | PdEvent | SmOperateReq | SmSetPortCfgReq | DlModeInd | DlReadCnf | DlWriteCnf | DlWriteDevmodeCnf
    | DlReadParamCnf | DlWriteParamCnf | DlIsduTransCnf | DlPdInputTransInd | SmPortModeInd | DlEventInd | DlControlInd
    | DsStartup | DsDelete | DsInit | DsUpload | DsReady | DsChange | DsFault | OdStart | OdStop | AlControlCnf
    | AlReadReq | AlReadCnf | AlWriteCnf | AlWriteReq
    | AlAbort | AlEventRsp | AlEventReq | SmiMasterIdent | SmiPortConfiguration | SmiReadbackPortConfiguration | SmiPortStatus
    | SmiDeviceWrite | SmiDeviceRead | SmiParamRead | SmiParamWrite
    | JobPeriodic | JobExit

  datatype Home = Internal | Api

  // Jobs 0..39 belong to the stack, 40..49 to the API.
  function HomeOf(job: nat): Home { if job < JOB_CNT then Internal else Api }

  // The free mailbox iolink_main puts a job of this type back into; the other
  // types fail an assertion, or end the loop.
  function ReturnsTo(t: JobType): Option<Home> {
    match t
    case AlAbort => Some(Api)
    case SmiMasterIdent => Some(Api)
    case SmiPortConfiguration => Some(Api)
    case SmiReadbackPortConfiguration => Some(Api)
    case SmiPortStatus => Some(Api)
    case SmiDeviceRead => Some(Api)
    case SmiDeviceWrite => Some(Api)
    case SmiParamRead => Some(Api)
    case SmiParamWrite => Some(Api)
    case JobNone => None
    case AlEventReq => None
    case JobPeriodic => None
    case JobExit => None
    case _ => Some(Internal)
  }

  // The mailbox a poster of this type fetched its job from, service by service.
  function FetchedFrom(t: JobType): Option<Home> {
    match t
    // iolink_al.c
    case AlReadReq => Some(Internal)
    case AlWriteReq => Some(Internal)
    case DlEventInd => Some(Internal)
    case DlControlInd => Some(Internal)
    case DlReadParamCnf => Some(Internal)
    case DlWriteParamCnf => Some(Internal)
    case DlIsduTransCnf => Some(Internal)
    case AlEventRsp => Some(Internal)
    case AlAbort => Some(Api)
    case AlEventReq => Some(Api)
    // iolink_cm.c
    case SmPortModeInd => Some(Internal)
    case DsReady => Some(Internal)
    case DsChange => Some(Internal)
    case DsFault => Some(Internal)
    case SmiMasterIdent => Some(Api)
    case SmiPortConfiguration => Some(Api)
    case SmiReadbackPortConfiguration => Some(Api)
    case SmiPortStatus => Some(Api)
    // iolink_ds.c
    case DsDelete => Some(Internal)
    case DsStartup => Some(Internal)
    case DsUpload => Some(Internal)
    case AlReadCnf => Some(Internal)
    case AlWriteCnf => Some(Internal)
    // iolink_ode.c
    case OdStart => Some(Internal)
    case OdStop => Some(Internal)
    case SmiDeviceRead => Some(Api)
    case SmiDeviceWrite => Some(Api)
    case SmiParamRead => Some(Api)
    case SmiParamWrite => Some(Api)
    // iolink_sm.c
    case SmOperateReq => Some(Internal)
    case SmSetPortCfgReq => Some(Internal)
    case DlReadCnf => Some(Internal)
    case DlWriteCnf => Some(Internal)
    case DlWriteDevmodeCnf => Some(Internal)
    case DlModeInd => Some(Internal)
    // iolink_main.c
    case PdEvent => Some(Internal)
    case _ => None
  }

  // `held`: jobs in callers' hands; `hand`: the job the main loop is at.
  datatype Pool = Pool(
    avail: seq<nat>,
    api: seq<nat>,
    work: seq<nat>,
    held: set<nat>,
    hand: Option<nat>,
    types: seq<JobType>)

  function Box(p: Pool, h: Home): seq<nat> { if h == Internal then p.avail else p.api }

  function Capacity(h: Home): nat { if h == Internal then JOB_CNT else JOB_API_CNT }

  datatype PoolStep =
    | Fetch(home: Home)
    | Post(job: nat, jobType: JobType)
    | LoopFetch
    | LoopFinish

  // iolink_fetch_avail_job and iolink_fetch_avail_api_job
  function DoFetch(p: Pool, h: Home): Pool {
    var box := Box(p, h);
    if box == [] then p
    else
      var q := p.(held := p.held + {box[0]});
      if h == Internal then q.(avail := box[1..]) else q.(api := box[1..])
  }

  // iolink_post_job_with_type_and_callback; a full mailbox fails the assertion.
  function DoPost(p: Pool, job: nat, t: JobType): Pool {
    if |p.work| >= ALL_JOBS || job >= |p.types| then p
    else p.(work := p.work + [job], held := p.held - {job}, types := p.types[job := t])
  }

  // The main loop's fetch, and what it does once the callback has returned.
  function DoLoopFetch(p: Pool): Pool {
    if p.hand.Some? || p.work == [] then p
    else p.(work := p.work[1..], hand := Some(p.work[0]))
  }

  function DoLoopFinish(p: Pool): Pool {
    if p.hand.None? || p.hand.value >= |p.types| || ReturnsTo(p.types[p.hand.value]).None? then p
    else
      var job := p.hand.value;
      var h := ReturnsTo(p.types[job]).value;
      var q := p.(hand := None, types := p.types[job := JobNone]);
      if |Box(p, h)| >= Capacity(h) then q // the post fails and the job is gone
      else if h == Internal then q.(avail := p.avail + [job]) else q.(api := p.api + [job])
  }

  function PoolDo(p: Pool, s: PoolStep): Pool {
    match s
    case Fetch(h) => DoFetch(p, h)
    case Post(job, t) => DoPost(p, job, t)
    case LoopFetch => DoLoopFetch(p)
    case LoopFinish => DoLoopFinish(p)
  }

  function PoolRun(p: Pool, steps: seq<PoolStep>): Pool {
    if steps == [] then p else PoolDo(PoolRun(p, steps[..|steps| - 1]), steps[|steps| - 1])
  }

  // ---- conservation ----

  // In how many places job j is.
  function Places(p: Pool, j: nat): nat {
    multiset(p.avail)[j] + multiset(p.api)[j] + multiset(p.work)[j] + (if j in p.held then 1 else 0) + (if p.hand == Some(j) then 1 else 0)
  }

  // Every job in exactly one place, the free ones at home.
  ghost predicate Placed(p: Pool) {
    && |p.types| == ALL_JOBS
    && (forall j: nat :: Places(p, j) == if j < ALL_JOBS then 1 else 0)
    && (forall j :: j in p.avail ==> HomeOf(j) == Internal)
    && (forall j :: j in p.api ==> HomeOf(j) == Api)
  }

  predicate Queued(p: Pool, j: nat) { j in p.work || p.hand == Some(j) }

  predicate Returning(p: Pool, j: nat) { j < |p.types| && ReturnsTo(p.types[j]) == Some(HomeOf(j)) }

  // Besides, every queued job will go back where it came from.
  ghost predicate Conserved(p: Pool) { Placed(p) && forall j: nat :: Queued(p, j) ==> Returning(p, j) }

  predicate IsEventReq(p: Pool, j: nat) { j < |p.types| && p.types[j] == AlEventReq }

  // All but those posted as AL_Event_req.
  ghost predicate Kept(p: Pool) { Placed(p) && forall j: nat :: Queued(p, j) ==> Returning(p, j) || IsEventReq(p, j) }

  lemma ConservedIs(p: Pool)
    ensures Conserved(p) <==> Kept(p) && forall j: nat :: Queued(p, j) ==> !IsEventReq(p, j)
  {
    hide Placed;
  }

  // What services do: post a job they hold, with a type whose poster fetched it
  // where this job is at home.
  predicate Offered(p: Pool, s: PoolStep) { s.Post? ==> s.job in p.held && FetchedFrom(s.jobType) == Some(HomeOf(s.job)) }

  // AL_Event_req, which nothing in the repository calls, is the one exception.
  predicate Permitted(p: Pool, s: PoolStep) { Offered(p, s) && (s.Post? ==> s.jobType != AlEventReq) }

  // Fetch and return agree for every service but one.
  lemma ReturnsWhereFetched(t: JobType)
    ensures FetchedFrom(t).Some? ==> (ReturnsTo(t) == FetchedFrom(t) <==> t != AlEventReq)
  {
  }

  function Interval(lo: nat, hi: nat): (r: set<nat>)
    requires lo <= hi
    ensures |r| == hi - lo && forall j: nat :: j in r <==> lo <= j < hi
    decreases hi
  {
    if lo == hi then {} else Interval(lo, hi - 1) + {hi - 1}
  }

  function Elements(s: seq<nat>): (r: set<nat>) { set j: nat | j in s }

  // Without duplicates, a sequence is as long as its set of elements.
  lemma {:induction false} ElementsSize(s: seq<nat>)
    requires forall j: nat :: multiset(s)[j] <= 1
    ensures |Elements(s)| == |s|
  {
    if s != [] {
      var front := s[..|s| - 1];
      var last := s[|s| - 1];
      assert s == front + [last];
      assert multiset(s) == multiset(front) + multiset{last};
      assert multiset(s)[last] <= 1;
      var m: multiset<nat> := multiset(front);
      forall j: nat
        ensures m[j] <= 1
      {
        assert multiset(s)[j] <= 1;
      }
      ElementsSize(front);
      assert Elements(s) == Elements(front) + {last};
    }
  }

  // Distinct numbers from [lo, hi), one of them missing, are fewer than hi - lo.
  lemma RoomLeft(s: seq<nat>, lo: nat, hi: nat, missing: nat)
    requires lo <= missing < hi && missing !in s
    requires (forall j: nat :: multiset(s)[j] <= 1) && forall j :: j in s ==> lo <= j < hi
    ensures |s| < hi - lo
  {
    ElementsSize(s);
    var all := Interval(lo, hi);
    assert Elements(s) <= all - {missing};
    assert |all - {missing}| == hi - lo - 1;
    assert |Elements(s)| + |(all - {missing}) - Elements(s)| == |all - {missing}| by {
      assert Elements(s) + ((all - {missing}) - Elements(s)) == all - {missing};
    }
  }

  // ---- every step conserves ----

  lemma TakeFirst(s: seq<nat>)
    requires s != []
    ensures multiset(s) == multiset(s[1..]) + multiset{s[0]}
  {
    assert s == [s[0]] + s[1..];
  }

  // Moving a job moves it, and nothing else.
  lemma FetchMoves(p: Pool, h: Home, j: nat)
    requires Placed(p)
    ensures Places(DoFetch(p, h), j) == Places(p, j)
  {
    var box := Box(p, h);
    if box != [] {
      TakeFirst(box);
      assert Places(p, box[0]) == 1;
    }
  }

  lemma FetchKeeps(p: Pool, h: Home)
    requires Placed(p)
    ensures var q := DoFetch(p, h); Placed(q) && q.types == p.types && q.work == p.work && q.hand == p.hand
  {
    var q := DoFetch(p, h);
    forall j: nat
      ensures Places(q, j) == if j < ALL_JOBS then 1 else 0
    {
      FetchMoves(p, h, j);
    }
  }

  lemma FetchConserves(p: Pool, h: Home)
    requires Conserved(p)
    ensures Conserved(DoFetch(p, h))
  {
    hide Placed, DoFetch;
    FetchKeeps(p, h);
    assert forall j: nat :: Queued(DoFetch(p, h), j) ==> Queued(p, j);
  }

  lemma PostKeeps(p: Pool, job: nat, t: JobType)
    requires Placed(p) && job in p.held
    ensures var q := DoPost(p, job, t);
      Placed(q) && !Queued(p, job) && job < ALL_JOBS && q == p.(work := p.work + [job], held := p.held - {job}, types := p.types[job := t])
  {
    assert Places(p, job) == 1;
    RoomToPost(p, job);
    var q := DoPost(p, job, t);
    forall j: nat
      ensures Places(q, j) == if j < ALL_JOBS then 1 else 0
    {
      assert Places(q, j) == Places(p, j);
    }
  }

  lemma PostConserves(p: Pool, job: nat, t: JobType)
    requires Conserved(p) && Permitted(p, Post(job, t))
    ensures Conserved(DoPost(p, job, t))
    ensures DoPost(p, job, t).work == p.work + [job]
  {
    hide Places, DoPost;
    PostKeeps(p, job, t);
    ReturnsWhereFetched(t);
    assert forall j: nat :: Queued(DoPost(p, job, t), j) ==> Queued(p, j) || j == job;
  }

  lemma LoopFetchMoves(p: Pool, j: nat)
    requires Placed(p)
    ensures Places(DoLoopFetch(p), j) == Places(p, j)
  {
    if p.hand.None? && p.work != [] {
      TakeFirst(p.work);
    }
  }

  lemma LoopFetchKeeps(p: Pool)
    requires Placed(p)
    ensures var q := DoLoopFetch(p); Placed(q) && q.types == p.types && forall j: nat :: Queued(q, j) <==> Queued(p, j)
  {
    var q := DoLoopFetch(p);
    if p.hand.None? && p.work != [] {
      assert p.work == [p.work[0]] + p.work[1..];
    }
    forall j: nat
      ensures Places(q, j) == if j < ALL_JOBS then 1 else 0
    {
      LoopFetchMoves(p, j);
    }
  }

  lemma LoopFetchConserves(p: Pool)
    requires Conserved(p)
    ensures Conserved(DoLoopFetch(p))
  {
    hide Placed, DoLoopFetch, Queued;
    LoopFetchKeeps(p);
  }

  // The free mailbox a finished job goes back to has room.
  lemma RoomAtHome(p: Pool)
    requires Placed(p) && p.hand.Some?
    ensures var h := HomeOf(p.hand.value); |Box(p, h)| < Capacity(h)
  {
    var job := p.hand.value;
    assert Places(p, job) == 1;
    if HomeOf(job) == Internal {
      assert forall j: nat :: multiset(p.avail)[j] <= Places(p, j);
      RoomLeft(p.avail, 0, JOB_CNT, job);
    } else {
      assert forall j: nat :: multiset(p.api)[j] <= Places(p, j);
      assert forall j: nat :: j in p.api ==> Places(p, j) >= 1;
      RoomLeft(p.api, JOB_CNT, ALL_JOBS, job);
    }
  }

  // A finished job is back at home, at the end of its own free mailbox.
  lemma LoopFinishReturns(p: Pool)
    requires Placed(p) && p.hand.Some? && Returning(p, p.hand.value)
    ensures var job := p.hand.value; var q := p.(hand := None, types := p.types[job := JobNone]);
      DoLoopFinish(p) == if HomeOf(job) == Internal then q.(avail := p.avail + [job]) else q.(api := p.api + [job])
  {
    hide Places;
    RoomAtHome(p);
  }

  lemma LoopFinishKeeps(p: Pool)
    requires Placed(p) && p.hand.Some? && Returning(p, p.hand.value)
    ensures Placed(DoLoopFinish(p)) && forall j: nat :: Queued(DoLoopFinish(p), j) ==> Queued(p, j) && j != p.hand.value
  {
    hide DoLoopFinish;
    LoopFinishReturns(p);
    var job := p.hand.value;
    var q := DoLoopFinish(p);
    assert Places(p, job) == 1;
    assert job !in p.work;
    forall j: nat
      ensures Places(q, j) == if j < ALL_JOBS then 1 else 0
    {
      assert Places(q, j) == Places(p, j);
    }
  }

  lemma LoopFinishConserves(p: Pool)
    requires Conserved(p)
    ensures Conserved(DoLoopFinish(p))
  {
    if p.hand.Some? {
      hide DoLoopFinish, Placed;
      assert Queued(p, p.hand.value);
      LoopFinishReturns(p);
      LoopFinishKeeps(p);
    }
  }

  ghost predicate PermittedRun(p: Pool, steps: seq<PoolStep>) {
    forall k :: 0 <= k < |steps| ==> Permitted(PoolRun(p, steps[..k]), steps[k])
  }

  // Conservation. However the threads' steps interleave, each of the 50 jobs
  // is in exactly one place and every queued job will go back to its own free
  // mailbox; so a post to the work mailbox never finds it full.
  lemma {:induction false} JobsConserved(p: Pool, steps: seq<PoolStep>)
    requires Conserved(p) && PermittedRun(p, steps)
    ensures Conserved(PoolRun(p, steps))
    ensures forall j: nat :: j in PoolRun(p, steps).held ==> |PoolRun(p, steps).work| < ALL_JOBS
  {
    hide Places, DoFetch, DoPost, DoLoopFetch, DoLoopFinish, Permitted;
    if steps != [] {
      var front := steps[..|steps| - 1];
      var s := steps[|steps| - 1];
      assert forall k :: 0 <= k < |front| ==> front[..k] == steps[..k];
      JobsConserved(p, front);
      var before := PoolRun(p, front);
      assert Permitted(before, s);
      match s {
        case Fetch(h) => FetchConserves(before, h);
        case Post(job, t) => PostConserves(before, job, t);
        case LoopFetch => LoopFetchConserves(before);
        case LoopFinish => LoopFinishConserves(before);
      }
    }
    forall j: nat | j in PoolRun(p, steps).held
      ensures |PoolRun(p, steps).work| < ALL_JOBS
    {
      RoomToPost(PoolRun(p, steps), j);
    }
  }

  // A job in a caller's hands is one that the work mailbox has room for.
  lemma RoomToPost(p: Pool, job: nat)
    requires Placed(p) && job in p.held
    ensures |p.work| < ALL_JOBS && job < ALL_JOBS && !Queued(p, job)
  {
    assert Places(p, job) == 1;
    assert forall j: nat :: multiset(p.work)[j] <= Places(p, j);
    assert forall j: nat :: j in p.work ==> Places(p, j) >= 1;
    RoomLeft(p.work, 0, ALL_JOBS, job);
  }

  // ---- the exception ----

  ghost predicate OfferedRun(p: Pool, steps: seq<PoolStep>) {
    forall k :: 0 <= k < |steps| ==> Offered(PoolRun(p, steps[..k]), steps[k])
  }

  predicate PostsEventReq(s: PoolStep) { s.Post? && s.jobType == AlEventReq }

  ghost predicate SomeEventReq(p: Pool) { exists j: nat :: Queued(p, j) && IsEventReq(p, j) }

  lemma PostEventReq(p: Pool, job: nat, t: JobType)
    requires Kept(p) && Offered(p, Post(job, t))
    ensures var q := DoPost(p, job, t); Kept(q) && (SomeEventReq(q) <==> SomeEventReq(p) || t == AlEventReq)
  {
    hide Places, DoPost;
    PostKeeps(p, job, t);
    ReturnsWhereFetched(t);
    var q := DoPost(p, job, t);
    assert forall j: nat :: Queued(q, j) <==> Queued(p, j) || j == job;
    assert forall j: nat :: j != job ==> (IsEventReq(q, j) <==> IsEventReq(p, j));
    assert Queued(q, job) && (IsEventReq(q, job) <==> t == AlEventReq);
  }

  lemma FinishEventReq(p: Pool)
    requires Kept(p)
    ensures var q := DoLoopFinish(p); Kept(q) && (SomeEventReq(q) <==> SomeEventReq(p))
  {
    if p.hand.Some? {
      var job := p.hand.value;
      assert Queued(p, job);
      if IsEventReq(p, job) {
        assert DoLoopFinish(p) == p;
      } else {
        hide Placed, DoLoopFinish;
        LoopFinishReturns(p);
        LoopFinishKeeps(p);
        var q := DoLoopFinish(p);
        assert forall j: nat :: j != job ==> (IsEventReq(q, j) <==> IsEventReq(p, j)) && (Queued(q, j) <==> Queued(p, j));
      }
    }
  }

  // Every step keeps all jobs in their places, and an AL_Event_req once queued
  // stays queued.
  lemma OfferedStep(p: Pool, s: PoolStep)
    requires Kept(p) && Offered(p, s)
    ensures var q := PoolDo(p, s); Kept(q) && (SomeEventReq(q) <==> SomeEventReq(p) || PostsEventReq(s))
  {
    hide Placed, DoFetch, DoPost, DoLoopFetch, DoLoopFinish;
    match s {
      case Fetch(h) =>
        FetchKeeps(p, h);
        assert forall j: nat :: Queued(DoFetch(p, h), j) <==> Queued(p, j);
      case Post(job, t) => PostEventReq(p, job, t);
      case LoopFetch => LoopFetchKeeps(p);
      case LoopFinish => FinishEventReq(p);
    }
  }

  // With every type a service may post, AL_Event_req too: each job stays in
  // exactly one place on every run, and all queued ones will go back where they
  // came from if and only if none has been posted as AL_Event_req.
  lemma {:induction false} ConservedExactly(p: Pool, steps: seq<PoolStep>)
    requires Conserved(p) && OfferedRun(p, steps)
    ensures Kept(PoolRun(p, steps))
    ensures Conserved(PoolRun(p, steps)) <==> forall k :: 0 <= k < |steps| ==> !PostsEventReq(steps[k])
  {
    hide Placed, PoolDo, Offered, Queued, IsEventReq, PostsEventReq;
    ConservedIs(PoolRun(p, steps));
    if steps == [] {
      ConservedIs(p);
    } else {
      var front, s := steps[..|steps| - 1], steps[|steps| - 1];
      assert forall k :: 0 <= k < |front| ==> front[..k] == steps[..k];
      ConservedExactly(p, front);
      ConservedIs(PoolRun(p, front));
      assert Offered(PoolRun(p, front), s);
      OfferedStep(PoolRun(p, front), s);
    }
  }

  // What is left of a free mailbox that jobs are only taken from.
  predicate OnlyTaken(was: seq<nat>, now: seq<nat>) { |now| <= |was| && now == was[|was| - |now|..] }

  // Once the main loop has one in hand it keeps it for good: on every later run
  // it takes no other job, and none comes home.
  lemma {:induction false} StuckForGood(p: Pool, steps: seq<PoolStep>)
    requires Kept(p) && p.hand.Some? && IsEventReq(p, p.hand.value) && OfferedRun(p, steps)
    ensures var q := PoolRun(p, steps);
      && q.hand == p.hand && IsEventReq(q, p.hand.value) && Kept(q)
      && p.work <= q.work && OnlyTaken(p.avail, q.avail) && OnlyTaken(p.api, q.api)
  {
    hide Placed, PoolDo;
    if steps != [] {
      var front, s := steps[..|steps| - 1], steps[|steps| - 1];
      assert forall k :: 0 <= k < |front| ==> front[..k] == steps[..k];
      StuckForGood(p, front);
      var before := PoolRun(p, front);
      assert Offered(before, s);
      OfferedStep(before, s);
      StuckStep(before, s);
    }
  }

  lemma StuckStep(p: Pool, s: PoolStep)
    requires Kept(p) && p.hand.Some? && IsEventReq(p, p.hand.value) && Offered(p, s)
    ensures var q := PoolDo(p, s);
      && q.hand == p.hand && IsEventReq(q, p.hand.value)
      && p.work <= q.work && OnlyTaken(p.avail, q.avail) && OnlyTaken(p.api, q.api)
  {
    match s {
      case Post(job, t) => PostKeeps(p, job, t);
      case _ =>
    }
  }

  // ---- the loop's turns ----

  // One turn takes the next job home.
  lemma OneTurn(p: Pool)
    requires Kept(p) && p.hand == None && p.work != [] && !IsEventReq(p, p.work[0])
    ensures var one := DoLoopFetch(p); var q := DoLoopFinish(one);
      && Offered(p, LoopFetch) && Offered(one, LoopFinish)
      && Kept(q) && q.hand == None && q.work == p.work[1..] && q.held == p.held
      && |q.avail| + |q.api| == |p.avail| + |p.api| + 1
      && (forall j: nat :: j in q.work ==> (IsEventReq(q, j) <==> IsEventReq(p, j)))
  {
    hide Placed;
    var one := DoLoopFetch(p);
    assert Queued(p, p.work[0]);
    LoopFetchKeeps(p);
    LoopFinishReturns(one);
    LoopFinishKeeps(one);
    FinishEventReq(one);
    assert forall j: nat :: j in p.work[1..] ==> Queued(DoLoopFinish(one), j);
  }

  // Left alone, the main loop works off everything queued: k turns take the
  // first k jobs home, in order.
  function Turns(k: nat): seq<PoolStep> {
    if k == 0 then [] else Turns(k - 1) + [LoopFetch, LoopFinish]
  }

  lemma {:induction false} LoopDrains(p: Pool, k: nat)
    requires Kept(p) && p.hand == None && k <= |p.work| && forall i :: 0 <= i < k ==> !IsEventReq(p, p.work[i])
    ensures var q := PoolRun(p, Turns(k));
      && Kept(q) && q.hand == None && q.work == p.work[k..] && q.held == p.held
      && |q.avail| + |q.api| == |p.avail| + |p.api| + k
      && (forall j: nat :: j in q.work ==> (IsEventReq(q, j) <==> IsEventReq(p, j)))
      && (Conserved(p) ==> Conserved(q))
    ensures OfferedRun(p, Turns(k))
  {
    hide Kept, Conserved, DoLoopFetch, DoLoopFinish, IsEventReq, PoolRun;
    if k == 0 {
      RunsNothing(p);
    } else {
      LoopDrains(p, k - 1);
      var before := PoolRun(p, Turns(k - 1));
      assert before.work[0] == p.work[k - 1];
      OneTurn(before);
      TwoMore(p, Turns(k - 1), LoopFetch, LoopFinish);
      if Conserved(p) {
        LoopFetchConserves(before);
        LoopFinishConserves(DoLoopFetch(before));
      }
    }
  }

  lemma RunsNothing(p: Pool)
    ensures PoolRun(p, []) == p
  {
  }

  lemma {:induction false} OneStepMore(p: Pool, steps: seq<PoolStep>, s: PoolStep)
    requires OfferedRun(p, steps) && Offered(PoolRun(p, steps), s)
    ensures OfferedRun(p, steps + [s]) && PoolRun(p, steps + [s]) == PoolDo(PoolRun(p, steps), s)
  {
    hide Offered, PoolDo;
    var all := steps + [s];
    forall k | 0 <= k < |all|
      ensures Offered(PoolRun(p, all[..k]), all[k])
    {
      assert all[..k] == if k < |steps| then steps[..k] else steps;
    }
  }

  lemma {:induction false} TwoMore(p: Pool, steps: seq<PoolStep>, a: PoolStep, b: PoolStep)
    requires OfferedRun(p, steps) && Offered(PoolRun(p, steps), a) && Offered(PoolDo(PoolRun(p, steps), a), b)
    ensures OfferedRun(p, steps + [a, b]) && PoolRun(p, steps + [a, b]) == PoolDo(PoolDo(PoolRun(p, steps), a), b)
  {
    hide OfferedRun, Offered, PoolDo, PoolRun;
    OneStepMore(p, steps, a);
    OneStepMore(p, steps + [a], b);
    assert steps + [a] + [b] == steps + [a, b];
  }

  lemma {:induction false} PoolRunJoined(p: Pool, a: seq<PoolStep>, b: seq<PoolStep>)
    requires OfferedRun(p, a) && OfferedRun(PoolRun(p, a), b)
    ensures OfferedRun(p, a + b) && PoolRun(p, a + b) == PoolRun(PoolRun(p, a), b)
    decreases |b|
  {
    hide Offered, PoolDo;
    if b == [] {
      assert a + b == a;
    } else {
      var front, s := b[..|b| - 1], b[|b| - 1];
      assert forall k :: 0 <= k < |front| ==> front[..k] == b[..k];
      PoolRunJoined(p, a, front);
      OneStepMore(p, a + front, s);
      assert a + b == a + front + [s];
    }
  }

  // A free API job, posted as AL_Event_req.
  function EventReq(job: nat): seq<PoolStep> { [Fetch(Api), Post(job, AlEventReq)] }

  // And the loop's steps until it has it in hand: the job it is at, those queued
  // before, and this one.
  function UntilInHand(queued: nat): seq<PoolStep> { [LoopFinish] + Turns(queued) + [LoopFetch] }

  lemma {:induction false} EventPosted(p: Pool)
    requires Conserved(p) && p.api != []
    ensures var job := p.api[0]; var q := PoolRun(p, EventReq(job));
      && OfferedRun(p, EventReq(job)) && Kept(q) && q.hand == p.hand && q.work == p.work + [job] && IsEventReq(q, job)
      && (forall j: nat :: Queued(p, j) ==> !IsEventReq(q, j))
  {
    hide Placed, PoolRun, OfferedRun, Places;
    var job := p.api[0];
    FetchKeeps(p, Api);
    var one := DoFetch(p, Api);
    assert HomeOf(job) == Api by { AtHome(p); }
    RunsNothing(p);
    assert OfferedRun(p, []) by { NothingOffered(p); }
    assert EventReq(job) == [] + [Fetch(Api), Post(job, AlEventReq)];
    TwoMore(p, [], Fetch(Api), Post(job, AlEventReq));
    PostKeeps(one, job, AlEventReq);
    var q := PoolRun(p, EventReq(job));
    forall j: nat | Queued(p, j)
      ensures j != job && !IsEventReq(q, j) && Returning(q, j)
    {
      assert Queued(one, j) && Returning(p, j);
    }
    assert forall j: nat :: Queued(q, j) ==> Queued(p, j) || j == job;
  }

  lemma AtHome(p: Pool)
    requires Placed(p) && p.api != []
    ensures HomeOf(p.api[0]) == Api
  {
  }

  lemma NothingOffered(p: Pool)
    ensures OfferedRun(p, [])
  {
  }

  // The loop is done with the job it is at.
  lemma HandFinished(p: Pool, job: nat)
    requires Kept(p) && job in p.work && (p.hand.Some? ==> !IsEventReq(p, p.hand.value))
    ensures var q := DoLoopFinish(p);
      Kept(q) && q.hand == None && q.work == p.work && forall j: nat :: j in p.work ==> (IsEventReq(q, j) <==> IsEventReq(p, j))
  {
    hide Placed;
    FinishEventReq(p);
    if p.hand.Some? {
      assert Queued(p, p.hand.value);
      LoopFinishReturns(p);
      LoopFinishKeeps(p);
      assert forall j: nat :: j in p.work ==> Queued(DoLoopFinish(p), j);
    }
  }

  lemma InHandNow(p: Pool, job: nat)
    requires Kept(p) && p.hand == None && p.work == [job] && IsEventReq(p, job)
    ensures var q := DoLoopFetch(p); Kept(q) && q.hand == Some(job) && q.work == [] && IsEventReq(q, job) && Offered(p, LoopFetch)
  {
    hide Placed;
    LoopFetchKeeps(p);
  }

  // From any conserved pool with a free API job, a call of AL_Event_req and
  // enough turns of the main loop bring it there; and from then on, whatever
  // threads do, the loop keeps it and takes nothing else.
  lemma {:induction false} EventRequestStuck(p: Pool, later: seq<PoolStep>)
    requires Conserved(p) && p.api != []
    requires OfferedRun(PoolRun(p, EventReq(p.api[0]) + UntilInHand(|p.work|)), later)
    ensures OfferedRun(p, EventReq(p.api[0]) + UntilInHand(|p.work|))
    ensures var stuck := PoolRun(p, EventReq(p.api[0]) + UntilInHand(|p.work|)); var q := PoolRun(stuck, later);
      && stuck.hand == Some(p.api[0]) && IsEventReq(stuck, p.api[0]) && stuck.work == []
      && q.hand == Some(p.api[0]) && IsEventReq(q, p.api[0])
      && OnlyTaken(stuck.avail, q.avail) && OnlyTaken(stuck.api, q.api)
  {
    hide Placed, Kept, Conserved, PoolRun, OfferedRun, Turns, IsEventReq;
    var job, n := p.api[0], |p.work|;
    EventPosted(p);
    var posted := PoolRun(p, EventReq(job));
    assert forall i :: 0 <= i < n ==> posted.work[i] == p.work[i] && Queued(p, p.work[i]);
    HandFinished(posted, job);
    OneStepMore(p, EventReq(job), LoopFinish);
    var rested := DoLoopFinish(posted);
    LoopDrains(rested, n);
    PoolRunJoined(p, EventReq(job) + [LoopFinish], Turns(n));
    var drained := PoolRun(rested, Turns(n));
    assert drained.work == [job];
    assert EventReq(job) + UntilInHand(n) == EventReq(job) + [LoopFinish] + Turns(n) + [LoopFetch];
    InHandNow(drained, job);
    OneStepMore(p, EventReq(job) + [LoopFinish] + Turns(n), LoopFetch);
    StuckForGood(DoLoopFetch(drained), later);
  }
}
