// The mailboxes of osal.c as ring buffers, and the master of iolink_main.c
// that passes its jobs round through three of them.
module JobPool {
  import opened Octets
  import opened JobMachine

  // os_mbox_t: `count` messages from slot r on, the next one goes into slot w.
  class Mailbox {
    const msg: array<nat>
    var r: nat
    var w: nat
    var count: nat

    ghost predicate Valid()
      reads this
    {
      && msg.Length > 0 && r < msg.Length && w < msg.Length && count <= msg.Length
      && w == Slot(count)
    }

    // The slot i places after r.
    ghost function Slot(i: nat): nat
      reads this
      requires msg.Length > 0 && r < msg.Length && i <= msg.Length
    {
      if r + i < msg.Length then r + i else r + i - msg.Length
    }

    ghost function Contents(): (s: seq<nat>)
      reads this, msg
      requires Valid()
    {
      seq(count, i requires Valid() && 0 <= i < count reads this, msg => msg[Slot(i)])
    }

    // os_mbox_create
    constructor (size: nat)
      requires size > 0
      ensures Valid() && fresh(msg) && msg.Length == size && Contents() == []
    {
      msg := new nat[size];
      r, w, count := 0, 0, 0;
    }

    // os_mbox_fetch without waiting: nothing if the mailbox is empty.
    method Fetch() returns (m: Option<nat>)
      requires Valid()
      modifies this`r, this`count
      ensures Valid()
      ensures old(Contents()) == [] ==> m == None && Contents() == []
      ensures old(Contents()) != [] ==> m == Some(old(Contents()[0])) && Contents() == old(Contents()[1..])
    {
      ghost var was := Contents();
      if count == 0 {
        return None;
      }
      m := Some(msg[r]);
      r := r + 1;
      if r == msg.Length {
        r := 0;
      }
      count := count - 1;
      assert Contents() == was[1..];
    }

    // os_mbox_post without waiting: it fails, and keeps the message out, if the
    // mailbox is full.
    method Post(m: nat) returns (failed: bool)
      requires Valid()
      modifies this`w, this`count, msg
      ensures Valid()
      ensures failed == (|old(Contents())| == msg.Length)
      ensures Contents() == old(Contents()) + (if failed then [] else [m])
    {
      ghost var was := Contents();
      if count == msg.Length {
        return true;
      }
      msg[w] := m;
      w := w + 1;
      if w == msg.Length {
        w := 0;
      }
      count := count + 1;
      assert Contents() == was + [m];
      failed := false;
    }
  }

  // iolink_m_t, as far as its jobs go. `held` notes what callers have in hand.
  class Master {
    const mbox: Mailbox
    const mboxAvail: Mailbox
    const mboxApiAvail: Mailbox
    const types: array<JobType>
    var hand: Option<nat>
    ghost var held: set<nat>

    ghost predicate Valid()
      reads this, mbox, mboxAvail, mboxApiAvail
    {
      && mbox != mboxAvail && mbox != mboxApiAvail && mboxAvail != mboxApiAvail
      && mbox.msg != mboxAvail.msg && mbox.msg != mboxApiAvail.msg && mboxAvail.msg != mboxApiAvail.msg
      && mbox.Valid() && mboxAvail.Valid() && mboxApiAvail.Valid()
      && mbox.msg.Length == ALL_JOBS && mboxAvail.msg.Length == JOB_CNT && mboxApiAvail.msg.Length == JOB_API_CNT
      && types.Length == ALL_JOBS
      && types as object != mbox.msg as object && types as object != mboxAvail.msg as object
      && types as object != mboxApiAvail.msg as object
    }

    ghost function Abs(): Pool
      requires Valid()
      reads this, types, mbox, mboxAvail, mboxApiAvail, mbox.msg, mboxAvail.msg, mboxApiAvail.msg
    {
      Pool(mboxAvail.Contents(), mboxApiAvail.Contents(), mbox.Contents(), held, hand, types[..])
    }

    // iolink_m_init: all jobs free at home.
    constructor ()
      ensures Valid() && Conserved(Abs()) && held == {} && hand == None
      ensures fresh(mbox) && fresh(mboxAvail) && fresh(mboxApiAvail) && fresh(types)
      ensures fresh(mbox.msg) && fresh(mboxAvail.msg) && fresh(mboxApiAvail.msg)
    {
      mbox := new Mailbox(ALL_JOBS);
      mboxAvail := new Mailbox(JOB_CNT);
      mboxApiAvail := new Mailbox(JOB_API_CNT);
      types := new JobType[ALL_JOBS](_ => JobNone);
      hand := None;
      held := {};
      new;
      FillFrom(mboxAvail, 0);
      FillFrom(mboxApiAvail, JOB_CNT);
      FreshPool(Abs());
    }

    // The loops of iolink_m_init that post every job to its free mailbox.
    static method FillFrom(m: Mailbox, first: nat)
      requires m.Valid() && m.Contents() == []
      modifies m, m.msg
      ensures m.Valid() && m.Contents() == Row(first, m.msg.Length)
    {
      var i := 0;
      while i < m.msg.Length
        invariant i <= m.msg.Length && m.Valid()
        invariant m.Contents() == Row(first, i)
      {
        var failed := m.Post(first + i);
        i := i + 1;
      }
    }

    // iolink_fetch_avail_job and iolink_fetch_avail_api_job; no job is a failed
    // assertion in the caller.
    method FetchAvailJob(h: Home) returns (job: Option<nat>)
      requires Valid()
      modifies this`held, mboxAvail, mboxApiAvail
      ensures Valid() && Abs() == PoolDo(old(Abs()), JobMachine.Fetch(h))
      ensures job == (if Box(old(Abs()), h) == [] then None else Some(Box(old(Abs()), h)[0]))
    {
      if h == Internal {
        job := mboxAvail.Fetch();
      } else {
        job := mboxApiAvail.Fetch();
      }
      if job.Some? {
        held := held + {job.value};
      }
    }

    // iolink_post_job_with_type_and_callback: its assertion that the post
    // succeeds holds for every job a service may post.
    method PostJob(job: nat, t: JobType)
      requires Valid() && Conserved(Abs()) && Permitted(Abs(), JobMachine.Post(job, t))
      modifies this`held, types, mbox, mbox.msg
      ensures Valid() && Conserved(Abs()) && Abs() == PoolDo(old(Abs()), JobMachine.Post(job, t))
    {
      hide Conserved, Mailbox.Contents, Mailbox.Slot;
      PostConserves(Abs(), job, t);
      Held(Abs(), job);
      types[job] := t;
      var failed := mbox.Post(job);
      assert !failed;
      held := held - {job};
    }

    // The main loop takes the next job...
    method TakeJob()
      requires Valid() && Conserved(Abs())
      modifies this`hand, mbox
      ensures Valid() && Conserved(Abs()) && Abs() == PoolDo(old(Abs()), LoopFetch)
    {
      hide Conserved, Places, Mailbox.Contents, Mailbox.Slot;
      LoopFetchConserves(Abs());
      if hand == None {
        hand := mbox.Fetch();
      }
    }

    // ... and, its callback done, puts it back where its type says.
    method ReturnJob()
      requires Valid() && Conserved(Abs())
      modifies this`hand, types, mboxAvail, mboxAvail.msg, mboxApiAvail, mboxApiAvail.msg
      ensures Valid() && Conserved(Abs()) && Abs() == PoolDo(old(Abs()), LoopFinish)
      ensures old(hand).Some? ==> hand == None
    {
      hide Conserved, Places, Mailbox.Contents, Mailbox.Slot, ReturnsTo, DoLoopFinish;
      LoopFinishConserves(Abs());
      if hand == None {
        assert DoLoopFinish(Abs()) == Abs() by { NothingInHand(Abs()); }
        return;
      }
      var job := hand.value;
      InHand(Abs());
      var home := ReturnsTo(types[job]);
      types[job] := JobNone;
      hand := None;
      if home == Some(Internal) {
        var failed := mboxAvail.Post(job);
        assert !failed;
      } else {
        var failed := mboxApiAvail.Post(job);
        assert !failed;
      }
    }
  }

  lemma NothingInHand(p: Pool)
    requires p.hand == None
    ensures DoLoopFinish(p) == p
  {
  }

  // The job in hand is one of the 50, its type says where its home is, and there
  // is room for it.
  lemma InHand(p: Pool)
    requires Conserved(p) && p.hand.Some?
    ensures p.hand.value < |p.types|
    ensures var job := p.hand.value; var h := HomeOf(job); var q := p.(hand := None, types := p.types[job := JobNone]);
      && ReturnsTo(p.types[job]) == Some(h) && |Box(p, h)| < Capacity(h)
      && DoLoopFinish(p) == if h == Internal then q.(avail := p.avail + [job]) else q.(api := p.api + [job])
  {
    hide Placed, DoLoopFinish;
    assert Queued(p, p.hand.value);
    RoomAtHome(p);
    LoopFinishReturns(p);
  }

  lemma Held(p: Pool, job: nat)
    requires Conserved(p) && job in p.held
    ensures job < ALL_JOBS && |p.work| < ALL_JOBS
  {
    RoomToPost(p, job);
  }

  // All jobs free: the pool iolink_m_init starts with.
  lemma FreshPool(p: Pool)
    requires p.avail == Row(0, JOB_CNT) && p.api == Row(JOB_CNT, JOB_API_CNT)
    requires p.work == [] && p.held == {} && p.hand == None && |p.types| == ALL_JOBS
    ensures Conserved(p)
  {
    hide Row;
    forall j: nat
      ensures Places(p, j) == if j < ALL_JOBS then 1 else 0
    {
      Once(0, JOB_CNT, j);
      Once(JOB_CNT, JOB_API_CNT, j);
    }
  }

  // n jobs from `first` on.
  function Row(first: nat, n: nat): (s: seq<nat>)
    ensures |s| == n && forall i :: 0 <= i < n ==> s[i] == first + i
  {
    if n == 0 then [] else Row(first, n - 1) + [first + n - 1]
  }

  lemma RowNext(first: nat, n: nat)
    ensures Row(first, n) == if n == 0 then [] else Row(first, n - 1) + [first + n - 1]
  {
  }

  lemma {:induction false} Once(first: nat, n: nat, j: nat)
    ensures multiset(Row(first, n))[j] == if first <= j < first + n then 1 else 0
  {
    hide Row;
    RowNext(first, n);
    if n > 0 {
      Once(first, n - 1, j);
    }
  }
}
