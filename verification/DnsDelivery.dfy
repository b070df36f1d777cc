/**
  From every reachable state before the shutdown the completion of a job can still be delivered:
  there is a finite schedule, with memory to be had, after which the job is retired.
*/
module DnsDelivery {
  import opened Options
  import opened DnsModel
  import opened DnsInvariant
  import opened DnsSteps
  import opened DnsTheorems

  /** A schedule that leads from `st` to `n`; memory is there whenever it is asked for. */
  predicate Path(st: State, acts: seq<Action>, n: State)
    decreases |acts|
  {
    if acts == [] then n == st
    else Enabled(st, acts[0]) && Safe(st, acts[0]) && Granted(acts[0]) && Path(Apply(st, acts[0]), acts[1..], n)
  }

  /** malloc and pthread_create succeed. */
  predicate Granted(a: Action) { (a.WorkerStep? ==> a.ok) && (a.LoopStep? ==> a.ok) }

  lemma {:induction false} PathJoins(st: State, a: seq<Action>, m: State, b: seq<Action>, n: State)
    requires Path(st, a, m) && Path(m, b, n)
    ensures Path(st, a + b, n)
    decreases |a|
  {
    if a == [] {
      assert a + b == b;
    } else {
      PathJoins(Apply(st, a[0]), a[1..], m, b, n);
      assert (a + b)[1..] == a[1..] + b;
    }
  }

  // ----- helping the loop on -----

  predicate HeldByWorker(lock: Option<Owner>) { lock.Some? && lock.value.Worker? }

  /** The thread that can take the step the loop is waiting for. */
  function Helper(st: State): Ptr {
    var u := WaitsFor(st, Loop);
    if u.Some? && u.value.Worker? then
      var v := WaitsFor(st, u.value);
      if v.Some? && v.value.Worker? then v.value.p else u.value.p
    else 0
  }

  /** What brings the loop further: its own step, or that of a thread it waits for. */
  function Help(st: State): Action {
    if st.loop.Parked? then Wake(false, false)
    else if st.loop.Iterate? then IterateDone
    else if st.loop.BlkConnect? && st.job.Some? then Connect(st.job.value, Keep(true, true))
    else if LoopEnabled(st) then LoopStep(true)
    else WorkerStep(Helper(st), true)
  }

  /** The loop waits for a worker that can move, or for one that waits for a mutex whose holder can. */
  lemma HelpEnabled(st: State)
    requires Inv(st) && !Closing(st.loop)
    ensures Enabled(st, Help(st)) && Safe(st, Help(st)) && Granted(Help(st))
    ensures Help(st).WorkerStep? ==> HelpsBy(st, Helper(st))
  {
    if Help(st).WorkerStep? {
      HelperMoves(st);
    }
    StepPreserves(st, Help(st));
  }

  /** The helper holds a mutex, or is the thread being joined. */
  predicate HelpsBy(st: State, q: Ptr) {
    && WorkerEnabled(st, q)
    && var w := st.conns[q].thread.value;
      || (st.dLock == Some(Worker(q)) && WorkerHoldsD(w))
      || (st.rLock == Some(Worker(q)) && WorkerHoldsR(w) && !Notifying(st.loop))
      || (st.loop.BlkJoin? && st.job == Some(q) && (w.NtKill? || w.FlagLock? || w.FlagIn?))
  }

  lemma HelperMoves(st: State)
    requires Inv(st) && !Closing(st.loop) && Help(st).WorkerStep?
    ensures HelpsBy(st, Helper(st))
  {
    if st.job.Some? {
      assert ViewOk(ViewOf(st, st.job.value));
    }
    var u := WaitsFor(st, Loop);
    assert u.Some?;
    WaitsDescend(st, Loop);
    assert u.value.Worker?;
    var q := u.value.p;
    assert ViewOk(ViewOf(st, q));
    var v := WaitsFor(st, u.value);
    if v.Some? {
      WaitsDescend(st, u.value);
      assert v.value.Worker?;
      assert ViewOk(ViewOf(st, v.value.p));
    }
  }

  // ----- how far it is to the next pselect -----

  /** Steps left to a thread that is being joined, which has sent its notification. */
  function JoinLeft(st: State): nat {
    if !(st.loop.BlkJoin? && st.job.Some? && st.job.value in st.conns && st.conns[st.job.value].thread.Some?) then 0
    else
      match st.conns[st.job.value].thread.value
      case Exited => 0
      case FlagIn(_) => 2
      case FlagLock(_) => 4
      case _ => 5
  }

  /** Workers in the way: each leaves its critical section in one step, but may queue something. */
  function Relief(st: State): nat {
    (if HeldByWorker(st.dLock) then 1 else 0) + (if HeldByWorker(st.rLock) then 40 else 0)
  }

  /** What is left of the pass at this position, lists apart. */
  function Base(l: LoopPos): nat {
    match l
    case ArrLock => 60
    case ArrIn => 58
    case ArrAlloc => 56
    case ArrNtLock => 54
    case ArrNtIn => 52
    case ArrKill => 31
    case ArrFlagLock(_) => 30
    case ArrFlagIn(_) => 29
    case Iterate => 28
    case HbnLock => 27
    case BlkLock => 26
    case BlkIn => 25
    case BlkJoin => 18
    case BlkLock2 => 17
    case BlkIn2 => 16
    case BlkConnect => 15
    case Hbn => 14
    case RetLock => 13
    case RetAlloc => 12
    case RetNtLock => 11
    case RetNtIn => 10
    case RetKill => 9
    case RetIn => 8
    case Housekeep => 3
    case SelLock => 2
    case SelIn => 1
    case _ => 0
  }

  /** The lists still to be gone through in this pass. */
  function ListsLeft(st: State): nat {
    if Arriving(st.loop) || st.loop.Iterate? || st.loop.HbnLock? then 8 * |st.jobs| + 20 * |st.queue|
    else if Notifying(st.loop) then 8 * |st.jobs| + 20 * |st.rest|
    else if st.loop.RetLock? then 8 * |st.jobs|
    else if st.loop.RetIn? || Retrying(st.loop) then 8 * |st.todo|
    else 0
  }

  function Left(st: State): nat { Base(st.loop) + ListsLeft(st) + Relief(st) + JoinLeft(st) }

  lemma WorkerBrings(st: State, q: Ptr)
    requires HelpsBy(st, q)
    ensures Left(WorkerNext(st, q, true)) < Left(st)
  {
  }

  lemma {:induction false} RemoveJobShort(jobs: seq<Ptr>, p: Ptr)
    ensures |RemoveJob(jobs, p)| <= |jobs|
  {
    if jobs != [] && jobs[0] != p {
      RemoveJobShort(jobs[1..], p);
    }
  }

  /** The position moves on by more than the lists can grow. */
  lemma GotoBrings(l: LoopPos, c: Conn)
    requires JobStep(l) && !Closing(l)
    ensures var t := LoopGoto(l, c, true, true);
      && Base(t) + (if t.ArrKill? then 20 else 0) + (if l.ArrIn? then 8 else 0) + (if t.BlkJoin? then 5 else 0)
         < Base(l)
      && (Retrying(l) ==> t.RetIn? || Retrying(t)) && (Blocking(l) ==> Notifying(t))
      && (Arriving(l) ==> Arriving(t) || t.Iterate?) && !(t.RetKill? && !Retrying(l)) && !(l.ArrIn? && !Arriving(l))
  {
  }

  lemma JobBrings(st: State, p: Ptr)
    requires JobStep(st.loop) && LoopEnabled(st) && !Closing(st.loop) && st.job == Some(p) && p in st.conns
    requires Mutexes(st) && st.threadSet && ViewOk(ViewOf(st, p))
    ensures Left(JobNext(st, p, true)) < Left(st)
  {
    var n := JobNext(st, p, true);
    GotoBrings(st.loop, st.conns[p]);
    ListsGrow(st, p);
    assert JoinLeft(n) <= if n.loop.BlkJoin? then 5 else 0;
    assert Relief(n) <= Relief(st);
    hide LoopGoto, JoinLeft, Relief, ViewOk, ListsLeft, Base, JobNext;
    return;
  }

  lemma ListsGrow(st: State, p: Ptr)
    requires JobStep(st.loop) && !Closing(st.loop) && p in st.conns && st.threadSet
    ensures var n := JobNext(st, p, true);
      ListsLeft(n) <= ListsLeft(st) + (if n.loop.ArrKill? then 20 else 0) + (if st.loop.ArrIn? then 8 else 0)
  {
    GotoBrings(st.loop, st.conns[p]);
    RemoveJobShort(st.jobs, p);
    hide LoopGoto, Base, LoopConn;
    return;
  }

  lemma IdleBrings(st: State)
    requires LoopEnabled(st) && !Closing(st.loop) && !HasJob(st.loop) && Mutexes(st)
    ensures Left(IdleNext(st)) < Left(st)
  {
  }

  lemma ConnectBrings(st: State, p: Ptr)
    requires st.loop.BlkConnect? && st.job == Some(p) && CanRelease(st, p) && st.conns[p].references > 1
    ensures var n := SetArmed(AfterResolv(st, p), p, true, true).(loop := Hbn, job := None); Left(n) < Left(st)
  {
  }

  lemma HelpBrings(st: State)
    requires Inv(st) && !Closing(st.loop) && !st.loop.Parked?
    ensures Enabled(st, Help(st)) && Safe(st, Help(st)) && Left(Apply(st, Help(st))) < Left(st)
  {
    HelpEnabled(st);
    var a := Help(st);
    if a.WorkerStep? {
      WorkerBrings(st, Helper(st));
    } else if a.Connect? {
      ConnectBrings(st, st.job.value);
    } else if a.LoopStep? {
      if JobStep(st.loop) {
        assert ViewOk(ViewOf(st, st.job.value));
        JobBrings(st, st.job.value);
      } else {
        IdleBrings(st);
      }
    }
  }

  // ----- schedules -----

  /** The job is active. */
  predicate Unfinished(st: State, p: Ptr) { p in st.conns && st.conns[p].active }

  /** The job is retired, and its handler goes on to connect with the result. */
  predicate Retired(st: State, p: Ptr) {
    p in st.conns && !st.conns[p].active && st.loop.BlkConnect? && st.job == Some(p)
  }

  lemma JobStays(st: State, p: Ptr)
    requires Inv(st) && JobStep(st.loop) && LoopEnabled(st) && !Closing(st.loop) && Unfinished(st, p)
    ensures var n := JobNext(st, st.job.value, true); !Closing(n.loop) && (Unfinished(n, p) || Retired(n, p))
  {
    var j := st.job.value;
    JobStepReady(st, j);
    GotoFacts(st.loop, st.conns[j], true);
  }

  lemma IdleStays(st: State, p: Ptr)
    requires LoopEnabled(st) && !HasJob(st.loop) && !Closing(st.loop) && Unfinished(st, p)
    ensures !Closing(IdleNext(st).loop) && Unfinished(IdleNext(st), p)
  {
  }

  lemma WorkerStays(st: State, q: Ptr, p: Ptr)
    requires WorkerEnabled(st, q) && !Closing(st.loop) && Unfinished(st, p)
    ensures !Closing(WorkerNext(st, q, true).loop) && Unfinished(WorkerNext(st, q, true), p)
  {
  }

  lemma ConnectStays(st: State, p: Ptr)
    requires Inv(st) && st.loop.BlkConnect? && Safe(st, Help(st)) && Enabled(st, Help(st)) && Unfinished(st, p)
    ensures var n := Apply(st, Help(st)); !Closing(n.loop) && Unfinished(n, p)
  {
    assert ViewOk(ViewOf(st, p)) && ViewOk(ViewOf(st, st.job.value));
  }

  /** Help does not shut the server down, and retires a job only by delivering it. */
  lemma HelpStays(st: State, p: Ptr)
    requires Inv(st) && !Closing(st.loop) && Enabled(st, Help(st)) && Safe(st, Help(st)) && Unfinished(st, p)
    ensures var n := Apply(st, Help(st)); !Closing(n.loop) && (Unfinished(n, p) || Retired(n, p))
  {
    var a := Help(st);
    if a.WorkerStep? {
      WorkerStays(st, a.p, p);
    } else if a.Connect? {
      ConnectStays(st, p);
    } else if a.LoopStep? {
      if JobStep(st.loop) {
        JobStays(st, p);
      } else {
        IdleStays(st, p);
      }
    }
  }

  /** One step of help, and where it leads. */
  lemma HelpStep(st: State, p: Ptr) returns (n: State)
    requires Inv(st) && !Closing(st.loop) && Unfinished(st, p)
    ensures Enabled(st, Help(st)) && Safe(st, Help(st)) && Granted(Help(st)) && n == Apply(st, Help(st))
    ensures Path(st, [Help(st)], n)
    ensures Inv(n) && !Closing(n.loop) && (Unfinished(n, p) || Retired(n, p))
    ensures !st.loop.Parked? ==> Left(n) < Left(st)
  {
    HelpEnabled(st);
    HelpStays(st, p);
    var a := Help(st);
    n := Apply(st, a);
    StepPreserves(st, a);
    if !st.loop.Parked? {
      HelpBrings(st);
    }
    assert [a][1..] == [];
    assert Path(n, [], n);
  }

  /** The loop can always be brought to pselect. */
  lemma {:induction false} ToParked(st: State, p: Ptr) returns (acts: seq<Action>, n: State)
    requires Inv(st) && !Closing(st.loop) && Unfinished(st, p)
    ensures Path(st, acts, n) && Inv(n) && !Closing(n.loop) && (Retired(n, p) || (Unfinished(n, p) && n.loop.Parked?))
    decreases Left(st)
  {
    if st.loop.Parked? {
      return [], st;
    }
    var m := HelpStep(st, p);
    acts, n := [Help(st)], m;
    if Unfinished(m, p) {
      var more;
      more, n := ToParked(m, p);
      PathJoins(st, acts, m, more, n);
      acts := acts + more;
    }
  }

  // ----- the job's own thread -----

  predicate Done(c: Conn) { c.thread.None? || c.thread.value.Exited? }

  function ThreadLeft(w: WorkerPc): nat {
    match w
    case Resolve => 10
    case PubLock => 9
    case PubIn => 8
    case NtAlloc => 7
    case NtLock => 6
    case NtIn => 5
    case NtKill => 4
    case FlagLock(_) => 3
    case FlagIn(_) => 2
    case Exited => 0
  }

  /** While the loop is parked no mutex is its own: the job's thread can move, or a holder can. */
  function Mover(st: State, p: Ptr): Ptr {
    var u := WaitsFor(st, Worker(p));
    if u.Some? && u.value.Worker? then u.value.p else p
  }

  function RunLeft(st: State, p: Ptr): nat {
    Relief(st) + if p in st.conns && st.conns[p].thread.Some? then 50 * ThreadLeft(st.conns[p].thread.value) else 0
  }

  predicate MovesFor(st: State, q: Ptr, p: Ptr) {
    && WorkerEnabled(st, q)
    && (q != p ==>
        var w := st.conns[q].thread.value;
        || (st.dLock == Some(Worker(q)) && WorkerHoldsD(w)) || (st.rLock == Some(Worker(q)) && WorkerHoldsR(w)))
  }

  lemma MoverMoves(st: State, p: Ptr)
    requires Inv(st) && st.loop.Parked? && Unfinished(st, p) && !Done(st.conns[p])
    ensures MovesFor(st, Mover(st, p), p)
  {
    assert ViewOk(ViewOf(st, p));
    var u := WaitsFor(st, Worker(p));
    if u.Some? {
      WaitsDescend(st, Worker(p));
      assert u.value.Worker?;
      assert ViewOk(ViewOf(st, u.value.p));
    }
  }

  lemma MoverBrings(st: State, p: Ptr)
    requires p in st.conns && MovesFor(st, Mover(st, p), p)
    ensures RunLeft(WorkerNext(st, Mover(st, p), true), p) < RunLeft(st, p)
  {
  }

  lemma RunStep(st: State, p: Ptr) returns (n: State)
    requires Inv(st) && st.loop.Parked? && Unfinished(st, p) && !Done(st.conns[p])
    ensures var a := WorkerStep(Mover(st, p), true);
      Enabled(st, a) && Safe(st, a) && n == Apply(st, a) && Path(st, [a], n)
    ensures Inv(n) && n.loop.Parked? && Unfinished(n, p) && RunLeft(n, p) < RunLeft(st, p)
  {
    MoverMoves(st, p);
    MoverBrings(st, p);
    WorkerStays(st, Mover(st, p), p);
    var a := WorkerStep(Mover(st, p), true);
    n := Apply(st, a);
    StepPreserves(st, a);
    assert [a][1..] == [];
    assert Path(n, [], n);
  }

  lemma {:induction false} RunThread(st: State, p: Ptr) returns (acts: seq<Action>, n: State)
    requires Inv(st) && st.loop.Parked? && Unfinished(st, p)
    ensures Path(st, acts, n) && Inv(n) && n.loop.Parked? && Unfinished(n, p) && Done(n.conns[p])
    decreases RunLeft(st, p)
  {
    if Done(st.conns[p]) {
      return [], st;
    }
    var m := RunStep(st, p);
    acts, n := RunThread(m, p);
    var a := WorkerStep(Mover(st, p), true);
    PathJoins(st, [a], m, acts, n);
    acts := [a] + acts;
  }

  // ----- the pass that delivers -----

  /** The completion is on the list, or the loop is taking it. */
  predicate Queued(st: State, p: Ptr)
    requires p in st.conns
  {
    st.conns[p].clientFd in Pending(st) || (st.job == Some(p) && Blocking(st.loop))
  }

  predicate Delivering(st: State, p: Ptr) {
    Unfinished(st, p) && Done(st.conns[p]) && Queued(st, p) && (st.loop.HbnLock? || Notifying(st.loop))
  }

  /** A worker's step leaves a job whose thread is done as it is, and only adds to the queue. */
  lemma WorkerLeaves(st: State, q: Ptr, p: Ptr)
    requires WorkerEnabled(st, q) && p in st.conns && Done(st.conns[p])
    ensures var n := WorkerNext(st, q, true);
      && q != p && p in n.conns && n.conns[p] == st.conns[p]
      && n.loop == st.loop && n.job == st.job && n.rest == st.rest && n.todo == st.todo && n.jobs == st.jobs
      && (forall fd :: fd in st.queue ==> fd in n.queue)
  {
  }

  lemma IdleDelivers(st: State, p: Ptr)
    requires Inv(st) && LoopEnabled(st) && !HasJob(st.loop) && Delivering(st, p)
    ensures Delivering(IdleNext(st), p)
  {
    assert ViewOk(ViewOf(st, p));
    if st.loop.Hbn? && st.rest != [] {
      var fd := st.conns[p].clientFd;
      assert st.rest == [st.rest[0]] + st.rest[1..];
      assert fd in st.fds && st.fds[fd] == p;
    }
  }

  lemma JobDelivers(st: State, p: Ptr)
    requires Inv(st) && JobStep(st.loop) && LoopEnabled(st) && Delivering(st, p)
    ensures var n := JobNext(st, st.job.value, true); Delivering(n, p) || Retired(n, p)
  {
    var j := st.job.value;
    assert ViewOk(ViewOf(st, p)) && ViewOk(ViewOf(st, j));
    hide Inv;
    return;
  }

  lemma ConnectDelivers(st: State, p: Ptr)
    requires Inv(st) && st.loop.BlkConnect? && Safe(st, Help(st)) && Enabled(st, Help(st)) && Delivering(st, p)
    ensures Delivering(Apply(st, Help(st)), p)
  {
    assert ViewOk(ViewOf(st, p)) && ViewOk(ViewOf(st, st.job.value));
  }

  lemma HelpDelivers(st: State, p: Ptr) returns (n: State)
    requires Inv(st) && !Closing(st.loop) && Delivering(st, p)
    ensures Enabled(st, Help(st)) && Safe(st, Help(st)) && n == Apply(st, Help(st)) && Path(st, [Help(st)], n)
    ensures Inv(n) && !Closing(n.loop) && Left(n) < Left(st) && (Delivering(n, p) || Retired(n, p))
  {
    n := HelpStep(st, p);
    var a := Help(st);
    if a.WorkerStep? {
      WorkerLeaves(st, a.p, p);
    } else if a.Connect? {
      ConnectDelivers(st, p);
    } else if JobStep(st.loop) {
      JobDelivers(st, p);
    } else {
      IdleDelivers(st, p);
    }
  }

  lemma {:induction false} Deliver(st: State, p: Ptr) returns (acts: seq<Action>, n: State)
    requires Inv(st) && !Closing(st.loop) && Delivering(st, p)
    ensures Path(st, acts, n) && Inv(n) && Retired(n, p)
    decreases Left(st)
  {
    var m := HelpDelivers(st, p);
    acts, n := [Help(st)], m;
    if !Retired(m, p) {
      var more;
      more, n := Deliver(m, p);
      PathJoins(st, acts, m, more, n);
      acts := acts + more;
    }
  }

  // ----- the pass that retries -----

  /** A flagged completion on its way back to the list: still flagged and to be visited, or queued. */
  predicate Requeuing(st: State, p: Ptr) {
    && Unfinished(st, p) && Done(st.conns[p])
    && var c := st.conns[p];
      if st.loop.HbnLock? || Notifying(st.loop) || st.loop.RetLock? then c.failed
      else if st.loop.RetIn? then (c.failed && p in st.todo) || c.clientFd in st.queue
      else if Retrying(st.loop) then (c.failed && (p in st.todo || st.job == Some(p))) || c.clientFd in st.queue
      else (st.loop.Housekeep? || st.loop.SelLock? || st.loop.SelIn? || st.loop.Parked?) && c.clientFd in st.queue
  }

  lemma IdleRequeues(st: State, p: Ptr)
    requires Inv(st) && LoopEnabled(st) && !HasJob(st.loop) && Requeuing(st, p)
    ensures Requeuing(IdleNext(st), p)
  {
    var v := ViewOf(st, p);
    assert ViewOk(v);
    assert st.loop.RetLock? || st.loop.RetIn? ==> p in st.jobs;
    assert v.c.failed ==> v.c.completed;
    IdleSteps(st, p);
  }

  lemma IdleSteps(st: State, p: Ptr)
    requires LoopEnabled(st) && !HasJob(st.loop) && Requeuing(st, p)
    requires st.loop.RetLock? || st.loop.RetIn? ==> p in st.jobs
    requires st.conns[p].failed ==> st.conns[p].completed
    ensures Requeuing(IdleNext(st), p)
  {
    if st.loop.RetIn? && st.todo != [] {
      assert st.todo == [st.todo[0]] + st.todo[1..];
    }
  }

  lemma JobRequeues(st: State, p: Ptr)
    requires Inv(st) && JobStep(st.loop) && LoopEnabled(st) && !Closing(st.loop) && Requeuing(st, p)
    ensures Requeuing(JobNext(st, st.job.value, true), p)
  {
    var j := st.job.value;
    JobStepReady(st, j);
    GotoFacts(st.loop, st.conns[j], true);
    assert ViewOk(ViewOf(st, p));
    if Retrying(st.loop) {
      RetryGoesOn(st.loop, st.conns[j]);
      if j == p {
        assert st.loop.RetKill? ==> multiset(st.queue)[st.conns[p].clientFd] == 1;
        OwnRequeues(st, p);
      } else {
        OtherRequeues(st, j, p);
      }
    } else {
      OtherRequeues(st, j, p);
    }
  }

  lemma OwnRequeues(st: State, p: Ptr)
    requires Retrying(st.loop) && st.job == Some(p) && st.threadSet && Requeuing(st, p)
    requires st.loop.RetKill? ==> st.conns[p].clientFd in st.queue
    ensures Requeuing(JobNext(st, p, true), p)
  {
    RetryGoesOn(st.loop, st.conns[p]);
  }

  lemma OtherRequeues(st: State, j: Ptr, p: Ptr)
    requires JobStep(st.loop) && st.job == Some(j) && j in st.conns && j != p && st.threadSet && Requeuing(st, p)
    requires var t := LoopGoto(st.loop, st.conns[j], true, true);
      if Retrying(st.loop) then t.RetIn? || Retrying(t) else Notifying(st.loop) && Notifying(t)
    ensures Requeuing(JobNext(st, j, true), p)
  {
    hide LoopGoto, LoopConn, LoopJobs;
    return;
  }

  lemma RetryGoesOn(l: LoopPos, c: Conn)
    requires Retrying(l)
    ensures var t := LoopGoto(l, c, true, true);
      && (t.RetIn? || Retrying(t))
      && t == if l.RetAlloc? then RetNtLock else if l.RetNtLock? then RetNtIn else if l.RetNtIn? then RetKill else RetIn
  {
  }

  lemma ConnectRequeues(st: State, p: Ptr)
    requires Inv(st) && st.loop.BlkConnect? && Safe(st, Help(st)) && Enabled(st, Help(st)) && Requeuing(st, p)
    ensures Requeuing(Apply(st, Help(st)), p)
  {
    assert ViewOk(ViewOf(st, p)) && ViewOk(ViewOf(st, st.job.value));
  }

  lemma HelpRequeues(st: State, p: Ptr) returns (n: State)
    requires Inv(st) && !Closing(st.loop) && !st.loop.Parked? && Requeuing(st, p)
    ensures Enabled(st, Help(st)) && Safe(st, Help(st)) && n == Apply(st, Help(st)) && Path(st, [Help(st)], n)
    ensures Inv(n) && !Closing(n.loop) && Left(n) < Left(st) && Requeuing(n, p)
  {
    n := HelpStep(st, p);
    var a := Help(st);
    if a.WorkerStep? {
      WorkerLeaves(st, a.p, p);
    } else if a.Connect? {
      ConnectRequeues(st, p);
    } else if JobStep(st.loop) {
      JobRequeues(st, p);
    } else {
      IdleRequeues(st, p);
    }
  }

  lemma {:induction false} Requeue(st: State, p: Ptr) returns (acts: seq<Action>, n: State)
    requires Inv(st) && !Closing(st.loop) && Requeuing(st, p)
    ensures Path(st, acts, n) && Inv(n) && n.loop.Parked? && Requeuing(n, p)
    decreases Left(st)
  {
    if st.loop.Parked? {
      return [], st;
    }
    var m := HelpRequeues(st, p);
    acts, n := Requeue(m, p);
    PathJoins(st, [Help(st)], m, acts, n);
    acts := [Help(st)] + acts;
  }

  // ----- the theorem -----

  /** pselect returns for no descriptor. */
  lemma WakeUpLoop(st: State, p: Ptr) returns (n: State)
    requires Inv(st) && st.loop.Parked? && Unfinished(st, p) && Done(st.conns[p])
    ensures Path(st, [Wake(false, false)], n) && Inv(n) && n.loop.HbnLock?
    ensures if st.conns[p].clientFd in st.queue then Delivering(n, p) else Requeuing(n, p)
  {
    assert ViewOk(ViewOf(st, p));
    var a := Wake(false, false);
    n := Apply(st, a);
    StepPreserves(st, a);
    assert [a][1..] == [];
    assert Path(n, [], n);
  }

  /** A completion that is queued while the loop is parked is delivered by the next pass. */
  lemma NextPass(st: State, p: Ptr) returns (acts: seq<Action>, n: State)
    requires Inv(st) && st.loop.Parked? && Unfinished(st, p) && Done(st.conns[p]) && st.conns[p].clientFd in st.queue
    ensures Path(st, acts, n) && Inv(n) && Retired(n, p)
  {
    var m := WakeUpLoop(st, p);
    acts, n := Deliver(m, p);
    PathJoins(st, [Wake(false, false)], m, acts, n);
    acts := [Wake(false, false)] + acts;
  }

  /** One that is flagged is queued by the next pass, and delivered by the one after. */
  lemma FromRest(st: State, p: Ptr) returns (acts: seq<Action>, n: State)
    requires Inv(st) && st.loop.Parked? && Unfinished(st, p) && Done(st.conns[p])
    ensures Path(st, acts, n) && Inv(n) && Retired(n, p)
  {
    hide Path, Delivering, Inv, Retired, Help;
    if st.conns[p].clientFd in st.queue {
      acts, n := NextPass(st, p);
    } else {
      var m := WakeUpLoop(st, p);
      var a, k := Requeue(m, p);
      var b;
      b, n := NextPass(k, p);
      PathJoins(m, a, k, b, n);
      PathJoins(st, [Wake(false, false)], m, a + b, n);
      acts := [Wake(false, false)] + (a + b);
    }
    return;
  }

  /** Whatever has happened before the shutdown, an active job can still be delivered: a schedule
      leads from there to a state in which it is retired, its connection still there. */
  lemma CanStillBeDelivered(states: seq<State>, actions: seq<Action>, p: Ptr) returns (acts: seq<Action>, n: State)
    requires IsRun(states, actions) && !Closing(states[|actions|].loop) && Unfinished(states[|actions|], p)
    ensures Path(states[|actions|], acts, n) && Inv(n) && Retired(n, p)
  {
    var st := states[|actions|];
    RunInvariant(states, actions, |actions|);
    var a, k := ToParked(st, p);
    if Retired(k, p) {
      return a, k;
    }
    var b, m := RunThread(k, p);
    var c;
    c, n := FromRest(m, p);
    PathJoins(k, b, m, c, n);
    PathJoins(st, a, k, b + c, n);
    acts := a + (b + c);
  }
}
