/**
  The DNS job protocol of request.c, the notification half of selector.c and the reference
  counts of socks5.c, as an interleaved step system.  One event loop and any number of
  resolver threads share `dns_jobs_mutex` (here `dLock`), `resolution_mutex` (`rLock`), the
  notification queue and the wake-up signal.  A critical section is two steps: acquiring the
  mutex, and running its body up to the release.
*/
module DnsModel {
  import opened Options

  /** The address of a `struct socks5`. */
  type Ptr = nat

  const POOL_MAX := 64

  datatype Owner = Loop | Worker(p: Ptr)

  /** How far the connection's own state machine is: before, in, or after REQUEST_RESOLV. */
  datatype Stage = Negotiating | Resolving | Later

  /** The part of `struct socks5` the protocol reads and writes.  `armed` says that some
      interest is set on one of its descriptors; `originFd` is the registered origin.
      `thread` is the resolver working on the struct: it exists from pthread_create until it
      is joined. */
  datatype Conn = Conn(
    clientFd: int,
    originFd: Option<int>,
    references: int,
    stage: Stage,
    armed: bool,
    resolving: bool,
    active: bool,
    started: bool,
    completed: bool,
    failed: bool,
    thread: Option<WorkerPc>)

  /** Program counter of a resolver thread.  The `Nt` positions are selector_notify_block. */
  datatype WorkerPc =
    | Resolve
    | PubLock | PubIn
    | NtAlloc | NtLock | NtIn | NtKill
    | FlagLock(fail: bool) | FlagIn(fail: bool)
    | Exited

  /** Position of the event loop.  `Sel` is selector_select, `Arr` the arrival at
      REQUEST_RESOLV, `Hbn` handle_block_notifications, `Blk` the block handler it calls,
      `Ret` the retry of failed notifications, `Wait` request_resolv_wait_all. */
  datatype LoopPos =
    | SelLock | SelIn | Parked
    | Iterate
    | ArrLock | ArrIn | ArrAlloc | ArrNtLock | ArrNtIn | ArrKill | ArrFlagLock(fail: bool) | ArrFlagIn(fail: bool)
    | HbnLock | Hbn
    | BlkLock | BlkIn | BlkJoin | BlkLock2 | BlkIn2 | BlkConnect
    | RetLock | RetIn | RetAlloc | RetNtLock | RetNtIn | RetKill
    | Housekeep
    | WaitLock | WaitIn | WaitJoin | WaitLock2 | WaitIn2 | WaitRelease
    | Teardown | Halted

  /** `conns` holds the structs on the active list, `heap` the addresses malloc has handed out
      and not taken back, `fds` the selector's entries for client and origin descriptors.
      `job` is the connection whose job the loop is handling, `rest` what is left of the
      notification list, `todo` what is left of the job list during a retry. */
  datatype State = State(
    conns: map<Ptr, Conn>,
    fds: map<int, Ptr>,
    pool: seq<Ptr>,
    heap: set<Ptr>,
    jobs: seq<Ptr>,
    queue: seq<int>,
    signal: bool,
    dLock: Option<Owner>,
    rLock: Option<Owner>,
    threadSet: bool,
    loop: LoopPos,
    job: Option<Ptr>,
    rest: seq<int>,
    todo: seq<Ptr>)

  /** What a read or write handler of a connection does to the state modelled here. */
  datatype Outcome =
    | Keep(later: bool, armed: bool)
    | Drop(armed: bool)
    | Open(fd: int, armed: bool)
    | Swap(fd: int, armed: bool)
    | Close
    | EnterResolv

  /** Every nondeterministic choice: malloc and pthread_create results, which descriptor is
      ready, how pselect returns, when the administrator asks for shutdown. */
  datatype Action =
    | WorkerStep(p: Ptr, ok: bool)
    | LoopStep(ok: bool)
    | Wake(readiness: bool, clear: bool)
    | SelectFails
    | Accept(fd: int, p: Ptr, registered: bool)
    | Io(p: Ptr, out: Outcome)
    | IterateDone
    | Connect(p: Ptr, out: Outcome)
    | Sweep(p: Ptr)
    | Shutdown
    | TearFd(fd: int)
    | TearPool
    | TearEnd

  const Init := State(map[], map[], [], {}, [], [], false, None, None, false, SelLock, None, [], [])

  // ----- reference counts, pool and descriptor table (socks5.c, selector.c) -----

  function Recycle(st: State, p: Ptr): State {
    if |st.pool| < POOL_MAX
    then st.(conns := st.conns - {p}, pool := [p] + st.pool)
    else st.(conns := st.conns - {p}, heap := st.heap - {p})
  }

  /** assert(references > 0), and the struct may go only when no thread can touch it. */
  predicate CanRelease(st: State, p: Ptr) {
    p in st.conns && st.conns[p].references > 0 &&
    (st.conns[p].references == 1 ==> st.conns[p].thread.None?)
  }

  function Release(st: State, p: Ptr): State
    requires CanRelease(st, p)
  {
    var c := st.conns[p].(references := st.conns[p].references - 1);
    if c.references != 0 then st.(conns := st.conns[p := c]) else Recycle(st, p)
  }

  predicate CanUnregister(st: State, fd: int) {
    fd in st.fds && CanRelease(st, st.fds[fd])
  }

  function Unregister(st: State, fd: int): State
    requires CanUnregister(st, fd)
  {
    Release(st.(fds := st.fds - {fd}), st.fds[fd])
  }

  /** selector_unregister_fd on the origin, then `origin_fd = -1`. */
  predicate CanDrop(st: State, p: Ptr) {
    p in st.conns && st.conns[p].originFd.Some? &&
    CanUnregister(st, st.conns[p].originFd.value) && st.fds[st.conns[p].originFd.value] == p &&
    st.conns[p].references > 1
  }

  function DropOrigin(st: State, p: Ptr): State
    requires CanDrop(st, p)
  {
    var u := Unregister(st, st.conns[p].originFd.value);
    u.(conns := u.conns[p := u.conns[p].(originFd := None)])
  }

  /** socks5_register_origin when the selector accepts the descriptor. */
  function OpenOrigin(st: State, p: Ptr, fd: int): State
    requires p in st.conns
  {
    var c := st.conns[p];
    st.(fds := st.fds[fd := p],
        conns := st.conns[p := c.(originFd := Some(fd), references := c.references + 1)])
  }

  /** socks5_done and socks5_kill: unregister the client, then the origin. */
  predicate CanClose(st: State, p: Ptr) {
    p in st.conns && CanUnregister(st, st.conns[p].clientFd) && st.fds[st.conns[p].clientFd] == p &&
    (st.conns[p].originFd.Some? ==>
       CanUnregister(Unregister(st, st.conns[p].clientFd), st.conns[p].originFd.value))
  }

  function CloseConn(st: State, p: Ptr): State
    requires CanClose(st, p)
  {
    var u := Unregister(st, st.conns[p].clientFd);
    if st.conns[p].originFd.Some? then Unregister(u, st.conns[p].originFd.value) else u
  }

  function SetArmed(st: State, p: Ptr, later: bool, armed: bool): State
    requires p in st.conns
  {
    var c := st.conns[p];
    st.(conns := st.conns[p := c.(armed := armed, stage := if later then Later else c.stage)])
  }

  /** socks5_new: the pool head if there is one, else fresh memory. */
  predicate CanAllocate(st: State, p: Ptr) {
    if st.pool == [] then p !in st.heap else p == st.pool[0]
  }

  function Allocate(st: State, p: Ptr, fd: int): State {
    st.(pool := if st.pool == [] then [] else st.pool[1..],
        heap := st.heap + {p},
        conns := st.conns[p := Conn(fd, None, 1, Negotiating, true, false, false, false, false, false, None)])
  }

  /** The unlocked first half of request_resolv_on_arrival, with its socks5_retain. */
  function BeginResolv(st: State, p: Ptr): State
    requires p in st.conns
  {
    var c := st.conns[p];
    st.(conns := st.conns[p := c.(resolving := true, armed := false, stage := Resolving, active := true,
                                  started := false, completed := false, failed := false,
                                  references := c.references + 1)],
        loop := ArrLock, job := Some(p))
  }

  function RemoveJob(jobs: seq<Ptr>, p: Ptr): seq<Ptr> {
    if jobs == [] then [] else if jobs[0] == p then jobs[1..] else [jobs[0]] + RemoveJob(jobs[1..], p)
  }

  /** After the resolver's result is taken: drop the job's reference, then try to connect. */
  function AfterResolv(st: State, p: Ptr): State
    requires CanRelease(st, p)
  {
    Release(st.(conns := st.conns[p := st.conns[p].(resolving := false)]), p)
  }

  // ----- critical sections -----

  /** Positions between pthread_mutex_lock and pthread_mutex_unlock of `dns_jobs_mutex`. */
  predicate WorkerHoldsD(w: WorkerPc) { w.PubIn? || w.FlagIn? }

  predicate LoopHoldsD(l: LoopPos) {
    l.ArrIn? || l.ArrFlagIn? || l.BlkIn? || l.BlkIn2? || l.WaitIn? || l.WaitIn2? || l.RetIn? || Retrying(l)
  }

  /** The same for `resolution_mutex`: selector_select, selector_notify_block, and all of
      handle_block_notifications with the handlers it calls. */
  predicate WorkerHoldsR(w: WorkerPc) { w.NtIn? }

  predicate LoopHoldsR(l: LoopPos) {
    l.SelIn? || l.ArrNtIn? || l.RetNtIn? || Notifying(l)
  }

  /** A lock after its thread `o` moves: taken, released, or left alone. */
  function Move(lock: Option<Owner>, o: Owner, before: bool, after: bool): Option<Owner> {
    if after then Some(o) else if before then None else lock
  }

  predicate Arriving(l: LoopPos) {
    l.ArrLock? || l.ArrIn? || l.ArrAlloc? || l.ArrNtLock? || l.ArrNtIn? || l.ArrKill? || l.ArrFlagLock? || l.ArrFlagIn?
  }

  predicate Blocking(l: LoopPos) {
    l.BlkLock? || l.BlkIn? || l.BlkJoin? || l.BlkLock2? || l.BlkIn2?
  }

  predicate Retrying(l: LoopPos) { l.RetAlloc? || l.RetNtLock? || l.RetNtIn? || l.RetKill? }

  predicate Waiting(l: LoopPos) { l.WaitJoin? || l.WaitLock2? || l.WaitIn2? }

  /** Inside handle_block_notifications, with its list partly processed. */
  predicate Notifying(l: LoopPos) { l.Hbn? || Blocking(l) || l.BlkConnect? }

  /** Positions at which the loop dereferences the struct of its current job. */
  predicate HasJob(l: LoopPos) { JobStep(l) || l.BlkConnect? || l.WaitRelease? }

  predicate JobStep(l: LoopPos) { Arriving(l) || Blocking(l) || Retrying(l) || Waiting(l) }

  // ----- resolver threads (request_resolv_thread, dns_job_notify) -----

  /** Where a resolver thread goes next; `ok` is malloc's answer. */
  function WorkerGoto(w: WorkerPc, ok: bool, threadSet: bool): WorkerPc {
    match w
    case Resolve => PubLock
    case PubLock => PubIn
    case PubIn => NtAlloc
    case NtAlloc => if ok then NtLock else FlagLock(true)
    case NtLock => NtIn
    case NtIn => if threadSet then NtKill else FlagLock(true)
    case NtKill => FlagLock(false)
    case FlagLock(f) => FlagIn(f)
    case FlagIn(_) => Exited
    case Exited => Exited
  }

  /** What the step writes into the struct. */
  function WorkerConn(w: WorkerPc, c: Conn): Conn {
    match w
    case PubIn => c.(completed := true)
    case FlagIn(f) => if c.active then c.(failed := f) else c
    case _ => c
  }

  predicate WorkerEnabled(st: State, p: Ptr) {
    p in st.conns && st.conns[p].thread.Some? && !st.conns[p].thread.value.Exited? &&
    var w := st.conns[p].thread.value;
    (w.PubLock? || w.FlagLock? ==> st.dLock.None?) && (w.NtLock? ==> st.rLock.None?)
  }

  function WorkerNext(st: State, p: Ptr, ok: bool): State
    requires WorkerEnabled(st, p)
  {
    var c := st.conns[p];
    var w := c.thread.value;
    var t := WorkerGoto(w, ok, st.threadSet);
    st.(conns := st.conns[p := WorkerConn(w, c).(thread := Some(t))],
        dLock := Move(st.dLock, Worker(p), WorkerHoldsD(w), WorkerHoldsD(t)),
        rLock := Move(st.rLock, Worker(p), WorkerHoldsR(w), WorkerHoldsR(t)),
        queue := if t.NtKill? then [c.clientFd] + st.queue else st.queue,
        signal := st.signal || w.NtKill?)
  }

  // ----- the event loop, on one connection's job -----

  /** request_resolv_on_arrival from its lock on, with dns_job_notify if there is no thread;
      request_resolv_on_block_ready up to the retirement of the job;
      selector_notify_block as request_resolv_retry_notifications calls it;
      and the body of request_resolv_wait_all. */
  function LoopGoto(l: LoopPos, c: Conn, ok: bool, threadSet: bool): LoopPos {
    match l
    case ArrLock => ArrIn
    case ArrIn => if ok then Iterate else ArrAlloc
    case ArrAlloc => if ok then ArrNtLock else ArrFlagLock(true)
    case ArrNtLock => ArrNtIn
    case ArrNtIn => if threadSet then ArrKill else ArrFlagLock(true)
    case ArrKill => ArrFlagLock(false)
    case ArrFlagLock(f) => ArrFlagIn(f)
    case ArrFlagIn(_) => Iterate
    case BlkLock => BlkIn
    case BlkIn => if !c.active || !c.completed then Hbn else if c.started then BlkJoin else BlkLock2
    case BlkJoin => BlkLock2
    case BlkLock2 => BlkIn2
    case BlkIn2 => BlkConnect
    case RetAlloc => if ok then RetNtLock else RetIn
    case RetNtLock => RetNtIn
    case RetNtIn => if threadSet then RetKill else RetIn
    case RetKill => RetIn
    case WaitJoin => WaitLock2
    case WaitLock2 => WaitIn2
    case WaitIn2 => WaitRelease
    case _ => l
  }

  function LoopConn(l: LoopPos, c: Conn, ok: bool, threadSet: bool): Conn {
    match l
    case ArrIn => if ok then c.(started := true, thread := Some(Resolve)) else c.(completed := true)
    case ArrFlagIn(f) => if c.active then c.(failed := f) else c
    case BlkJoin => c.(thread := None)
    case WaitJoin => c.(thread := None)
    case BlkIn2 => c.(active := false, started := false, completed := false, failed := false)
    case WaitIn2 => c.(active := false, started := false, completed := false, failed := false)
    case RetAlloc => if ok then c else c.(failed := true)
    case RetNtIn => if threadSet then c else c.(failed := true)
    case RetKill => c.(failed := false)
    case _ => c
  }

  function LoopJobs(l: LoopPos, p: Ptr, jobs: seq<Ptr>): seq<Ptr> {
    if l.ArrIn? then [p] + jobs else if l.BlkIn2? || l.WaitIn2? then RemoveJob(jobs, p) else jobs
  }

  function JobNext(st: State, p: Ptr, ok: bool): State
    requires JobStep(st.loop) && p in st.conns
  {
    var c := st.conns[p];
    var l := st.loop;
    var t := LoopGoto(l, c, ok, st.threadSet);
    st.(conns := st.conns[p := LoopConn(l, c, ok, st.threadSet)],
        loop := t,
        job := if HasJob(t) then st.job else None,
        dLock := Move(st.dLock, Loop, LoopHoldsD(l), LoopHoldsD(t)),
        rLock := Move(st.rLock, Loop, LoopHoldsR(l), LoopHoldsR(t)),
        jobs := LoopJobs(l, p, st.jobs),
        queue := if t.ArrKill? || t.RetKill? then [c.clientFd] + st.queue else st.queue,
        signal := st.signal || l.ArrKill? || l.RetKill?)
  }

  // ----- the event loop, between jobs -----

  /** A completed job whose notification could not be enqueued. */
  predicate Flagged(st: State, p: Ptr) {
    p in st.conns && st.conns[p].completed && st.conns[p].failed
  }

  /** selector_select, handle_block_notifications, the retry and wait_all loops. */
  function IdleGoto(st: State): LoopPos {
    match st.loop
    case SelLock => SelIn
    case SelIn => Parked
    case HbnLock => Hbn
    case Hbn => if st.rest == [] then RetLock else if st.rest[0] in st.fds then BlkLock else Hbn
    case RetLock => RetIn
    case RetIn => if st.todo == [] then Housekeep else if Flagged(st, st.todo[0]) then RetAlloc else RetIn
    case Housekeep => SelLock
    case WaitLock => WaitIn
    case WaitIn =>
      if st.jobs == [] then Teardown
      else if st.jobs[0] in st.conns && st.conns[st.jobs[0]].started then WaitJoin else WaitLock2
    case l => l
  }

  /** The job taken up, if any. */
  function IdleJob(st: State): Option<Ptr> {
    if st.loop.Hbn? && st.rest != [] && st.rest[0] in st.fds then Some(st.fds[st.rest[0]])
    else if st.loop.RetIn? && st.todo != [] && Flagged(st, st.todo[0]) then Some(st.todo[0])
    else if st.loop.WaitIn? && st.jobs != [] then Some(st.jobs[0])
    else None
  }

  function IdleNext(st: State): State {
    var l, t := st.loop, IdleGoto(st);
    st.(loop := t,
        job := IdleJob(st),
        dLock := Move(st.dLock, Loop, LoopHoldsD(l), LoopHoldsD(t)),
        rLock := Move(st.rLock, Loop, LoopHoldsR(l), LoopHoldsR(t)),
        threadSet := st.threadSet || l.SelIn?,
        queue := if t.RetLock? then [] else st.queue,
        rest := if l.HbnLock? then st.queue else if l.Hbn? && st.rest != [] then st.rest[1..] else st.rest,
        todo := if l.RetLock? then st.jobs else if l.RetIn? && st.todo != [] then st.todo[1..] else st.todo)
  }

  /** The joined thread has finished. */
  predicate Joinable(st: State) {
    st.job.Some? && st.job.value in st.conns && st.conns[st.job.value].thread == Some(Exited)
  }

  predicate LoopEnabled(st: State) {
    var l := st.loop;
    && !l.Parked? && !l.Iterate? && !l.BlkConnect? && !l.Teardown? && !l.Halted?
    && (l.BlkJoin? || l.WaitJoin? ==> Joinable(st))
    && (l.SelLock? || l.HbnLock? || l.ArrNtLock? || l.RetNtLock? ==> st.rLock.None?)
    && (l.ArrLock? || l.ArrFlagLock? || l.BlkLock? || l.BlkLock2? || l.RetLock? || l.WaitLock? || l.WaitLock2? ==>
          st.dLock.None?)
  }

  /** What the C asserts, and the memory it touches, at the loop's next step. */
  predicate LoopSafe(st: State) {
    && (HasJob(st.loop) ==> st.job.Some? && st.job.value in st.conns)
    // stm_handler_block aborts unless the connection is in REQUEST_RESOLV
    && (st.loop.BlkLock? ==> st.conns[st.job.value].stage.Resolving?)
    && (st.loop.BlkIn2? || st.loop.WaitIn2? ==> st.job.value in st.jobs)
    && (st.loop.WaitRelease? ==> CanRelease(st, st.job.value))
    && (st.loop.RetIn? && st.todo != [] ==> st.todo[0] in st.conns)
    && (st.loop.WaitIn? && st.jobs != [] ==> st.jobs[0] in st.conns)
  }

  function LoopNext(st: State, ok: bool): State
    requires LoopEnabled(st) && LoopSafe(st)
  {
    if JobStep(st.loop) then JobNext(st, st.job.value, ok)
    else if st.loop.WaitRelease? then AfterResolv(st, st.job.value).(loop := WaitLock, job := None)
    else IdleNext(st)
  }

  // ----- handlers of read and write events -----

  predicate OutcomeEnabled(st: State, p: Ptr, out: Outcome) {
    p in st.conns &&
    match out {
      case Keep(later, _) => st.conns[p].stage == Later ==> later
      case Drop(_) => st.conns[p].originFd.Some?
      case Open(fd, _) => st.conns[p].originFd.None? && fd !in st.fds
      case Swap(fd, _) => st.conns[p].originFd.Some? && fd !in st.fds
      case Close => true
      case EnterResolv => st.conns[p].stage == Negotiating
    }
  }

  predicate OutcomeSafe(st: State, p: Ptr, out: Outcome) {
    p in st.conns &&
    match out {
      case Drop(_) => CanDrop(st, p)
      case Swap(_, _) => CanDrop(st, p)
      case Close => CanClose(st, p)
      // assert(!s->dns_active), and socks5_retain's assert(references > 0)
      case EnterResolv => !st.conns[p].active && st.conns[p].references > 0
      case Open(_, _) => st.conns[p].references > 0
      case _ => true
    }
  }

  function ApplyOutcome(st: State, p: Ptr, out: Outcome): State
    requires OutcomeEnabled(st, p, out) && OutcomeSafe(st, p, out)
  {
    match out
    case Keep(later, armed) => SetArmed(st, p, later, armed)
    case Drop(armed) => SetArmed(DropOrigin(st, p), p, true, armed)
    case Open(fd, armed) => SetArmed(OpenOrigin(st, p, fd), p, true, armed)
    case Swap(fd, armed) => SetArmed(OpenOrigin(DropOrigin(st, p), p, fd), p, true, armed)
    case Close => CloseConn(st, p)
    case EnterResolv => BeginResolv(st, p)
  }

  // ----- the whole system -----

  predicate Enabled(st: State, a: Action) {
    match a
    case WorkerStep(p, _) => WorkerEnabled(st, p)
    case LoopStep(_) => LoopEnabled(st)
    case Wake(_, _) => st.loop.Parked?
    case SelectFails => st.loop.Parked?
    case Accept(fd, p, _) => st.loop.Iterate? && fd !in st.fds && CanAllocate(st, p)
    // handle_iteration calls a handler only for an interest that is armed now
    case Io(p, out) => st.loop.Iterate? && p in st.conns && st.conns[p].armed && OutcomeEnabled(st, p, out)
    case IterateDone => st.loop.Iterate?
    case Connect(p, out) =>
      st.loop.BlkConnect? && st.job == Some(p) && (out.Keep? || out.Open?) &&
      (out.Keep? ==> out.later) && (out.Open? ==> out.fd !in st.fds)
    case Sweep(p) => st.loop.Housekeep? && p in st.conns && !st.conns[p].resolving
    case Shutdown => st.loop.Housekeep?
    case TearFd(fd) => st.loop.Teardown? && fd in st.fds
    case TearPool => st.loop.Teardown? && st.fds == map[] && st.pool != []
    case TearEnd => st.loop.Teardown? && st.fds == map[] && st.pool == []
  }

  predicate Safe(st: State, a: Action) {
    match a
    case LoopStep(_) => LoopSafe(st)
    case Io(p, out) => OutcomeSafe(st, p, out)
    case Connect(p, out) =>
      // the handler keeps using the struct after releasing the job's reference
      CanRelease(st, p) && st.conns[p].references > 1 &&
      OutcomeEnabled(AfterResolv(st, p), p, out) && OutcomeSafe(AfterResolv(st, p), p, out)
    case Sweep(p) => CanClose(st, p)
    case TearFd(fd) => CanUnregister(st, fd)
    case TearPool => st.pool != [] && st.pool[0] in st.heap
    case TearEnd => st.rLock.None? && st.dLock.None?
    case _ => true
  }

  function Apply(st: State, a: Action): State
    requires Enabled(st, a) && Safe(st, a)
  {
    match a
    case WorkerStep(p, ok) => WorkerNext(st, p, ok)
    case LoopStep(ok) => LoopNext(st, ok)
    case Wake(readiness, clear) =>
      st.(signal := st.signal && !clear, loop := if readiness then Iterate else HbnLock)
    case SelectFails => st.(loop := WaitLock)
    case Accept(fd, p, registered) =>
      var n := Allocate(st, p, fd);
      if registered then n.(fds := n.fds[fd := p]) else Release(n, p)
    case Io(p, out) => ApplyOutcome(st, p, out)
    case IterateDone => st.(loop := HbnLock)
    case Connect(p, out) => ApplyOutcome(AfterResolv(st, p), p, out).(loop := Hbn, job := None)
    case Sweep(p) => CloseConn(st, p)
    case Shutdown => st.(loop := WaitLock)
    case TearFd(fd) => Unregister(st, fd)
    case TearPool => st.(pool := st.pool[1..], heap := st.heap - {st.pool[0]})
    case TearEnd => st.(queue := [], loop := Halted)
  }

  /** A run: states linked by enabled actions that break none of the C's assertions.  That
      every enabled action of a reachable state is safe is proved, not assumed. */
  predicate IsRun(states: seq<State>, actions: seq<Action>) {
    && |states| == |actions| + 1
    && states[0] == Init
    && forall i {:trigger actions[i]} :: 0 <= i < |actions| ==>
         Enabled(states[i], actions[i]) && Safe(states[i], actions[i]) &&
         states[i + 1] == Apply(states[i], actions[i])
  }
}
