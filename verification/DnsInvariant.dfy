/**
  The invariant of the DNS job protocol.  What concerns one connection is a predicate on its
  View, so that a step has to be checked for the connection it touches and framed for the rest.
*/
module DnsInvariant {
  import opened Options
  import opened DnsModel

  // ----- classes of program counters -----

  /** The server has left its main loop. */
  predicate Closing(l: LoopPos) {
    l.WaitLock? || l.WaitIn? || l.WaitJoin? || l.WaitLock2? || l.WaitIn2? || l.WaitRelease? || Torn(l)
  }

  predicate Torn(l: LoopPos) { l.Teardown? || l.Halted? }

  /** Loop positions from which pselect is entered without looking at the queue again. */
  predicate BeforeSelect(l: LoopPos) {
    l.SelLock? || l.SelIn? || l.Parked? || l.RetLock? || l.RetIn? || Retrying(l) || l.Housekeep?
  }

  /** The job is active but not yet on the list. */
  predicate Starting(l: LoopPos) { l.ArrLock? || l.ArrIn? }

  /** The loop's own notification after a failed pthread_create. */
  predicate SelfNotifying(l: LoopPos) {
    l.ArrAlloc? || l.ArrNtLock? || l.ArrNtIn? || l.ArrKill? || l.ArrFlagLock? || l.ArrFlagIn?
  }

  /** The loop has joined the job's thread, or found there was none. */
  predicate Joined(l: LoopPos) { l.BlkLock2? || l.BlkIn2? || l.WaitLock2? || l.WaitIn2? }

  /** The job is retired but its reference not yet released. */
  predicate Releasing(l: LoopPos) { l.BlkConnect? || l.WaitRelease? }

  predicate Unpublished(w: WorkerPc) { w.Resolve? || w.PubLock? || w.PubIn? }

  // ----- one connection -----

  /** Everything the protocol knows about one connection.  `at` is the loop's position if it is
      handling this connection's job, and Parked otherwise. */
  datatype View = View(c: Conn, at: LoopPos, listed: bool, queued: nat,
                       client: bool, origin: bool, holdsD: bool, holdsR: bool, closing: bool, torn: bool)

  /** The part of the notification list that no handler has taken yet. */
  function Pending(st: State): seq<int> {
    if Notifying(st.loop) then st.rest else st.queue
  }

  predicate Registered(st: State, fd: int, p: Ptr) {
    fd in st.fds && st.fds[fd] == p
  }

  function ViewOf(st: State, p: Ptr): View
    requires p in st.conns
  {
    var c := st.conns[p];
    View(c,
         if st.job == Some(p) then st.loop else Parked,
         p in st.jobs,
         multiset(Pending(st))[c.clientFd],
         Registered(st, c.clientFd, p),
         c.originFd.Some? && Registered(st, c.originFd.value, p),
         st.dLock == Some(Worker(p)), st.rLock == Some(Worker(p)),
         Closing(st.loop), Torn(st.loop))
  }

  function Count(b: bool): nat { if b then 1 else 0 }

  /** A thread at this program counter still owes the notification. */
  predicate WorkerOwes(w: WorkerPc) {
    Unpublished(w) || w.NtAlloc? || w.NtLock? || w.NtIn? || w == FlagLock(true) || w == FlagIn(true)
  }

  /** The loop owes the notification: it is starting the job, or pthread_create failed. */
  predicate LoopOwes(at: LoopPos) {
    Starting(at) || at.ArrAlloc? || at.ArrNtLock? || at.ArrNtIn? || at == ArrFlagLock(true) || at == ArrFlagIn(true)
  }

  /** How many places hold the completion of a job: a thread that owes the notification, the
      loop owing or consuming it, the retry flag (unless its retry has just enqueued it), and
      the notification list. */
  function Tokens(v: View): nat {
    Count(v.c.thread.Some? && WorkerOwes(v.c.thread.value)) + Count(LoopOwes(v.at)) + Count(Blocking(v.at)) +
    Count(v.c.failed && !v.at.RetKill?) + v.queued
  }

  /** Between loop steps: one reference per registered descriptor and one for the DNS job. */
  predicate RefsOk(v: View) {
    && v.c.references == Count(v.client) + Count(v.origin) + Count(v.c.active || Releasing(v.at))
    && v.c.references > 0
    && (!v.torn ==> v.client && (v.c.originFd.Some? ==> v.origin))
    && (v.c.originFd.Some? ==> v.c.originFd.value != v.c.clientFd)
    && (v.torn ==> !v.c.active)
  }

  predicate StageOk(v: View) {
    && (v.c.active ==> v.c.stage.Resolving? && v.c.resolving)
    && (v.c.stage.Resolving? ==> !v.c.armed && v.c.originFd.None?)
    && (v.c.stage.Negotiating? ==> v.c.originFd.None?)
    && (!v.closing && (v.c.stage.Resolving? || v.c.resolving) ==> v.c.active || v.at.BlkConnect?)
    && (Releasing(v.at) ==> v.c.stage.Resolving?)
  }

  predicate JobOk(v: View) {
    && (v.listed <==> v.c.active && !Starting(v.at))
    && (v.c.thread.Some? ==> v.c.active && v.c.started && (v.c.completed <==> !Unpublished(v.c.thread.value)))
    && (v.c.active && v.c.thread.None? ==> (v.c.completed <==> !Starting(v.at)))
    && (v.c.active && v.c.started ==> v.c.thread.Some? || Joined(v.at))
    && (v.c.failed ==> v.c.active && (v.c.thread.Some? ==> v.c.thread.value.Exited?))
  }

  /** What the loop relies on about the job it is handling. */
  predicate LoopJobOk(v: View) {
    && (HasJob(v.at) ==> (v.c.active <==> !Releasing(v.at)))
    && (Starting(v.at) || SelfNotifying(v.at) ==> !v.c.started && !v.c.failed)
    && (v.at.BlkJoin? || v.at.WaitJoin? ==> v.c.started)
    && (v.at.BlkJoin? || v.at.BlkLock2? || v.at.BlkIn2? ==> v.c.completed)
    && (Joined(v.at) ==> v.c.thread.None?)
    && (Retrying(v.at) ==> v.c.failed)
  }

  /** The connection's thread holds exactly the mutex its position says. */
  predicate LocksOk(v: View) {
    && (v.holdsD <==> v.c.thread.Some? && WorkerHoldsD(v.c.thread.value))
    && (v.holdsR <==> v.c.thread.Some? && WorkerHoldsR(v.c.thread.value))
  }

  predicate TokenOk(v: View) {
    !v.closing ==> if v.c.active then Tokens(v) == 1 else v.queued == 0
  }

  predicate ViewOk(v: View) {
    RefsOk(v) && StageOk(v) && JobOk(v) && LoopJobOk(v) && LocksOk(v) && TokenOk(v)
  }

  ghost predicate EachConn(st: State) {
    forall p {:trigger ViewOf(st, p)} :: p in st.conns ==> ViewOk(ViewOf(st, p))
  }

  // ----- the shared structures -----

  ghost predicate Mutexes(st: State) {
    && (st.dLock == Some(Loop) <==> LoopHoldsD(st.loop))
    && (st.rLock == Some(Loop) <==> LoopHoldsR(st.loop))
    && (st.dLock.Some? && st.dLock.value.Worker? ==> st.dLock.value.p in st.conns)
    && (st.rLock.Some? && st.rLock.value.Worker? ==> st.rLock.value.p in st.conns)
  }

  predicate NoDup(s: seq<Ptr>) {
    forall i, j :: 0 <= i < j < |s| ==> s[i] != s[j]
  }

  ghost predicate Table(st: State) {
    && (forall fd :: fd in st.fds ==>
          && st.fds[fd] in st.conns
          && (fd == st.conns[st.fds[fd]].clientFd || st.conns[st.fds[fd]].originFd == Some(fd)))
    && (!Closing(st.loop) ==> forall fd :: fd in Pending(st) ==>
          fd in st.fds && st.fds[fd] in st.conns && st.conns[st.fds[fd]].clientFd == fd)
  }

  ghost predicate Memory(st: State) {
    && (forall p :: p in st.heap <==> p in st.conns || p in st.pool)
    && (forall p :: p in st.pool ==> p !in st.conns)
    && NoDup(st.pool)
    && |st.pool| <= POOL_MAX
  }

  ghost predicate Lists(st: State) {
    && (forall p :: p in st.jobs ==> p in st.conns)
    && NoDup(st.jobs)
    && (HasJob(st.loop) <==> st.job.Some?)
    && (st.job.Some? ==> st.job.value in st.conns)
    && (st.loop.RetIn? || Retrying(st.loop) ==> forall p :: p in st.todo ==> p in st.jobs)
    && (Torn(st.loop) ==> st.jobs == [])
    && (st.loop.Halted? ==> st.fds == map[] && st.pool == [])
  }

  ghost predicate SomeoneWillSignal(st: State) {
    st.loop.RetKill? || exists p :: p in st.conns && st.conns[p].thread == Some(NtKill)
  }

  ghost predicate WakeUp(st: State) {
    && (BeforeSelect(st.loop) && st.queue != [] ==> st.signal || SomeoneWillSignal(st))
    && (st.threadSet || st.loop.SelLock? || st.loop.SelIn?)
    && (!st.threadSet ==> st.conns == map[])
  }

  ghost predicate Inv(st: State) {
    EachConn(st) && Mutexes(st) && Table(st) && Memory(st) && Lists(st) && WakeUp(st)
  }

  lemma InitInv()
    ensures Inv(Init)
  {
  }
}
