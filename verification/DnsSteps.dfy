/**
  Every step of the DNS job protocol is safe and keeps the invariant.
*/
module DnsSteps {
  import opened Options
  import opened DnsModel
  import opened DnsInvariant

  // ----- frames -----

  predicate Concerns(lock: Option<Owner>, p: Ptr) {
    lock.None? || lock.value.Loop? || lock.value.p == p
  }

  /** From `st` to `n` nothing changes for the connections other than `p`. */
  ghost predicate OnlyTouches(st: State, n: State, p: Ptr) {
    && p in st.conns && p in n.conns
    && n.conns == st.conns[p := n.conns[p]]
    && n.conns[p].clientFd == st.conns[p].clientFd
    && n.fds == st.fds
    && (forall q :: q != p ==> (q in n.jobs <==> q in st.jobs))
    && ((n.job == st.job && n.loop == st.loop) ||
        ((st.job == None || st.job == Some(p)) && (n.job == None || n.job == Some(p))))
    && (n.dLock == st.dLock || (Concerns(n.dLock, p) && Concerns(st.dLock, p)))
    && (n.rLock == st.rLock || (Concerns(n.rLock, p) && Concerns(st.rLock, p)))
    && (Closing(st.loop) <==> Closing(n.loop)) && !Torn(st.loop) && !Torn(n.loop)
    && (Pending(n) == Pending(st) || Pending(n) == [st.conns[p].clientFd] + Pending(st) ||
        Pending(st) == [st.conns[p].clientFd] + Pending(n))
  }

  lemma OthersUnchanged(st: State, n: State, p: Ptr)
    requires EachConn(st) && OnlyTouches(st, n, p)
    requires ViewOk(ViewOf(n, p))
    ensures EachConn(n)
  {
    forall q | q in n.conns
      ensures ViewOk(ViewOf(n, q))
    {
      if q != p {
        assert ViewOk(ViewOf(st, p)) && ViewOk(ViewOf(st, q));
        assert ViewOf(n, q) == ViewOf(st, q);
      }
    }
  }

  lemma RemoveJobExact(jobs: seq<Ptr>, p: Ptr)
    requires NoDup(jobs)
    ensures NoDup(RemoveJob(jobs, p))
    ensures forall q :: q in RemoveJob(jobs, p) <==> q in jobs && q != p
  {
    if jobs != [] {
      var r := RemoveJob(jobs[1..], p);
      assert jobs == [jobs[0]] + jobs[1..];
      RemoveJobExact(jobs[1..], p);
      assert jobs[0] !in jobs[1..];
      if jobs[0] != p {
        assert forall i :: 0 <= i < |r| ==> r[i] in r;
      }
    }
  }

  lemma KeepsTable(st: State, n: State, p: Ptr)
    requires Table(st) && OnlyTouches(st, n, p) && RefsOk(ViewOf(st, p))
    requires n.conns[p].originFd == st.conns[p].originFd
    ensures Table(n)
  {
    forall fd | fd in Pending(n) && !Closing(n.loop)
      ensures fd in n.fds && n.fds[fd] in n.conns && n.conns[n.fds[fd]].clientFd == fd
    {
      assert fd in Pending(st) || fd == st.conns[p].clientFd;
    }
  }

  /** What a step that respects the frame does to the view of `p` itself. */
  lemma ViewAfter(st: State, n: State, p: Ptr)
    requires OnlyTouches(st, n, p)
    requires n.conns[p].originFd == st.conns[p].originFd
    ensures ViewOf(n, p) == ViewOf(st, p).(
      c := n.conns[p], at := if n.job == Some(p) then n.loop else Parked, listed := p in n.jobs,
      queued := multiset(Pending(n))[st.conns[p].clientFd],
      holdsD := n.dLock == Some(Worker(p)), holdsR := n.rLock == Some(Worker(p)))
  {
  }

  // ----- resolver threads -----

  /** How a resolver thread's step looks to its connection. */
  function WorkerView(v: View, ok: bool): View
    requires v.c.thread.Some?
  {
    var w := v.c.thread.value;
    var t := WorkerGoto(w, ok, true);
    v.(c := WorkerConn(w, v.c).(thread := Some(t)),
       holdsD := WorkerHoldsD(t), holdsR := WorkerHoldsR(t),
       queued := if t.NtKill? then v.queued + 1 else v.queued)
  }

  lemma WorkerViewJob(v: View, ok: bool)
    requires v.c.thread.Some? && !v.c.thread.value.Exited? && ViewOk(v)
    ensures JobOk(WorkerView(v, ok)) && LoopJobOk(WorkerView(v, ok)) && LocksOk(WorkerView(v, ok))
  {
  }

  lemma WorkerViewToken(v: View, ok: bool)
    requires v.c.thread.Some? && !v.c.thread.value.Exited? && ViewOk(v)
    ensures TokenOk(WorkerView(v, ok))
  {
  }

  lemma WorkerViewOk(v: View, ok: bool)
    requires v.c.thread.Some? && !v.c.thread.value.Exited? && ViewOk(v)
    ensures ViewOk(WorkerView(v, ok))
  {
    WorkerViewJob(v, ok);
    WorkerViewToken(v, ok);
  }

  lemma WorkerFrame(st: State, n: State, p: Ptr, ok: bool)
    requires WorkerEnabled(st, p) && n == WorkerNext(st, p, ok)
    requires LocksOk(ViewOf(st, p))
    requires !Torn(st.loop) && (st.conns[p].thread.value.NtIn? ==> !Notifying(st.loop))
    ensures OnlyTouches(st, n, p)
  {
    if st.conns[p].thread.value.NtIn? && st.threadSet {
      assert Pending(n) == [st.conns[p].clientFd] + Pending(st);
    } else {
      assert n.queue == st.queue;
    }
    hide Pending, Closing, Torn;
    return;
  }

  lemma WorkerViewStep(st: State, n: State, p: Ptr, ok: bool)
    requires WorkerEnabled(st, p) && n == WorkerNext(st, p, ok)
    requires LocksOk(ViewOf(st, p)) && st.threadSet && !Torn(st.loop)
    requires st.conns[p].thread.value.NtIn? ==> !Notifying(st.loop)
    ensures p in n.conns && ViewOf(n, p) == WorkerView(ViewOf(st, p), ok)
  {
    WorkerFrame(st, n, p, ok);
    ViewAfter(st, n, p);
  }

  lemma WorkerMutexes(st: State, n: State, p: Ptr, ok: bool)
    requires WorkerEnabled(st, p) && n == WorkerNext(st, p, ok)
    requires LocksOk(ViewOf(st, p)) && Mutexes(st)
    ensures Mutexes(n)
  {
  }

  lemma WorkerLists(st: State, n: State, p: Ptr, ok: bool)
    requires WorkerEnabled(st, p) && n == WorkerNext(st, p, ok)
    requires Memory(st) && Lists(st)
    ensures Memory(n) && Lists(n)
  {
  }

  lemma WorkerWakeUp(st: State, n: State, p: Ptr, ok: bool)
    requires WorkerEnabled(st, p) && n == WorkerNext(st, p, ok)
    requires WakeUp(st)
    ensures WakeUp(n)
  {
    if st.conns[p].thread.value.NtIn? {
      assert n.conns[p].thread == Some(NtKill) || n.queue == st.queue;
    }
    if SomeoneWillSignal(st) && !st.loop.RetKill? {
      var q :| q in st.conns && st.conns[q].thread == Some(NtKill);
      assert q == p || (q in n.conns && n.conns[q].thread == Some(NtKill));
    }
  }

  lemma WorkerPreserves(st: State, p: Ptr, ok: bool)
    requires Inv(st) && WorkerEnabled(st, p)
    ensures Inv(WorkerNext(st, p, ok))
  {
    var n := WorkerNext(st, p, ok);
    assert ViewOk(ViewOf(st, p));
    WorkerFrame(st, n, p, ok);
    WorkerViewStep(st, n, p, ok);
    WorkerViewOk(ViewOf(st, p), ok);
    OthersUnchanged(st, n, p);
    WorkerMutexes(st, n, p, ok);
    KeepsTable(st, n, p);
    WorkerLists(st, n, p, ok);
    WorkerWakeUp(st, n, p, ok);
  }

  // ----- the event loop, on one connection's job -----

  /** How the loop's step looks to the connection whose job it is handling. */
  function JobView(v: View, ok: bool): View {
    var t := LoopGoto(v.at, v.c, ok, true);
    v.(c := LoopConn(v.at, v.c, ok, true),
       at := if HasJob(t) then t else Parked,
       listed := if v.at.ArrIn? then true else if v.at.BlkIn2? || v.at.WaitIn2? then false else v.listed,
       queued := if t.ArrKill? || t.RetKill? then v.queued + 1 else v.queued)
  }

  lemma ArriveViewOk(v: View, ok: bool)
    requires Arriving(v.at) && ViewOk(v) && !v.closing && !v.torn
    ensures ViewOk(JobView(v, ok))
  {
  }

  lemma BlockViewOk(v: View, ok: bool)
    requires Blocking(v.at) && ViewOk(v) && !v.closing && !v.torn
    requires v.at.BlkJoin? ==> v.c.thread == Some(Exited)
    ensures v.at.BlkIn? ==> v.c.active && v.c.completed
    ensures ViewOk(JobView(v, ok))
  {
  }

  lemma RetryViewOk(v: View, ok: bool)
    requires Retrying(v.at) && ViewOk(v) && !v.closing && !v.torn
    ensures ViewOk(JobView(v, ok))
  {
  }

  lemma WaitViewOk(v: View, ok: bool)
    requires Waiting(v.at) && ViewOk(v) && v.closing && !v.torn
    requires v.at.WaitJoin? ==> v.c.thread == Some(Exited)
    ensures ViewOk(JobView(v, ok))
  {
  }

  /** The loop's moves keep it inside or outside the shutdown, and enter a critical section
      only through a position at which LoopEnabled demands a free mutex. */
  lemma GotoFacts(l: LoopPos, c: Conn, ok: bool)
    requires JobStep(l)
    requires l.BlkIn? ==> c.active && c.completed
    ensures var t := LoopGoto(l, c, ok, true);
      && (Closing(t) <==> Closing(l)) && !Torn(t)
      && (LoopHoldsD(t) && !LoopHoldsD(l) ==> l.ArrLock? || l.ArrFlagLock? || l.BlkLock? || l.BlkLock2? || l.WaitLock2?)
      && (LoopHoldsR(t) && !LoopHoldsR(l) ==> l.ArrNtLock? || l.RetNtLock?)
      && (t.ArrKill? <==> l.ArrNtIn?) && (t.RetKill? <==> l.RetNtIn?)
      && (Notifying(t) <==> Notifying(l))
  {
  }

  /** A step on the job of `p`, with the facts about positions taken from GotoFacts. */
  lemma JobStepFrame(st: State, n: State, p: Ptr, ok: bool)
    requires JobStep(st.loop) && st.job == Some(p) && p in st.conns && n == JobNext(st, p, ok)
    requires LoopEnabled(st) && Mutexes(st) && st.threadSet && NoDup(st.jobs)
    requires st.loop.BlkIn? ==> st.conns[p].active && st.conns[p].completed
    ensures OnlyTouches(st, n, p)
    ensures Concerns(n.dLock, p) || n.dLock == st.dLock
  {
    GotoFacts(st.loop, st.conns[p], ok);
    RemoveJobExact(st.jobs, p);
  }

  lemma JobStepListed(st: State, n: State, p: Ptr, ok: bool)
    requires JobStep(st.loop) && st.job == Some(p) && p in st.conns && n == JobNext(st, p, ok) && NoDup(st.jobs)
    ensures (p in n.jobs) ==
      (if st.loop.ArrIn? then true else if st.loop.BlkIn2? || st.loop.WaitIn2? then false else p in st.jobs)
  {
    RemoveJobExact(st.jobs, p);
  }

  lemma JobStepQueued(st: State, n: State, p: Ptr, ok: bool)
    requires JobStep(st.loop) && st.job == Some(p) && p in st.conns && n == JobNext(st, p, ok) && st.threadSet
    requires st.loop.BlkIn? ==> st.conns[p].active && st.conns[p].completed
    ensures var fd := st.conns[p].clientFd;
      multiset(Pending(n))[fd] == multiset(Pending(st))[fd] + Count(st.loop.ArrNtIn? || st.loop.RetNtIn?)
  {
    GotoFacts(st.loop, st.conns[p], ok);
    var fd := st.conns[p].clientFd;
    assert Pending(n) == if st.loop.ArrNtIn? || st.loop.RetNtIn? then [fd] + Pending(st) else Pending(st);
  }

  lemma JobStepLocks(st: State, n: State, p: Ptr, ok: bool)
    requires JobStep(st.loop) && st.job == Some(p) && p in st.conns && n == JobNext(st, p, ok)
    requires LoopEnabled(st) && Mutexes(st) && st.threadSet
    requires st.loop.BlkIn? ==> st.conns[p].active && st.conns[p].completed
    ensures n.dLock == Some(Worker(p)) <==> st.dLock == Some(Worker(p))
    ensures n.rLock == Some(Worker(p)) <==> st.rLock == Some(Worker(p))
  {
    GotoFacts(st.loop, st.conns[p], ok);
  }

  lemma JobStepView(st: State, n: State, p: Ptr, ok: bool)
    requires JobStep(st.loop) && st.job == Some(p) && p in st.conns && n == JobNext(st, p, ok)
    requires LoopEnabled(st) && Mutexes(st) && st.threadSet && NoDup(st.jobs)
    requires st.loop.BlkIn? ==> st.conns[p].active && st.conns[p].completed
    ensures p in n.conns && ViewOf(n, p) == JobView(ViewOf(st, p), ok)
  {
    JobStepFrame(st, n, p, ok);
    ViewAfter(st, n, p);
    JobStepListed(st, n, p, ok);
    JobStepQueued(st, n, p, ok);
    JobStepLocks(st, n, p, ok);
    JobViewParts(ViewOf(st, p), ViewOf(n, p), n.loop, ok);
  }

  /** JobView, field by field. */
  lemma JobViewParts(v: View, w: View, t: LoopPos, ok: bool)
    requires JobStep(v.at) && (v.at.BlkIn? ==> v.c.active && v.c.completed)
    requires t == LoopGoto(v.at, v.c, ok, true) && w.c == LoopConn(v.at, v.c, ok, true)
    requires w.at == if HasJob(t) then t else Parked
    requires w.listed == if v.at.ArrIn? then true else if v.at.BlkIn2? || v.at.WaitIn2? then false else v.listed
    requires w.queued == v.queued + Count(v.at.ArrNtIn? || v.at.RetNtIn?)
    requires v.(c := w.c, at := w.at, listed := w.listed, queued := w.queued) == w
    ensures w == JobView(v, ok)
  {
    GotoFacts(v.at, v.c, ok);
  }

  lemma JobViewOk(v: View, ok: bool)
    requires JobStep(v.at) && ViewOk(v) && (Closing(v.at) <==> v.closing) && !v.torn
    requires v.at.BlkJoin? || v.at.WaitJoin? ==> v.c.thread == Some(Exited)
    ensures v.at.BlkIn? ==> v.c.active && v.c.completed
    ensures ViewOk(JobView(v, ok))
  {
    if Arriving(v.at) {
      ArriveViewOk(v, ok);
    } else if Blocking(v.at) {
      BlockViewOk(v, ok);
    } else if Retrying(v.at) {
      RetryViewOk(v, ok);
    } else {
      WaitViewOk(v, ok);
    }
  }

  lemma JobMutexes(st: State, n: State, p: Ptr, ok: bool)
    requires JobStep(st.loop) && st.job == Some(p) && p in st.conns && n == JobNext(st, p, ok)
    requires LoopEnabled(st) && Mutexes(st)
    ensures Mutexes(n)
  {
  }

  lemma JobMemory(st: State, n: State, p: Ptr, ok: bool)
    requires JobStep(st.loop) && p in st.conns && n == JobNext(st, p, ok) && Memory(st)
    ensures Memory(n)
  {
  }

  lemma JobLists(st: State, n: State, p: Ptr, ok: bool)
    requires JobStep(st.loop) && st.job == Some(p) && p in st.conns && n == JobNext(st, p, ok)
    requires st.threadSet && Lists(st)
    requires st.loop.BlkIn? ==> st.conns[p].active && st.conns[p].completed
    requires st.loop.ArrIn? ==> p !in st.jobs
    ensures Lists(n)
  {
    GotoFacts(st.loop, st.conns[p], ok);
    RemoveJobExact(st.jobs, p);
  }

  lemma JobWakeUp(st: State, n: State, p: Ptr, ok: bool)
    requires JobStep(st.loop) && st.job == Some(p) && p in st.conns && n == JobNext(st, p, ok)
    requires st.threadSet && WakeUp(st)
    requires st.loop.BlkJoin? || st.loop.WaitJoin? ==> st.conns[p].thread == Some(Exited)
    requires st.loop.BlkIn? ==> st.conns[p].active && st.conns[p].completed
    ensures WakeUp(n)
  {
    GotoFacts(st.loop, st.conns[p], ok);
    if SomeoneWillSignal(st) && !st.loop.RetKill? {
      var q :| q in st.conns && st.conns[q].thread == Some(NtKill);
      assert q in n.conns;
      assert n.conns[q].thread == Some(NtKill) || st.loop.ArrIn?;
    }
  }

  /** What the step may rely on. */
  lemma JobStepReady(st: State, p: Ptr)
    requires Inv(st) && JobStep(st.loop) && LoopEnabled(st) && st.job == Some(p)
    ensures p in st.conns && ViewOk(ViewOf(st, p)) && LoopSafe(st) && st.threadSet
    ensures st.loop.BlkIn? ==> st.conns[p].active && st.conns[p].completed
    ensures st.loop.ArrIn? ==> p !in st.jobs
    ensures st.loop.BlkJoin? || st.loop.WaitJoin? ==> st.conns[p].thread == Some(Exited)
  {
    assert ViewOk(ViewOf(st, p));
    JobViewOk(ViewOf(st, p), true);
  }

  lemma JobStepViews(st: State, n: State, p: Ptr, ok: bool)
    requires JobStep(st.loop) && st.job == Some(p) && p in st.conns && n == JobNext(st, p, ok)
    requires LoopEnabled(st) && Mutexes(st) && st.threadSet && NoDup(st.jobs) && EachConn(st) && Table(st)
    requires st.loop.BlkIn? ==> st.conns[p].active && st.conns[p].completed
    requires st.loop.BlkJoin? || st.loop.WaitJoin? ==> st.conns[p].thread == Some(Exited)
    ensures EachConn(n) && Table(n)
  {
    assert ViewOk(ViewOf(st, p));
    JobViewOk(ViewOf(st, p), ok);
    JobStepFrame(st, n, p, ok);
    JobStepView(st, n, p, ok);
    OthersUnchanged(st, n, p);
    KeepsTable(st, n, p);
  }

  lemma JobStepPreserves(st: State, ok: bool)
    requires Inv(st) && JobStep(st.loop) && LoopEnabled(st)
    ensures LoopSafe(st) && Inv(LoopNext(st, ok))
  {
    var p := st.job.value;
    JobStepReady(st, p);
    var n := JobNext(st, p, ok);
    JobStepViews(st, n, p, ok);
    JobMutexes(st, n, p, ok);
    JobMemory(st, n, p, ok);
    JobLists(st, n, p, ok);
    JobWakeUp(st, n, p, ok);
  }
}
