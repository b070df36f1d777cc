/**
  The remaining steps of the DNS job protocol: the event loop between jobs, and the handlers
  that open, close and re-register connections.
*/
module DnsLoop {
  import opened Options
  import opened DnsModel
  import opened DnsInvariant
  import opened DnsSteps

  // ----- moves that no connection notices -----

  /** The pending notifications and every connection look the same in `n` as in `st`. */
  ghost predicate Quiet(st: State, n: State) {
    && n.conns == st.conns && n.fds == st.fds && n.jobs == st.jobs
    && n.pool == st.pool && n.heap == st.heap
    && n.job == st.job == None
    && (n.dLock == st.dLock || (Concerns0(n.dLock) && Concerns0(st.dLock)))
    && (n.rLock == st.rLock || (Concerns0(n.rLock) && Concerns0(st.rLock)))
    && (Closing(st.loop) <==> Closing(n.loop)) && !Torn(st.loop) && !Torn(n.loop)
    && Pending(n) == Pending(st)
  }

  predicate Concerns0(lock: Option<Owner>) { lock.None? || lock.value.Loop? }

  lemma QuietKeeps(st: State, n: State)
    requires EachConn(st) && Table(st) && Memory(st) && Quiet(st, n)
    ensures EachConn(n) && Table(n) && Memory(n)
  {
    forall q | q in n.conns
      ensures ViewOk(ViewOf(n, q))
    {
      assert ViewOk(ViewOf(st, q));
      assert ViewOf(n, q) == ViewOf(st, q);
    }
  }

  /** The loop reaches a position of its own without touching any job. */
  predicate PlainStep(st: State) {
    st.loop.SelLock? || st.loop.SelIn? || st.loop.HbnLock? || (st.loop.Hbn? && st.rest == []) ||
    st.loop.RetLock? || st.loop.Housekeep? || st.loop.WaitLock? ||
    (st.loop.RetIn? && (st.todo == [] || !Flagged(st, st.todo[0])))
  }

  lemma PlainViews(st: State)
    requires EachConn(st) && Table(st) && Memory(st) && LoopSafe(st)
    requires PlainStep(st) && LoopEnabled(st) && st.job.None? && Mutexes(st)
    ensures EachConn(IdleNext(st)) && Table(IdleNext(st)) && Memory(IdleNext(st))
  {
    QuietKeeps(st, IdleNext(st));
  }

  lemma IdleMutexes(st: State)
    requires Mutexes(st) && LoopEnabled(st) && LoopSafe(st) && !HasJob(st.loop)
    ensures Mutexes(IdleNext(st))
  {
  }

  lemma IdleLists(st: State)
    requires Lists(st) && Memory(st) && LoopEnabled(st) && LoopSafe(st) && !HasJob(st.loop)
    requires st.loop.Hbn? && st.rest != [] ==> st.rest[0] in st.fds && st.fds[st.rest[0]] in st.conns
    ensures Lists(IdleNext(st)) && Memory(IdleNext(st))
  {
  }

  lemma SignalKept(st: State, n: State)
    requires n.conns == st.conns && (st.loop.RetKill? ==> n.loop.RetKill?)
    ensures SomeoneWillSignal(st) ==> SomeoneWillSignal(n)
  {
    if SomeoneWillSignal(st) && !st.loop.RetKill? {
      var q :| q in st.conns && st.conns[q].thread == Some(NtKill);
      assert q in n.conns && n.conns[q].thread == Some(NtKill);
    }
  }

  lemma IdleWakeUp(st: State)
    requires WakeUp(st) && LoopEnabled(st) && LoopSafe(st) && !HasJob(st.loop)
    ensures WakeUp(IdleNext(st))
  {
    SignalKept(st, IdleNext(st));
  }

  /** pselect returns, or the handlers of this iteration are done. */
  lemma WakePreserves(st: State, a: Action)
    requires Inv(st) && Enabled(st, a) && (a.Wake? || a.IterateDone?)
    ensures Inv(Apply(st, a))
  {
    hide ViewOk;
    var n := Apply(st, a);
    QuietKeeps(st, n);
    WakeShared(st, n);
    return;
  }

  lemma WakeShared(st: State, n: State)
    requires Mutexes(st) && Lists(st) && WakeUp(st) && (st.loop.Parked? || st.loop.Iterate?)
    requires n == st.(signal := n.signal, loop := n.loop) && (n.loop.Iterate? || n.loop.HbnLock?)
    ensures Mutexes(n) && Lists(n) && WakeUp(n)
  {
  }

  // ----- taking up a job -----

  lemma TakeFrame(st: State, p: Ptr)
    requires Mutexes(st) && st.job.None? && IdleJob(st) == Some(p) && p in st.conns && !HasJob(st.loop)
    requires st.loop.Hbn? ==> st.rest[0] == st.conns[p].clientFd
    ensures OnlyTouches(st, IdleNext(st), p)
    ensures HasJob(IdleGoto(st)) && !LoopOwes(IdleGoto(st)) && !Releasing(IdleGoto(st))
    ensures Pending(IdleNext(st)) == if st.loop.Hbn? then st.rest[1..] else Pending(st)
  {
    if st.loop.Hbn? {
      assert st.rest == [st.conns[p].clientFd] + st.rest[1..];
    }
  }

  lemma NextNotified(st: State, fd: int)
    requires Table(st) && st.loop.Hbn? && fd in st.rest
    ensures fd in st.fds && st.fds[fd] in st.conns && st.conns[st.fds[fd]].clientFd == fd
  {
    assert fd in Pending(st);
  }

  /** The loop takes up the job of the next notification, of the next job whose notification
      could not be enqueued, or of the head of the list at shutdown.  The first of these is
      always the client of an active job. */
  lemma TakeJob(st: State)
    requires EachConn(st) && Table(st) && Mutexes(st) && Lists(st) && !PlainStep(st) && !HasJob(st.loop)
    requires (st.loop.Hbn? && st.rest != []) || (st.loop.RetIn? && st.todo != []) || (st.loop.WaitIn? && st.jobs != [])
    ensures IdleJob(st).Some? && IdleJob(st).value in st.conns
    ensures st.loop.Hbn? ==> st.rest[0] in st.fds
    ensures EachConn(IdleNext(st)) && Table(IdleNext(st))
  {
    if st.loop.Hbn? {
      NextNotified(st, st.rest[0]);
      TakeViews(st, st.fds[st.rest[0]]);
    } else if st.loop.RetIn? {
      assert st.todo[0] in st.jobs;
      TakeViews(st, st.todo[0]);
    } else {
      TakeViews(st, st.jobs[0]);
    }
  }

  lemma TakeViews(st: State, p: Ptr)
    requires EachConn(st) && Table(st) && Mutexes(st) && st.job.None? && !HasJob(st.loop)
    requires IdleJob(st) == Some(p) && p in st.conns && (st.loop.WaitIn? ==> p in st.jobs)
    requires st.loop.Hbn? ==> st.rest[0] == st.conns[p].clientFd
    ensures EachConn(IdleNext(st)) && Table(IdleNext(st))
  {
    var n := IdleNext(st);
    assert ViewOk(ViewOf(st, p));
    TakeFrame(st, p);
    TakeView(st, p);
    TakenViewOk(ViewOf(st, p), ViewOf(n, p));
    OthersUnchanged(st, n, p);
    KeepsTable(st, n, p);
  }

  lemma TakeView(st: State, p: Ptr)
    requires Mutexes(st) && st.job.None? && IdleJob(st) == Some(p) && p in st.conns && !HasJob(st.loop)
    requires st.loop.Hbn? ==> st.rest[0] == st.conns[p].clientFd
    ensures var v, w := ViewOf(st, p), ViewOf(IdleNext(st), p);
      && w == v.(at := IdleGoto(st), queued := w.queued)
      && v.queued == w.queued + Count(st.loop.Hbn?)
  {
    var n := IdleNext(st);
    TakeFrame(st, p);
    ViewAfter(st, n, p);
    if st.loop.Hbn? {
      assert multiset(st.rest) == multiset{st.rest[0]} + multiset(st.rest[1..]) by {
        assert st.rest == [st.rest[0]] + st.rest[1..];
      }
    }
  }

  lemma TakenViewOk(v: View, n: View)
    requires ViewOk(v) && v.at.Parked? && !v.torn
    requires n == v.(at := n.at, queued := n.queued, holdsD := v.holdsD, holdsR := v.holdsR)
    requires
      || (n.at.BlkLock? && v.queued == n.queued + 1 && !v.closing)
      || (n.at.RetAlloc? && v.queued == n.queued && v.c.failed && !v.closing)
      || (n.at.WaitJoin? && v.queued == n.queued && v.listed && v.c.started && v.closing)
      || (n.at.WaitLock2? && v.queued == n.queued && v.listed && !v.c.started && v.closing)
    ensures ViewOk(n)
  {
  }

  // ----- entering the shutdown -----

  lemma EnterClosingViews(st: State, n: State)
    requires EachConn(st) && st.job.None? && !Closing(st.loop)
    requires n == st.(loop := WaitLock)
    ensures EachConn(n)
  {
    forall q | q in n.conns
      ensures ViewOk(ViewOf(n, q))
    {
      assert ViewOk(ViewOf(st, q));
      assert ViewOf(n, q).c == ViewOf(st, q).c && ViewOf(n, q).at == ViewOf(st, q).at;
    }
  }

  lemma EnterClosingShared(st: State, n: State)
    requires Mutexes(st) && Table(st) && Lists(st) && (st.loop.Parked? || st.loop.Housekeep?)
    requires st.threadSet && n == st.(loop := WaitLock)
    ensures Mutexes(n) && Table(n) && Lists(n) && WakeUp(n)
  {
  }

  lemma EnterClosing(st: State, a: Action)
    requires Inv(st) && Enabled(st, a) && (a.SelectFails? || a.Shutdown?)
    ensures Inv(Apply(st, a))
  {
    EnterClosingViews(st, Apply(st, a));
    EnterClosingShared(st, Apply(st, a));
  }

  lemma EnterTeardown(st: State)
    requires EachConn(st) && Table(st) && Mutexes(st) && st.loop.WaitIn? && st.jobs == [] && st.job.None?
    requires LoopSafe(st)
    ensures EachConn(IdleNext(st)) && Table(IdleNext(st))
  {
    var n := IdleNext(st);
    forall q | q in n.conns
      ensures ViewOk(ViewOf(n, q))
    {
      assert ViewOk(ViewOf(st, q));
      assert ViewOf(n, q) == ViewOf(st, q).(torn := true);
    }
  }

  lemma IdleSafe(st: State)
    requires Inv(st) && !HasJob(st.loop)
    ensures LoopSafe(st)
  {
  }

  lemma IdlePreserves(st: State)
    requires Inv(st) && LoopEnabled(st) && !HasJob(st.loop)
    ensures LoopSafe(st) && Inv(IdleNext(st))
  {
    IdleSafe(st);
    if PlainStep(st) {
      PlainViews(st);
    } else if st.loop.WaitIn? && st.jobs == [] {
      EnterTeardown(st);
    } else {
      TakeJob(st);
    }
    IdleMutexes(st);
    IdleLists(st);
    IdleWakeUp(st);
  }
}
