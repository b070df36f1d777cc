/**
  The steps that change the descriptor table, the reference counts and the pool.
*/
module DnsConns {
  import opened Options
  import opened DnsModel
  import opened DnsInvariant

  /** Only the struct `p` and the descriptors registered for it differ. */
  ghost predicate OnlyReplaces(st: State, n: State, p: Ptr) {
    && ((p in n.conns && n.conns == st.conns[p := n.conns[p]]) || n.conns == st.conns - {p})
    && (forall fd, q :: q != p ==> (Registered(n, fd, q) <==> Registered(st, fd, q)))
    && n.jobs == st.jobs && n.dLock == st.dLock && n.rLock == st.rLock
    && ((n.job == st.job && n.loop == st.loop) || (st.job == Some(p) && n.job == None) ||
        (st.job == None && n.job == Some(p)))
    && (Closing(st.loop) <==> Closing(n.loop)) && (Torn(st.loop) <==> Torn(n.loop))
    && Pending(n) == Pending(st)
  }

  lemma OthersKept(st: State, n: State, p: Ptr)
    requires EachConn(st) && OnlyReplaces(st, n, p)
    requires p in n.conns ==> ViewOk(ViewOf(n, p))
    ensures EachConn(n)
  {
    forall q | q in n.conns
      ensures ViewOk(ViewOf(n, q))
    {
      if q != p {
        assert ViewOk(ViewOf(st, q));
        assert Registered(n, st.conns[q].clientFd, q) <==> Registered(st, st.conns[q].clientFd, q);
        assert ViewOf(n, q) == ViewOf(st, q);
      }
    }
  }

  // ----- what the compound C operations come to -----

  /** A connection without a DNS job, its descriptors registered, its references exact. */
  ghost predicate Plain(st: State, p: Ptr) {
    p in st.conns && ViewOk(ViewOf(st, p)) && !Torn(st.loop) && !st.conns[p].active && st.job != Some(p)
  }

  function WithoutFds(st: State, p: Ptr): map<int, Ptr>
    requires p in st.conns
  {
    var c := st.conns[p];
    if c.originFd.Some? then st.fds - {c.clientFd} - {c.originFd.value} else st.fds - {c.clientFd}
  }

  /** socks5_done and socks5_kill release the struct exactly once, with their last descriptor. */
  lemma CloseEffect(st: State, p: Ptr)
    requires Plain(st, p)
    ensures CanClose(st, p)
    ensures CloseConn(st, p) == Recycle(st.(fds := WithoutFds(st, p)), p)
  {
    var c := st.conns[p];
    var u := Unregister(st, c.clientFd);
    if c.originFd.Some? {
      assert u == st.(fds := st.fds - {c.clientFd}, conns := st.conns[p := c.(references := 1)]);
      var r := Unregister(u, c.originFd.value);
      assert u.conns - {p} == st.conns - {p};
    }
  }

  lemma DropEffect(st: State, p: Ptr)
    requires Plain(st, p) && st.conns[p].originFd.Some?
    ensures CanDrop(st, p)
    ensures DropOrigin(st, p) ==
      st.(fds := st.fds - {st.conns[p].originFd.value},
          conns := st.conns[p := st.conns[p].(originFd := None, references := 1)])
  {
    var c := st.conns[p];
    var u := Unregister(st, c.originFd.value);
    assert u.conns[p := u.conns[p].(originFd := None)] == st.conns[p := c.(originFd := None, references := 1)];
  }

  lemma AfterResolvEffect(st: State, p: Ptr)
    requires p in st.conns && ViewOk(ViewOf(st, p)) && !Torn(st.loop)
    requires st.job == Some(p) && (st.loop.BlkConnect? || st.loop.WaitRelease?)
    ensures CanRelease(st, p) && st.conns[p].references == 2
    ensures AfterResolv(st, p) == st.(conns := st.conns[p := st.conns[p].(resolving := false, references := 1)])
  {
    var r := st.conns[p].(resolving := false);
    assert st.conns[p := r][p := r.(references := 1)] == st.conns[p := r.(references := 1)];
  }

  // ----- memory -----

  lemma RecycleMemory(st: State, p: Ptr)
    requires Memory(st) && p in st.conns
    ensures Memory(Recycle(st, p))
  {
    var n := Recycle(st, p);
    if |st.pool| < POOL_MAX {
      assert n.pool == [p] + st.pool;
    }
  }

  lemma AllocateMemory(st: State, p: Ptr, fd: int)
    requires Memory(st) && CanAllocate(st, p)
    ensures p !in st.conns && Memory(Allocate(st, p, fd))
  {
    if st.pool != [] {
      assert st.pool == [st.pool[0]] + st.pool[1..];
    }
  }

  // ----- the locks, the lists, the wake-up and the table -----

  /** A step on a connection that has no DNS job leaves the shared structures alone. */
  lemma StructuresKept(st: State, n: State, p: Ptr)
    requires Mutexes(st) && Lists(st) && WakeUp(st) && OnlyReplaces(st, n, p)
    requires p in st.conns ==> st.conns[p].thread.None? && p !in st.jobs
    requires p in n.conns ==> n.conns[p].thread.None?
    requires st.dLock != Some(Worker(p)) && st.rLock != Some(Worker(p))
    requires n.queue == st.queue && n.signal == st.signal && n.threadSet == st.threadSet == true && n.todo == st.todo
    requires HasJob(n.loop) <==> n.job.Some?
    requires !n.loop.Halted?
    requires n.job.Some? ==> n.job.value in n.conns
    requires LoopHoldsD(n.loop) == LoopHoldsD(st.loop) && LoopHoldsR(n.loop) == LoopHoldsR(st.loop)
    requires BeforeSelect(n.loop) ==> BeforeSelect(st.loop) && !HasJob(st.loop) && !HasJob(n.loop)
    requires n.loop.RetIn? ==> st.loop.RetIn?
    ensures Mutexes(n) && Lists(n) && WakeUp(n)
  {
    if SomeoneWillSignal(st) && BeforeSelect(n.loop) {
      var q :| q in st.conns && st.conns[q].thread == Some(NtKill);
      assert q in n.conns && n.conns[q].thread == Some(NtKill);
    }
  }

  /** The table stays exact when `p` keeps its client and only its origin changes. */
  lemma TableKept(st: State, n: State, p: Ptr)
    requires Table(st) && OnlyReplaces(st, n, p) && p in st.conns && p in n.conns
    requires n.conns[p].clientFd == st.conns[p].clientFd
    requires forall fd :: fd in n.fds && n.fds[fd] == p ==> fd == n.conns[p].clientFd || n.conns[p].originFd == Some(fd)
    requires Registered(n, n.conns[p].clientFd, p)
    ensures Table(n)
  {
    forall fd | fd in n.fds
      ensures n.fds[fd] in n.conns
      ensures fd == n.conns[n.fds[fd]].clientFd || n.conns[n.fds[fd]].originFd == Some(fd)
    {
      assert Registered(n, fd, n.fds[fd]);
    }
    forall fd | fd in Pending(n) && !Closing(n.loop)
      ensures fd in n.fds && n.fds[fd] in n.conns && n.conns[n.fds[fd]].clientFd == fd
    {
      assert fd in Pending(st);
      assert Registered(st, fd, st.fds[fd]);
      assert st.fds[fd] != p ==> Registered(n, fd, st.fds[fd]);
    }
  }

  /** The table stays exact when `p` goes. */
  lemma TableClosed(st: State, n: State, p: Ptr)
    requires Table(st) && Plain(st, p) && OnlyReplaces(st, n, p)
    requires n.conns == st.conns - {p} && n.fds == WithoutFds(st, p)
    ensures Table(n)
  {
    forall fd | fd in Pending(n) && !Closing(n.loop)
      ensures fd in n.fds && n.fds[fd] in n.conns && n.conns[n.fds[fd]].clientFd == fd
    {
      assert fd in Pending(st);
      assert ViewOf(st, p).queued == 0;
    }
  }

  // ----- read and write events, sweeps -----

  /** Where a handler of a connection without a job can run. */
  predicate HandlerPos(l: LoopPos) { l.Iterate? || l.Housekeep? }

  lemma CloseFrame(st: State, p: Ptr)
    requires Plain(st, p) && Table(st)
    ensures OnlyReplaces(st, Recycle(st.(fds := WithoutFds(st, p)), p), p)
  {
  }

  lemma ClosePreserves(st: State, p: Ptr)
    requires Inv(st) && HandlerPos(st.loop) && Plain(st, p)
    ensures CanClose(st, p) && Inv(CloseConn(st, p))
  {
    CloseEffect(st, p);
    var m := st.(fds := WithoutFds(st, p));
    var n := Recycle(m, p);
    RecycleMemory(m, p);
    CloseFrame(st, p);
    OthersKept(st, n, p);
    TableClosed(st, n, p);
    StructuresKept(st, n, p);
  }

  /** A handler leaves connection `p` registered, with whatever origin it now has. */
  lemma ReplacePreserves(st: State, n: State, p: Ptr)
    requires Inv(st) && HandlerPos(st.loop) && Plain(st, p)
    requires OnlyReplaces(st, n, p) && p in n.conns && ViewOk(ViewOf(n, p))
    requires n == st.(conns := n.conns, fds := n.fds)
    requires n.conns[p].clientFd == st.conns[p].clientFd && n.conns[p].thread.None?
    requires forall fd :: fd in n.fds && n.fds[fd] == p ==> fd == n.conns[p].clientFd || n.conns[p].originFd == Some(fd)
    ensures Inv(n)
  {
    OthersKept(st, n, p);
    TableKept(st, n, p);
    StructuresKept(st, n, p);
  }

  lemma KeepPreserves(st: State, p: Ptr, later: bool, armed: bool)
    requires Inv(st) && HandlerPos(st.loop) && Plain(st, p) && (st.conns[p].stage.Later? ==> later)
    ensures Inv(SetArmed(st, p, later, armed))
  {
    var n := SetArmed(st, p, later, armed);
    assert ViewOf(n, p) == ViewOf(st, p).(c := n.conns[p]);
    ReplacePreserves(st, n, p);
  }

  lemma DropPreserves(st: State, p: Ptr)
    requires Inv(st) && HandlerPos(st.loop) && Plain(st, p) && st.conns[p].originFd.Some?
    ensures CanDrop(st, p) && Inv(DropOrigin(st, p)) && Plain(DropOrigin(st, p), p)
    ensures DropOrigin(st, p).conns[p].originFd.None? && DropOrigin(st, p).conns[p].stage.Later?
    ensures DropOrigin(st, p).loop == st.loop
  {
    DropEffect(st, p);
    var n := DropOrigin(st, p);
    assert ViewOf(n, p) == ViewOf(st, p).(c := n.conns[p], origin := false);
    ReplacePreserves(st, n, p);
  }

  lemma OpenPreserves(st: State, p: Ptr, fd: int, armed: bool)
    requires Inv(st) && HandlerPos(st.loop) && Plain(st, p) && st.conns[p].originFd.None? && fd !in st.fds
    ensures Inv(SetArmed(OpenOrigin(st, p, fd), p, true, armed))
  {
    var n := SetArmed(OpenOrigin(st, p, fd), p, true, armed);
    assert n.conns == st.conns[p := n.conns[p]];
    assert ViewOf(n, p) == ViewOf(st, p).(c := n.conns[p], origin := true);
    ReplacePreserves(st, n, p);
  }

  /** A connection is idle, or its handler may run, only without a DNS job. */
  lemma IdleConnIsPlain(st: State, p: Ptr)
    requires Inv(st) && HandlerPos(st.loop) && p in st.conns
    requires st.conns[p].armed || !st.conns[p].resolving
    ensures Plain(st, p)
  {
    assert ViewOk(ViewOf(st, p));
  }

  /** request_resolv_on_arrival: the job's reference is taken before any thread exists. */
  lemma BeginPreserves(st: State, p: Ptr)
    requires Inv(st) && st.loop.Iterate? && Plain(st, p) && st.conns[p].stage.Negotiating?
    ensures Inv(BeginResolv(st, p))
  {
    var n := BeginResolv(st, p);
    assert ViewOf(n, p) == ViewOf(st, p).(c := n.conns[p], at := ArrLock);
    assert OnlyReplaces(st, n, p);
    OthersKept(st, n, p);
    TableKept(st, n, p);
    StructuresKept(st, n, p);
  }

  lemma IoPreserves(st: State, p: Ptr, out: Outcome)
    requires Inv(st) && Enabled(st, Io(p, out))
    ensures Safe(st, Io(p, out)) && Inv(Apply(st, Io(p, out)))
  {
    IdleConnIsPlain(st, p);
    match out
    case Keep(later, armed) => KeepPreserves(st, p, later, armed);
    case Drop(armed) =>
      DropPreserves(st, p);
      KeepPreserves(DropOrigin(st, p), p, true, armed);
    case Open(fd, armed) => OpenPreserves(st, p, fd, armed);
    case Swap(fd, armed) =>
      DropPreserves(st, p);
      DropEffect(st, p);
      OpenPreserves(DropOrigin(st, p), p, fd, armed);
    case Close => ClosePreserves(st, p);
    case EnterResolv => BeginPreserves(st, p);
  }

  // ----- accept -----

  lemma AcceptView(st: State, fd: int, p: Ptr)
    requires Inv(st) && Enabled(st, Accept(fd, p, true)) && p !in st.conns
    ensures ViewOk(ViewOf(Apply(st, Accept(fd, p, true)), p))
  {
    assert fd !in Pending(st);
  }

  lemma AcceptFrame(st: State, fd: int, p: Ptr)
    requires Enabled(st, Accept(fd, p, true)) && p !in st.conns && Table(st)
    ensures OnlyReplaces(st, Apply(st, Accept(fd, p, true)), p)
  {
  }

  lemma AcceptPreserves(st: State, fd: int, p: Ptr)
    requires Inv(st) && Enabled(st, Accept(fd, p, true))
    ensures Inv(Apply(st, Accept(fd, p, true)))
  {
    AllocateMemory(st, p, fd);
    AcceptFrame(st, fd, p);
    AcceptView(st, fd, p);
    var n := Apply(st, Accept(fd, p, true));
    OthersKept(st, n, p);
    StructuresKept(st, n, p);
  }

  /** The selector refuses the descriptor: the struct's only reference is released at once. */
  lemma RefusePreserves(st: State, fd: int, p: Ptr)
    requires Inv(st) && Enabled(st, Accept(fd, p, false))
    ensures Inv(Apply(st, Accept(fd, p, false)))
    ensures Apply(st, Accept(fd, p, false)).conns == st.conns
  {
    var n := Apply(st, Accept(fd, p, false));
    RefuseEffect(st, fd, p);
    QuietOrSame(st, n);
  }

  lemma RefuseEffect(st: State, fd: int, p: Ptr)
    requires Memory(st) && Enabled(st, Accept(fd, p, false))
    ensures var n := Apply(st, Accept(fd, p, false));
      Memory(n) && n == st.(pool := n.pool, heap := n.heap)
  {
    AllocateMemory(st, p, fd);
    var m := Allocate(st, p, fd);
    RecycleMemory(m, p);
    var n := Apply(st, Accept(fd, p, false));
    assert n == Recycle(m, p);
    assert n.conns == st.conns;
  }

  lemma QuietOrSame(st: State, n: State)
    requires Inv(st) && n == st.(pool := n.pool, heap := n.heap) && Memory(n) && st.loop.Iterate?
    ensures Inv(n)
  {
    forall q | q in n.conns
      ensures ViewOk(ViewOf(n, q))
    {
      assert ViewOf(n, q) == ViewOf(st, q);
    }
  }

  // ----- after the resolver -----

  /** Back from a released job to the loop that took it up. */
  lemma ReleasedPreserves(st: State, n: State, p: Ptr)
    requires Inv(st) && st.job == Some(p) && Releasing(st.loop)
    requires OnlyReplaces(st, n, p) && p in n.conns && ViewOk(ViewOf(n, p)) && Table(n)
    requires n == st.(conns := n.conns, fds := n.fds, loop := n.loop, job := None)
    requires n.loop == if st.loop.BlkConnect? then Hbn else WaitLock
    ensures Inv(n)
  {
    assert ViewOk(ViewOf(st, p));
    OthersKept(st, n, p);
    StructuresKept(st, n, p);
  }

  /** The job's reference is never the last one: the client is still registered. */
  lemma ConnectEffect(st: State, p: Ptr, out: Outcome)
    requires p in st.conns && ViewOk(ViewOf(st, p)) && Enabled(st, Connect(p, out))
    ensures Safe(st, Connect(p, out))
    ensures var n := Apply(st, Connect(p, out));
      p in n.conns &&
      n == st.(conns := st.conns[p := n.conns[p]], fds := if out.Open? then st.fds[out.fd := p] else st.fds,
               loop := Hbn, job := None) &&
      n.conns[p] == st.conns[p].(
        resolving := false, references := if out.Open? then 2 else 1, stage := Later,
        originFd := if out.Open? then Some(out.fd) else None, armed := n.conns[p].armed)
  {
    AfterResolvEffect(st, p);
    var n := Apply(st, Connect(p, out));
    assert n.conns == st.conns[p := n.conns[p]];
  }

  lemma ConnectFrame(st: State, n: State, p: Ptr, out: Outcome)
    requires p in st.conns && p in n.conns && st.job == Some(p) && st.loop.BlkConnect?
    requires out.Open? ==> out.fd !in st.fds
    requires n == st.(conns := st.conns[p := n.conns[p]], fds := if out.Open? then st.fds[out.fd := p] else st.fds,
                      loop := Hbn, job := None)
    ensures OnlyReplaces(st, n, p)
  {
  }

  lemma ConnectView(st: State, n: State, p: Ptr, out: Outcome)
    requires p in st.conns && ViewOk(ViewOf(st, p)) && Enabled(st, Connect(p, out))
    requires Safe(st, Connect(p, out)) && n == Apply(st, Connect(p, out))
    ensures p in n.conns && ViewOk(ViewOf(n, p))
  {
    ConnectEffect(st, p, out);
    var v := ViewOf(st, p);
    assert ViewOf(n, p) == v.(c := n.conns[p], at := Parked, origin := out.Open?);
    ConnectedOk(v, ViewOf(n, p));
  }

  /** The job's reference is gone, and with an origin there is one more. */
  lemma ConnectedOk(v: View, w: View)
    requires ViewOk(v) && v.at.BlkConnect? && !v.closing && !v.torn
    requires w == v.(c := w.c, at := Parked, origin := w.c.originFd.Some?)
    requires w.c == v.c.(resolving := false, references := 1 + Count(w.origin), stage := Later,
      originFd := w.c.originFd, armed := w.c.armed)
    requires w.origin ==> w.c.originFd.value != v.c.clientFd
    ensures ViewOk(w)
  {
  }

  lemma ConnectTable(st: State, n: State, p: Ptr, out: Outcome)
    requires p in st.conns && ViewOk(ViewOf(st, p)) && Enabled(st, Connect(p, out)) && Table(st)
    requires Safe(st, Connect(p, out)) && n == Apply(st, Connect(p, out))
    ensures Table(n)
  {
    ConnectEffect(st, p, out);
    ConnectFrame(st, n, p, out);
    TableKept(st, n, p);
  }

  lemma ConnectPreserves(st: State, p: Ptr, out: Outcome)
    requires Inv(st) && Enabled(st, Connect(p, out))
    ensures Safe(st, Connect(p, out)) && Inv(Apply(st, Connect(p, out)))
  {
    assert ViewOk(ViewOf(st, p));
    ConnectEffect(st, p, out);
    var n := Apply(st, Connect(p, out));
    ConnectFrame(st, n, p, out);
    ConnectView(st, n, p, out);
    ConnectTable(st, n, p, out);
    ReleasedPreserves(st, n, p);
  }

  lemma WaitReleaseEffect(st: State, p: Ptr)
    requires st.job == Some(p) && p in st.conns && ViewOk(ViewOf(st, p)) && st.loop.WaitRelease?
    ensures LoopSafe(st) && LoopNext(st, true) ==
      st.(conns := st.conns[p := st.conns[p].(resolving := false, references := 1)], loop := WaitLock, job := None)
  {
    AfterResolvEffect(st, p);
  }

  lemma WaitReleaseView(st: State, n: State, p: Ptr)
    requires st.job == Some(p) && p in st.conns && ViewOk(ViewOf(st, p)) && st.loop.WaitRelease?
    requires n == st.(conns := st.conns[p := st.conns[p].(resolving := false, references := 1)],
                      loop := WaitLock, job := None)
    ensures OnlyReplaces(st, n, p) && ViewOk(ViewOf(n, p))
  {
    assert ViewOf(n, p) == ViewOf(st, p).(c := n.conns[p], at := Parked);
  }

  lemma WaitReleasePreserves(st: State, ok: bool)
    requires Inv(st) && st.loop.WaitRelease?
    ensures LoopSafe(st) && Inv(LoopNext(st, ok))
  {
    var p := st.job.value;
    assert ViewOk(ViewOf(st, p));
    WaitReleaseEffect(st, p);
    var n := LoopNext(st, true);
    WaitReleaseView(st, n, p);
    TableKept(st, n, p);
    ReleasedPreserves(st, n, p);
  }

  // ----- teardown -----

  /** selector_destroy unregisters one descriptor; the struct goes with its last one. */
  lemma TearFdEffect(st: State, fd: int, p: Ptr)
    requires Registered(st, fd, p) && p in st.conns && st.loop.Teardown? && ViewOk(ViewOf(st, p))
    ensures CanUnregister(st, fd)
    ensures var n := Unregister(st, fd);
      && n == st.(conns := n.conns, fds := st.fds - {fd}, pool := n.pool, heap := n.heap)
      && n.conns == if st.conns[p].references == 1 then st.conns - {p}
                    else st.conns[p := st.conns[p].(references := st.conns[p].references - 1)]
  {
  }

  lemma TearFdFrame(st: State, n: State, fd: int, p: Ptr)
    requires Registered(st, fd, p) && n == st.(conns := n.conns, fds := st.fds - {fd}, pool := n.pool, heap := n.heap)
    requires n.conns == st.conns - {p} || (p in n.conns && n.conns == st.conns[p := n.conns[p]])
    ensures OnlyReplaces(st, n, p)
  {
  }

  lemma TearFdView(st: State, fd: int, p: Ptr)
    requires Registered(st, fd, p) && p in st.conns && st.loop.Teardown? && CanUnregister(st, fd)
    requires fd == st.conns[p].clientFd || st.conns[p].originFd == Some(fd)
    requires ViewOk(ViewOf(st, p)) && st.conns[p].references != 1
    ensures p in Unregister(st, fd).conns && ViewOk(ViewOf(Unregister(st, fd), p))
  {
    var v := ViewOf(st, p);
    var n := Unregister(st, fd);
    assert ViewOf(n, p) == v.(c := n.conns[p], client := v.client && fd != v.c.clientFd,
                              origin := v.origin && v.c.originFd != Some(fd));
  }

  lemma TearFdTable(st: State, n: State, fd: int, p: Ptr)
    requires Table(st) && p in st.conns && ViewOk(ViewOf(st, p)) && Registered(st, fd, p) && st.loop.Teardown?
    requires fd == st.conns[p].clientFd || st.conns[p].originFd == Some(fd)
    requires n == st.(conns := n.conns, fds := st.fds - {fd}, pool := n.pool, heap := n.heap)
    requires n.conns == if st.conns[p].references == 1 then st.conns - {p}
                        else st.conns[p := st.conns[p].(references := st.conns[p].references - 1)]
    ensures Table(n)
  {
    forall f | f in n.fds
      ensures n.fds[f] in n.conns
      ensures f == n.conns[n.fds[f]].clientFd || n.conns[n.fds[f]].originFd == Some(f)
    {
      assert f in st.fds && st.fds[f] in st.conns;
    }
  }

  lemma TearFdShared(st: State, n: State, fd: int, p: Ptr)
    requires Mutexes(st) && Lists(st) && WakeUp(st) && OnlyReplaces(st, n, p) && st.loop.Teardown?
    requires p in st.conns && ViewOk(ViewOf(st, p)) && (p in n.conns ==> n.conns[p].thread.None?)
    requires n == st.(conns := n.conns, fds := st.fds - {fd}, pool := n.pool, heap := n.heap)
    ensures Mutexes(n) && Lists(n) && WakeUp(n)
  {
    StructuresKept(st, n, p);
  }

  lemma TearFdMemory(st: State, fd: int, p: Ptr)
    requires Memory(st) && p in st.conns && CanUnregister(st, fd) && Registered(st, fd, p)
    ensures Memory(Unregister(st, fd))
  {
    RecycleMemory(st.(fds := st.fds - {fd}), p);
  }

  lemma TearFdPreserves(st: State, fd: int)
    requires Inv(st) && Enabled(st, TearFd(fd))
    ensures Safe(st, TearFd(fd)) && Inv(Apply(st, TearFd(fd)))
  {
    var p := st.fds[fd];
    assert ViewOk(ViewOf(st, p));
    TearFdEffect(st, fd, p);
    var n := Unregister(st, fd);
    TearFdFrame(st, n, fd, p);
    if st.conns[p].references != 1 {
      TearFdView(st, fd, p);
    }
    TearFdTable(st, n, fd, p);
    TearFdMemory(st, fd, p);
    TearFdShared(st, n, fd, p);
    OthersKept(st, n, p);
  }

  lemma TearPoolPreserves(st: State)
    requires Inv(st) && Enabled(st, TearPool)
    ensures Safe(st, TearPool) && Inv(Apply(st, TearPool))
  {
    NoConnLeft(st);
    assert st.pool == [st.pool[0]] + st.pool[1..];
  }

  /** Every struct holds a reference for each descriptor it has registered, and no other. */
  lemma NoConnLeft(st: State)
    requires EachConn(st) && Torn(st.loop) && st.fds == map[]
    ensures st.conns == map[]
  {
    if p :| p in st.conns {
      assert RefsOk(ViewOf(st, p)) by {
        assert ViewOk(ViewOf(st, p));
      }
      assert false;
    }
  }

  lemma TearEndPreserves(st: State)
    requires Inv(st) && Enabled(st, TearEnd)
    ensures Safe(st, TearEnd) && Inv(Apply(st, TearEnd))
    ensures Apply(st, TearEnd).conns == map[] && Apply(st, TearEnd).heap == {}
  {
    NoConnLeft(st);
    assert st.heap == {};
  }
}
