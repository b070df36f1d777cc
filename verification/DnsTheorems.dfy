/**
  What the DNS job protocol promises, over every interleaving of the event loop and its
  resolver threads.
*/
module DnsTheorems {
  import opened Options
  import opened DnsModel
  import opened DnsInvariant
  import opened DnsSteps
  import opened DnsLoop
  import opened DnsConns

  lemma LoopPreserves(st: State, ok: bool)
    requires Inv(st) && LoopEnabled(st)
    ensures LoopSafe(st) && Inv(LoopNext(st, ok))
  {
    if JobStep(st.loop) {
      JobStepPreserves(st, ok);
    } else if st.loop.WaitRelease? {
      WaitReleasePreserves(st, ok);
    } else {
      IdlePreserves(st);
    }
  }

  /** One step: no assertion fails, no freed struct is touched, and the invariant holds again. */
  lemma StepPreserves(st: State, a: Action)
    requires Inv(st) && Enabled(st, a)
    ensures Safe(st, a) && Inv(Apply(st, a))
  {
    match a
    case WorkerStep(p, ok) => WorkerPreserves(st, p, ok);
    case LoopStep(ok) => LoopPreserves(st, ok);
    case Wake(_, _) => WakePreserves(st, a);
    case SelectFails => EnterClosing(st, a);
    case Accept(fd, p, registered) =>
      if registered {
        AcceptPreserves(st, fd, p);
      } else {
        RefusePreserves(st, fd, p);
      }
    case Io(p, out) => IoPreserves(st, p, out);
    case IterateDone => WakePreserves(st, a);
    case Connect(p, out) => ConnectPreserves(st, p, out);
    case Sweep(p) =>
      IdleConnIsPlain(st, p);
      ClosePreserves(st, p);
    case Shutdown => EnterClosing(st, a);
    case TearFd(fd) => TearFdPreserves(st, fd);
    case TearPool => TearPoolPreserves(st);
    case TearEnd => TearEndPreserves(st);
  }

  lemma {:induction false} RunInvariant(states: seq<State>, actions: seq<Action>, i: nat)
    requires IsRun(states, actions) && i < |states|
    ensures Inv(states[i])
  {
    if i == 0 {
      InitInv();
    } else {
      RunInvariant(states, actions, i - 1);
      assert Enabled(states[i - 1], actions[i - 1]) && states[i - 1 + 1] == Apply(states[i - 1], actions[i - 1]);
      StepPreserves(states[i - 1], actions[i - 1]);
    }
  }

  /** No run ends in a failed assertion, an abort, a double release or a use after free:
      whatever action is enabled at the end of a run is safe. */
  lemma RunsAreSafe(states: seq<State>, actions: seq<Action>, a: Action)
    requires IsRun(states, actions) && Enabled(states[|actions|], a)
    ensures Safe(states[|actions|], a)
  {
    RunInvariant(states, actions, |actions|);
    StepPreserves(states[|actions|], a);
  }

  // ----- completion token -----

  /** In every run, before shutdown, each active job has exactly one holder of its completion. */
  lemma OneToken(states: seq<State>, actions: seq<Action>, p: Ptr)
    requires IsRun(states, actions)
    requires var st := states[|actions|]; p in st.conns && st.conns[p].active && !Closing(st.loop)
    ensures Tokens(ViewOf(states[|actions|], p)) == 1
  {
    RunInvariant(states, actions, |actions|);
    assert ViewOk(ViewOf(states[|actions|], p));
  }

  /** A notification always names the client of a job that is active and completed, so the
      early return of request_resolv_on_block_ready is never taken. */
  lemma NotificationsAreLive(states: seq<State>, actions: seq<Action>)
    requires IsRun(states, actions)
    ensures var st := states[|actions|];
      st.loop.BlkIn? ==> st.job.Some? && st.job.value in st.conns &&
                         st.conns[st.job.value].active && st.conns[st.job.value].completed
    ensures var st := states[|actions|];
      !Closing(st.loop) ==> forall fd :: fd in Pending(st) ==>
        fd in st.fds && st.fds[fd] in st.conns && st.conns[st.fds[fd]].clientFd == fd &&
        st.conns[st.fds[fd]].active && st.conns[st.fds[fd]].completed
  {
    var st := states[|actions|];
    RunInvariant(states, actions, |actions|);
    if st.loop.BlkIn? {
      assert ViewOk(ViewOf(st, st.job.value));
    }
    if !Closing(st.loop) {
      forall fd | fd in Pending(st)
        ensures fd in st.fds && st.fds[fd] in st.conns && st.conns[st.fds[fd]].clientFd == fd
        ensures st.conns[st.fds[fd]].active && st.conns[st.fds[fd]].completed
      {
        var v := ViewOf(st, st.fds[fd]);
        assert ViewOk(v);
        assert v.queued > 0;
      }
    }
  }

  // ----- wake-up -----

  /** While the loop is parked in pselect with notifications queued, the signal is pending or
      some thread is between its enqueue and its pthread_kill. */
  lemma NoLostWakeUp(states: seq<State>, actions: seq<Action>)
    requires IsRun(states, actions)
    requires states[|actions|].loop.Parked? && states[|actions|].queue != []
    ensures var st := states[|actions|];
      st.signal || exists p :: p in st.conns && st.conns[p].thread == Some(NtKill) && WorkerEnabled(st, p)
  {
    var st := states[|actions|];
    RunInvariant(states, actions, |actions|);
    if !st.signal {
      var p :| p in st.conns && st.conns[p].thread == Some(NtKill);
      assert WorkerEnabled(st, p);
    }
  }

  // ----- deadlock -----

  /** The thread `t` cannot move until `WaitsFor` does something. */
  function WaitsFor(st: State, t: Owner): Option<Owner> {
    match t
    case Worker(p) =>
      if !(p in st.conns && st.conns[p].thread.Some?) then None
      else
        var w := st.conns[p].thread.value;
        if w.PubLock? || w.FlagLock? then st.dLock else if w.NtLock? then st.rLock else None
    case Loop =>
      var l := st.loop;
      if (l.BlkJoin? || l.WaitJoin?) && st.job.Some? && !Joinable(st) then Some(Worker(st.job.value))
      else if l.SelLock? || l.HbnLock? || l.ArrNtLock? || l.RetNtLock? then st.rLock
      else if l.ArrLock? || l.ArrFlagLock? || l.BlkLock? || l.BlkLock2? || l.RetLock? || l.WaitLock? || l.WaitLock2?
      then st.dLock
      else None
  }

  /** A level for every thread: along the wait graph it strictly falls. */
  function Level(st: State, t: Owner): nat {
    match t
    case Worker(p) =>
      if !(p in st.conns && st.conns[p].thread.Some?) then 0
      else
        var w := st.conns[p].thread.value;
        if w.PubLock? || w.FlagLock? then (if st.loop.RetNtLock? then 2 else 1)
        else if w.NtLock? then (if Notifying(st.loop) then 3 else 1) else 0
    case Loop =>
      if st.loop.BlkJoin? || st.loop.WaitJoin? then 2 else if WaitsFor(st, Loop).Some? then 1 else 0
  }

  /** The wait graph of every reachable state is acyclic.  The case that matters: the worker
      joined under `resolution_mutex` is past its own use of that mutex. */
  lemma WaitsDescend(st: State, t: Owner)
    requires Inv(st) && WaitsFor(st, t).Some?
    ensures Level(st, WaitsFor(st, t).value) < Level(st, t)
  {
    var u := WaitsFor(st, t).value;
    if u.Worker? {
      assert ViewOk(ViewOf(st, u.p));
    }
    if t.Worker? {
      assert ViewOk(ViewOf(st, t.p));
      WorkerDescends(st, t.p, u);
    } else {
      LoopDescends(st, u);
    }
  }

  lemma WorkerDescends(st: State, p: Ptr, u: Owner)
    requires Mutexes(st) && p in st.conns && LocksOk(ViewOf(st, p)) && WaitsFor(st, Worker(p)) == Some(u)
    requires u.Worker? ==> u.p in st.conns && LocksOk(ViewOf(st, u.p))
    ensures Level(st, u) < Level(st, Worker(p))
  {
  }

  lemma LoopDescends(st: State, u: Owner)
    requires Mutexes(st) && Lists(st) && WaitsFor(st, Loop) == Some(u)
    requires u.Worker? ==> u.p in st.conns && ViewOk(ViewOf(st, u.p))
    ensures Level(st, u) < Level(st, Loop)
  {
  }

  /** `t` is blocked by `u`, in `k` steps of the wait graph. */
  predicate WaitsOn(st: State, t: Owner, u: Owner, k: nat)
    decreases k
  {
    if k == 0 then t == u else WaitsFor(st, t).Some? && WaitsOn(st, WaitsFor(st, t).value, u, k - 1)
  }

  /** Whose step an action is. */
  function Actor(a: Action): Owner { if a.WorkerStep? then Worker(a.p) else Loop }

  /** The thread has something to do: a step of its own, or for the loop an event to come. */
  ghost predicate Live(st: State, t: Owner) {
    match t
    case Worker(p) => WorkerEnabled(st, p)
    case Loop => LoopEnabled(st) || st.loop.BlkConnect? || Idling(st.loop)
  }

  /** Positions at which the loop waits for the world outside, or for nothing any more. */
  predicate Idling(l: LoopPos) { l.Parked? || l.Iterate? || l.Teardown? || l.Halted? }

  /** Whoever is blocked is blocked, in the end, by a thread that can move; and a thread that
      blocks another is not waiting for an event. */
  lemma {:induction false} BlockedByLive(st: State, t: Owner) returns (u: Owner, k: nat)
    requires Inv(st)
    requires t.Worker? ==> HasLiveThread(st, t.p)
    ensures WaitsOn(st, t, u, k) && Live(st, u)
    ensures k > 0 && u.Loop? ==> !Idling(st.loop)
    decreases Level(st, t)
  {
    if WaitsFor(st, t).Some? {
      WaitsDescend(st, t);
      if WaitsFor(st, t).value.Worker? {
        WaitedForExists(st, t);
      }
      u, k := BlockedByLive(st, WaitsFor(st, t).value);
      k := k + 1;
    } else {
      u, k := t, 0;
      if t.Loop? && st.job.Some? {
        assert ViewOk(ViewOf(st, st.job.value));
      }
    }
  }

  predicate HasLiveThread(st: State, p: Ptr) {
    p in st.conns && st.conns[p].thread.Some? && !st.conns[p].thread.value.Exited?
  }

  lemma WaitedForExists(st: State, t: Owner)
    requires Inv(st) && WaitsFor(st, t).Some? && WaitsFor(st, t).value.Worker?
    ensures HasLiveThread(st, WaitsFor(st, t).value.p)
  {
    var q := WaitsFor(st, t).value.p;
    assert ViewOk(ViewOf(st, q));
  }

  lemma SomeFd(fds: map<int, Ptr>) returns (fd: int)
    requires fds != map[]
    ensures fd in fds
  {
    assert |fds| > 0;
    var item :| item in fds.Items;
    fd := item.0;
  }

  /** A live thread has an action that is enabled, unless the process has ended. */
  lemma LiveActs(st: State, u: Owner) returns (a: Action)
    requires Inv(st) && Live(st, u) && (u.Loop? ==> !st.loop.Halted?)
    ensures Actor(a) == u && Enabled(st, a)
  {
    if u.Worker? {
      a := WorkerStep(u.p, true);
    } else if LoopEnabled(st) {
      a := LoopStep(true);
    } else if st.loop.BlkConnect? {
      a := Connect(st.job.value, Keep(true, true));
    } else if st.loop.Parked? {
      a := Wake(true, true);
    } else if st.loop.Iterate? {
      a := IterateDone;
    } else if st.fds != map[] {
      var fd := SomeFd(st.fds);
      a := TearFd(fd);
    } else {
      a := if st.pool == [] then TearEnd else TearPool;
    }
  }

  /** No run reaches a deadlock: whichever thread there is has a safe action to take, or waits,
      along the wait graph, for one that has. */
  lemma NoDeadlock(states: seq<State>, actions: seq<Action>, t: Owner) returns (u: Owner, k: nat, a: Action)
    requires IsRun(states, actions)
    requires if t.Worker? then HasLiveThread(states[|actions|], t.p) else !states[|actions|].loop.Halted?
    ensures var st := states[|actions|];
      WaitsOn(st, t, u, k) && Actor(a) == u && Enabled(st, a) && Safe(st, a)
    ensures k > 0 && u.Loop? ==> !Idling(states[|actions|].loop)
  {
    var st := states[|actions|];
    RunInvariant(states, actions, |actions|);
    u, k := BlockedByLive(st, t);
    a := LiveActs(st, u);
    StepPreserves(st, a);
  }

  // ----- rest -----

  /** No thread can move on its own: what is left is getaddrinfo and the sockets. */
  ghost predicate AtRest(st: State) {
    && st.loop.Parked? && !st.signal
    && forall p :: WorkerEnabled(st, p) ==> st.conns[p].thread == Some(Resolve)
  }

  /** When everything has come to rest, every job is still resolving, or its notification
      failed for lack of memory and waits for the next pass of the loop: none is lost. */
  lemma RestMeansDelivered(states: seq<State>, actions: seq<Action>, p: Ptr)
    requires IsRun(states, actions) && AtRest(states[|actions|])
    requires p in states[|actions|].conns && states[|actions|].conns[p].active
    ensures var c := states[|actions|].conns[p];
      states[|actions|].queue == [] && (c.thread == Some(Resolve) <==> !c.completed) && (c.completed <==> c.failed)
  {
    var st := states[|actions|];
    RunInvariant(states, actions, |actions|);
    if st.queue != [] {
      NoLostWakeUp(states, actions);
      assert false;
    }
    var v := ViewOf(st, p);
    assert ViewOk(v);
    assert v.queued == 0;
    if v.c.thread.Some? && !v.c.thread.value.Exited? && WaitsFor(st, Worker(p)).Some? {
      var q := WaitsFor(st, Worker(p)).value;
      assert q.Worker?;
      assert ViewOk(ViewOf(st, q.p));
      assert WorkerEnabled(st, q.p);
      assert false;
    }
    if v.c.thread.Some? && !v.c.thread.value.Exited? {
      assert WorkerEnabled(st, p);
    }
  }

  // ----- reclamation -----

  /** Between steps, a struct's references are its registered descriptors plus its DNS job. */
  lemma ReferencesExact(states: seq<State>, actions: seq<Action>, p: Ptr)
    requires IsRun(states, actions) && p in states[|actions|].conns
    requires !Releasing(states[|actions|].loop)
    ensures var st := states[|actions|]; var c := st.conns[p];
      c.references == Count(Registered(st, c.clientFd, p)) +
                      Count(c.originFd.Some? && Registered(st, c.originFd.value, p)) + Count(c.active)
  {
    RunInvariant(states, actions, |actions|);
    assert ViewOk(ViewOf(states[|actions|], p));
  }

  /** A struct leaves the active list for the pool or for free, never both, and then no
      descriptor, job or thread refers to it. */
  lemma ReclaimedOnce(st: State, a: Action, p: Ptr)
    requires Inv(st) && Enabled(st, a) && p in st.conns
    ensures Safe(st, a)
    ensures var n := Apply(st, a);
      p !in n.conns ==>
        st.conns[p].thread.None? && p !in n.jobs && (forall fd :: fd in n.fds ==> n.fds[fd] != p) &&
        (p in n.pool <==> p in n.heap)
  {
    StepPreserves(st, a);
    var n := Apply(st, a);
    if p !in n.conns {
      assert ViewOk(ViewOf(st, p));
      assert forall fd :: fd in n.fds ==> n.fds[fd] in n.conns;
      assert st.conns[p].thread.None? by {
        if st.conns[p].thread.Some? {
          ThreadKeepsStruct(st, a, p);
        }
      }
    }
  }

  /** While a job is active, no step takes its struct away. */
  lemma ThreadKeepsStruct(st: State, a: Action, p: Ptr)
    requires Inv(st) && Enabled(st, a) && Safe(st, a) && p in st.conns && st.conns[p].active
    ensures p in Apply(st, a).conns
  {
    assert ViewOk(ViewOf(st, p));
    match a
    case Io(q, out) =>
      IdleConnIsPlain(st, q);
      HandlerKeepsOthers(st, q, out, p);
    case Sweep(q) =>
      IdleConnIsPlain(st, q);
      HandlerKeepsOthers(st, q, Close, p);
    case Connect(q, out) =>
      assert ViewOk(ViewOf(st, q));
      ConnectEffect(st, q, out);
    case LoopStep(ok) => LoopKeepsStruct(st, ok, p);
    case Accept(fd, q, _) => AllocateMemory(st, q, fd);
    case _ =>
  }

  lemma LoopKeepsStruct(st: State, ok: bool, p: Ptr)
    requires EachConn(st) && LoopEnabled(st) && LoopSafe(st) && p in st.conns
    ensures p in LoopNext(st, ok).conns
  {
    if st.loop.WaitRelease? {
      assert ViewOk(ViewOf(st, st.job.value));
      WaitReleaseEffect(st, st.job.value);
    }
  }

  lemma HandlerKeepsOthers(st: State, q: Ptr, out: Outcome, p: Ptr)
    requires Plain(st, q) && OutcomeEnabled(st, q, out) && OutcomeSafe(st, q, out)
    requires p in st.conns && p != q
    ensures p in ApplyOutcome(st, q, out).conns
  {
    if out.Close? {
      CloseEffect(st, q);
    } else if out.Drop? || out.Swap? {
      DropEffect(st, q);
    }
  }

  /** After the teardown every struct has been freed, no thread is left, and none is active. */
  lemma TeardownFreesAll(states: seq<State>, actions: seq<Action>)
    requires IsRun(states, actions) && states[|actions|].loop.Halted?
    ensures var st := states[|actions|]; st.conns == map[] && st.pool == [] && st.heap == {} && st.fds == map[]
  {
    var st := states[|actions|];
    RunInvariant(states, actions, |actions|);
    NoConnLeft(st);
    assert st.heap == {};
  }
}
