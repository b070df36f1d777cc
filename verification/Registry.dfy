/**
  The connections of socks5.c and the sessions of monitor.c: a doubly linked list of the active
  ones and a free list of those that can be used again.
*/
module Registry {

  class Node {
    var prev: Node?
    var next: Node?
    /** The link of the free list. */
    var poolNext: Node?
    var lastActivity: int
    var resolving: bool

    constructor ()
      ensures prev == null && next == null && poolNext == null && lastActivity == 0 && !resolving
    {
      prev, next, poolNext, lastActivity, resolving := null, null, null, 0, false;
    }
  }

  /** A sweep closes what has been idle too long; a timeout of 0 disables it, and a connection that
      waits for the resolver is left alone. */
  predicate Expired(n: Node, now: int, timeout: nat)
    reads n
  {
    timeout > 0 && !n.resolving && now - n.lastActivity >= timeout
  }

  predicate NoDup(s: seq<Node>) {
    forall i, j :: 0 <= i < j < |s| ==> s[i] != s[j]
  }

  function At(s: seq<Node>, i: int): Node? { if 0 <= i < |s| then s[i] else null }

  function Without(s: seq<Node>, k: nat): seq<Node>
    requires k < |s|
  {
    s[..k] + s[k + 1..]
  }

  lemma WithoutAt(s: seq<Node>, k: nat, i: int)
    requires k < |s|
    ensures At(Without(s, k), i) == if i < k then At(s, i) else At(s, i + 1)
  {
  }

  lemma WithoutNoDup(s: seq<Node>, k: nat)
    requires NoDup(s) && k < |s|
    ensures NoDup(Without(s, k)) && s[k] !in Without(s, k)
    ensures forall n :: n in Without(s, k) <==> n in s && n != s[k]
  {
    forall n | n in s && n != s[k]
      ensures n in Without(s, k)
    {
      var i :| 0 <= i < |s| && s[i] == n;
      assert n == Without(s, k)[if i < k then i else i - 1];
    }
  }

  /** The links around a node that is about to go, and nothing else, pass it by. */
  ghost predicate Bypassed(live: seq<Node>, k: nat)
    requires k < |live|
    reads live
  {
    forall i {:trigger PassOk(live, k, i)} :: 0 <= i < |live| && i != k ==> PassOk(live, k, i)
  }

  ghost predicate PassOk(live: seq<Node>, k: nat, i: nat)
    requires i < |live|
    reads live[i]
  {
    && live[i].prev == At(live, if i == k + 1 then k - 1 else i - 1)
    && live[i].next == At(live, if i == k - 1 then k + 1 else i + 1)
  }

  lemma BypassedIsLinked(live: seq<Node>, k: nat)
    requires NoDup(live) && k < |live| && Bypassed(live, k)
    ensures Linked(At(live, if k == 0 then 1 else 0), Without(live, k))
  {
    var rest := Without(live, k);
    WithoutNoDup(live, k);
    WithoutAt(live, k, 0);
    forall i | 0 <= i < |rest|
      ensures LinkOk(rest, i)
    {
      var j := if i < k then i else i + 1;
      assert rest[i] == live[j] && PassOk(live, k, j);
      WithoutAt(live, k, i - 1);
      WithoutAt(live, k, i + 1);
    }
  }

  ghost predicate LinkOk(live: seq<Node>, i: nat)
    requires i < |live|
    reads live[i]
  {
    live[i].prev == At(live, i - 1) && live[i].next == At(live, i + 1)
  }

  /** The active list: `head` and the links spell out `live`, in both directions. */
  ghost predicate Linked(head: Node?, live: seq<Node>)
    reads live
  {
    NoDup(live) && head == At(live, 0) && forall i {:trigger LinkOk(live, i)} :: 0 <= i < |live| ==> LinkOk(live, i)
  }

  ghost predicate PoolLinkOk(free: seq<Node>, i: nat)
    requires i < |free|
    reads free[i]
  {
    free[i].poolNext == At(free, i + 1)
  }

  ghost predicate Stacked(head: Node?, free: seq<Node>)
    reads free
  {
    && NoDup(free) && head == At(free, 0)
    && forall i {:trigger PoolLinkOk(free, i)} :: 0 <= i < |free| ==> PoolLinkOk(free, i)
  }

  /** The nodes of `s` that are not going, in order. */
  ghost function Staying(s: seq<Node>, going: set<Node>): seq<Node> {
    if s == [] then [] else Staying(s[..|s| - 1], going) + (if s[|s| - 1] in going then [] else [s[|s| - 1]])
  }

  /** What comes before what in one sequence does so in the other. */
  ghost predicate SameOrder(s: seq<Node>, t: seq<Node>) {
    forall i, j, p, q :: 0 <= i < j < |s| && 0 <= p < |t| && 0 <= q < |t| && t[p] == s[i] && t[q] == s[j] ==> p < q
  }

  lemma {:induction false} StayingInOrder(s: seq<Node>, going: set<Node>)
    requires NoDup(s)
    ensures SameOrder(Staying(s, going), s)
  {
    if s != [] {
      var front := s[..|s| - 1];
      StayingInOrder(front, going);
      StayingIn(front, going);
    }
  }

  lemma {:induction false} NoneGoes(s: seq<Node>)
    ensures Staying(s, {}) == s
  {
    if s != [] {
      NoneGoes(s[..|s| - 1]);
    }
  }

  lemma StayingStep(s: seq<Node>, going: set<Node>, i: nat)
    requires i < |s|
    ensures Staying(s[..i + 1], going) == Staying(s[..i], going) + (if s[i] in going then [] else [s[i]])
  {
    assert s[..i + 1][..i] == s[..i];
  }

  /** A sweep that has visited the first `i` nodes, and what the next one leads to. */
  lemma SweptStep(all: seq<Node>, going: set<Node>, i: nat, live: seq<Node>)
    requires i < |all| && live == Staying(all[..i], going) + all[i..]
    ensures var k := |Staying(all[..i], going)|;
      && k < |live| && live[k] == all[i] && At(live, k + 1) == At(all, i + 1)
      && (if all[i] in going then Without(live, k) else live) == Staying(all[..i + 1], going) + all[i + 1..]
  {
    StayingStep(all, going, i);
  }

  lemma {:induction false} StayingIn(s: seq<Node>, going: set<Node>)
    ensures forall m :: m in Staying(s, going) <==> m in s && m !in going
    decreases |s|
  {
    if s != [] {
      StayingIn(s[..|s| - 1], going);
      assert s == s[..|s| - 1] + [s[|s| - 1]];
    }
  }

  lemma SweptMembers(all: seq<Node>, going: set<Node>, i: nat, live: seq<Node>)
    requires i <= |all| && live == Staying(all[..i], going) + all[i..]
    ensures forall m :: m in live ==> m in all
    ensures forall j :: i <= j < |all| ==> all[j] in live
  {
    StayingIn(all[..i], going);
    forall j | i <= j < |all|
      ensures all[j] in live
    {
      assert all[j] == all[i..][j - i];
    }
  }

  ghost predicate Apart(live: seq<Node>, free: seq<Node>) {
    forall n :: n in live ==> n !in free
  }

  class Registry {
    const poolMax: nat
    /** The proxied connections are counted in the metrics, the sessions are not. */
    const metered: bool
    /** curr_connections. */
    var curr: nat
    var active: Node?
    var count: nat
    var pool: Node?
    var poolSize: nat
    ghost var live: seq<Node>
    ghost var free: seq<Node>

    ghost predicate Valid()
      reads this, live, free
    {
      && Linked(active, live) && count == |live|
      && Stacked(pool, free) && poolSize == |free| <= poolMax
      && Apart(live, free)
    }

    /** The metric is the number of active connections. */
    ghost predicate Counted()
      reads this
    {
      metered ==> curr == |live|
    }

    constructor (poolMax: nat, metered: bool)
      ensures Valid() && Counted() && this.poolMax == poolMax && this.metered == metered && live == [] && free == []
    {
      this.poolMax, this.metered, curr, active, count := poolMax, metered, 0, null, 0;
      pool, poolSize, live, free := null, 0, [], [];
    }

    /** active_add. */
    method ActiveAdd(n: Node)
      requires Valid() && n !in live && n !in free
      modifies this`active, this`count, this`live, n`prev, n`next, live
      ensures Valid() && live == [n] + old(live)
    {
      n.prev := null;
      n.next := active;
      if active != null {
        active.prev := n;
      }
      active := n;
      count := count + 1;
      live := [n] + live;
      forall i | 0 <= i < |live|
        ensures LinkOk(live, i)
      {
        assert i > 0 ==> live[i] == old(live)[i - 1] && old(LinkOk(live, i - 1));
      }
      PoolKept();
    }

    /** active_remove. */
    method ActiveRemove(n: Node, ghost k: nat)
      requires Valid() && k < |live| && live[k] == n
      modifies this`active, this`count, this`live, live
      ensures Valid() && live == Without(old(live), k) && n !in live
      ensures forall m :: m in old(live) ==> m.lastActivity == old(m.lastActivity) && m.resolving == old(m.resolving)
    {
      assert LinkOk(live, k);
      if n.prev != null {
        n.prev.next := n.next;
      } else {
        active := n.next;
      }
      if n.next != null {
        n.next.prev := n.prev;
      }
      n.prev, n.next := null, null;
      count := count - 1;
      forall i | 0 <= i < |live| && i != k
        ensures PassOk(live, k, i)
      {
        assert old(LinkOk(live, i));
      }
      BypassedIsLinked(live, k);
      WithoutNoDup(live, k);
      live := Without(live, k);
      PoolKept();
    }

    /** The links of the pool are not those of the list. */
    twostate lemma PoolKept()
      requires old(Stacked(pool, free)) && pool == old(pool) && free == old(free)
      requires forall n :: n in free ==> n.poolNext == old(n.poolNext)
      ensures Stacked(pool, free)
    {
      forall i | 0 <= i < |free|
        ensures PoolLinkOk(free, i)
      {
        assert old(PoolLinkOk(free, i));
      }
    }

    /** The links of the list are not those of the pool. */
    twostate lemma ListKept()
      requires old(Linked(active, live)) && active == old(active) && live == old(live)
      requires forall n :: n in live ==> n.prev == old(n.prev) && n.next == old(n.next)
      ensures Linked(active, live)
    {
      forall i | 0 <= i < |live|
        ensures LinkOk(live, i)
      {
        assert old(LinkOk(live, i));
      }
    }

    /** The head of the pool, or fresh memory if the allocator has it. */
    method Take(granted: bool) returns (n: Node?)
      requires Valid()
      modifies this`pool, this`poolSize, this`free, free
      ensures Valid() && live == old(live) && (n == null ==> free == old(free))
      ensures n == null <==> old(free) == [] && !granted
      ensures n != null ==> n !in live && n !in free
      ensures n != null ==> if old(free) == [] then fresh(n) && free == [] else old(free) == [n] + free
      ensures n != null ==> n.lastActivity == 0 && !n.resolving
    {
      if pool == null {
        if !granted {
          return null;
        }
        n := new Node();
      } else {
        assert PoolLinkOk(free, 0);
        n := pool;
        pool := n.poolNext;
        poolSize := poolSize - 1;
        free := free[1..];
        assert old(free) == [n] + free;
        n.prev, n.next, n.poolNext, n.lastActivity, n.resolving := null, null, null, 0, false;
        forall i | 0 <= i < |free|
          ensures PoolLinkOk(free, i)
        {
          assert free[i] == old(free)[i + 1] && old(PoolLinkOk(free, i + 1));
        }
        ListKept();
      }
    }

    /** Back to the pool, or to malloc if the pool is full. */
    method Give(n: Node)
      requires Valid() && n !in live && n !in free
      modifies this`pool, this`poolSize, this`free, n`poolNext
      ensures Valid() && live == old(live)
      ensures free == if |old(free)| < poolMax then [n] + old(free) else old(free)
    {
      if poolSize < poolMax {
        n.poolNext := pool;
        pool := n;
        poolSize := poolSize + 1;
        free := [n] + free;
        forall i | 0 <= i < |free|
          ensures PoolLinkOk(free, i)
        {
          assert i > 0 ==> free[i] == old(free)[i - 1] && old(PoolLinkOk(free, i - 1));
        }
        ListKept();
      }
    }

    /** socks5_new, up to its caller's registration with the selector. */
    method Open(now: int, granted: bool) returns (n: Node?)
      requires Valid() && Counted()
      modifies this, live, free
      ensures Valid() && Counted() && (n == null ==> live == old(live)) && (n == null <==> old(free) == [] && !granted)
      ensures n != null ==> live == [n] + old(live) && n.lastActivity == now && !n.resolving
      ensures |free| <= |old(free)| && forall m :: m in free ==> m in old(free)
    {
      n := Take(granted);
      if n != null {
        n.lastActivity := now;
        ActiveAdd(n);
        if metered {
          curr := curr + 1;
        }
      }
    }

    /** The last reference is released: out of the list, into the pool. */
    method Close(n: Node, ghost k: nat)
      requires Valid() && Counted() && k < |live| && live[k] == n
      modifies this, live
      ensures Valid() && Counted() && live == Without(old(live), k)
      ensures free == if |old(free)| < poolMax then [n] + old(free) else old(free)
      ensures forall m :: m in old(live) ==> m.lastActivity == old(m.lastActivity) && m.resolving == old(m.resolving)
    {
      if metered && curr > 0 {
        curr := curr - 1;
      }
      ActiveRemove(n, k);
      Give(n);
    }

    /** mng_force_close_all. */
    method CloseAll() returns (ghost closed: nat)
      requires Valid() && Counted()
      modifies this, live
      ensures Valid() && Counted() && live == [] && active == null && closed == |old(live)|
    {
      closed := 0;
      ghost var all := live;
      while active != null
        invariant Valid() && Counted() && closed <= |all| && live == all[closed..]
        decreases |live|
      {
        assert forall n :: 0 <= n < |live| ==> live[n] == all[closed + n];
        Close(active, 0);
        closed := closed + 1;
      }
    }

    /** socks5_pool_destroy and mng_pool_destroy: every struct of the pool is freed, once. */
    method PoolDestroy() returns (ghost freed: seq<Node>)
      requires Valid()
      modifies this`pool, this`poolSize, this`free
      ensures Valid() && free == [] && freed == old(free) && live == old(live)
    {
      freed := [];
      ghost var all := free;
      while pool != null
        invariant Stacked(pool, free) && Apart(live, free) && freed + free == all
        decreases |free|
      {
        assert PoolLinkOk(free, 0);
        ghost var rest := free[1..];
        forall i | 0 <= i < |rest|
          ensures PoolLinkOk(rest, i)
        {
          assert PoolLinkOk(free, i + 1);
        }
        var next := pool.poolNext;
        freed := freed + [pool];
        free := rest;
        pool := next;
      }
      poolSize := 0;
    }

    /** The connections a sweep is to close. */
    ghost function IdleNodes(now: int, timeout: nat): set<Node>
      reads this, live
    {
      set n | n in live && Expired(n, now, timeout)
    }

    /** How far a sweep has got: it has visited the first `i` of the connections there were. */
    ghost predicate Swept(all: seq<Node>, going: set<Node>, i: nat, now: int, timeout: nat)
      reads this, all
    {
      && i <= |all| && live == Staying(all[..i], going) + all[i..]
      && forall j :: i <= j < |all| ==> (all[j] in going <==> Expired(all[j], now, timeout))
    }

    /** One step of a sweep. */
    method Visit(cur: Node, now: int, timeout: nat, ghost all: seq<Node>, ghost going: set<Node>, ghost i: nat)
        returns (next: Node?)
      requires Valid() && Counted() && Swept(all, going, i, now, timeout) && i < |all| && cur == all[i]
      modifies this, live
      ensures Valid() && Counted() && Swept(all, going, i + 1, now, timeout) && next == At(all, i + 1)
      ensures forall m :: m in live ==> m in old(live)
    {
      ghost var k := |Staying(all[..i], going)|;
      SweptStep(all, going, i, live);
      SweptMembers(all, going, i, live);
      assert LinkOk(live, k);
      next := cur.next;
      if Expired(cur, now, timeout) {
        Close(cur, k);
      }
    }

    /** The loop of a sweep.  The successor is read before the connection is closed: every node is
        visited once. */
    method VisitAll(now: int, timeout: nat) returns (ghost visited: nat)
      requires Valid() && Counted()
      modifies this, live
      ensures Valid() && Counted() && visited == |old(live)|
      ensures live == Staying(old(live), old(IdleNodes(now, timeout)))
    {
      ghost var all, going := live, IdleNodes(now, timeout);
      visited := 0;
      var cur := active;
      while cur != null
        invariant Valid() && Counted() && Swept(all, going, visited, now, timeout) && cur == At(all, visited)
        invariant forall m :: m in live ==> m in all
        decreases |all| - visited
      {
        assert forall n :: 0 <= n < |live| ==> live[n] in old(live);
        cur := Visit(cur, now, timeout, all, going, visited);
        visited := visited + 1;
      }
      assert all[..visited] == all;
    }

    /** socks5_sweep_timeouts and mng_sweep_timeouts: those stay, in their order, that were active
        less than the timeout ago or wait for the resolver; a timeout of 0 closes none. */
    method Sweep(now: int, timeout: nat) returns (ghost visited: nat)
      requires Valid() && Counted()
      modifies this, live
      ensures Valid() && Counted() && visited == |old(live)|
      ensures forall n :: n in live ==> n in old(live)
      ensures forall n :: n in old(live) ==>
        (n in live <==> timeout == 0 || old(n.resolving) || now < old(n.lastActivity) + timeout)
      ensures forall n :: n in old(live) && old(n.lastActivity) >= now ==> n in live
      ensures SameOrder(live, old(live)) && (timeout == 0 ==> live == old(live))
    {
      ghost var all, going := live, IdleNodes(now, timeout);
      StayingInOrder(all, going);
      if timeout == 0 {
        assert going == {};
        NoneGoes(all);
      }
      hide SameOrder, Staying;
      visited := VisitAll(now, timeout);
      StayingIn(all, going);
      return;
    }
  }

  const POOL_MAX := 64
  const MNG_MAX_CONNECTIONS := 16

  /** mng_passive_accept: a session more, if there is room for one and the selector takes it. */
  method Admit(r: Registry, now: int, granted: bool, registered: bool) returns (n: Node?)
    requires r.Valid() && !r.metered && r.poolMax == MNG_MAX_CONNECTIONS && |r.live| <= MNG_MAX_CONNECTIONS
    modifies r, r.live, r.free
    ensures r.Valid() && |r.live| <= MNG_MAX_CONNECTIONS && |r.free| <= MNG_MAX_CONNECTIONS
    ensures n != null ==> r.live == [n] + old(r.live)
    ensures n == null ==> r.live == old(r.live)
    ensures n != null <==> |old(r.live)| < MNG_MAX_CONNECTIONS && (old(r.free) != [] || granted) && registered
  {
    if r.count >= MNG_MAX_CONNECTIONS {
      return null;
    }
    n := r.Take(granted);
    if n == null {
      return;
    }
    n.lastActivity := now;
    if !registered {
      r.Give(n);
      return null;
    }
    r.ActiveAdd(n);
  }
}
