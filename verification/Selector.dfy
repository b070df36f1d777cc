/**
  The descriptor table of selector.c, with the sets and the maximum that select(2) is given.
*/
module Selector {
  import opened Sockets

  const FD_SETSIZE := 1024
  const FD_UNUSED := -1

  datatype Item = Item(fd: int, interest: Interest, data: nat)

  const UNUSED := Item(FD_UNUSED, NOOP, 0)

  datatype Status = Success | IArgs | MaxFd | FdInUse | NoMemory

  // ----- capacity -----

  function Bits(n: nat): nat { if n == 0 then 0 else 1 + Bits(n / 2) }

  function Pow2(n: nat): (p: nat)
    ensures p > 0
  {
    if n == 0 then 1 else 2 * Pow2(n - 1)
  }

  /** The power of two reached is the next one above `n`. */
  lemma {:induction false} Pow2Above(n: nat)
    ensures n < Pow2(Bits(n)) && (n > 0 ==> Pow2(Bits(n)) <= 2 * n)
  {
    if n > 0 {
      Pow2Above(n / 2);
    }
  }

  function Capacity(n: nat): nat {
    1 + if Pow2(Bits(n)) > FD_SETSIZE then FD_SETSIZE else Pow2(Bits(n))
  }

  lemma CapacityFits(n: nat)
    requires n <= FD_SETSIZE
    ensures n < Capacity(n) <= FD_SETSIZE + 1
  {
    Pow2Above(n);
  }

  /** next_capacity. */
  method NextCapacity(n: nat) returns (c: nat)
    ensures c == Capacity(n)
  {
    var bits: nat, tmp: nat := 0, n;
    while tmp != 0
      invariant bits + Bits(tmp) == Bits(n)
    {
      tmp := tmp / 2;
      bits := bits + 1;
    }
    tmp := Pow2(bits);
    Pow2Above(n);
    if tmp > FD_SETSIZE {
      tmp := FD_SETSIZE;
    }
    c := tmp + 1;
  }

  // ----- which calls stay inside the table -----

  /** The size of the table when selector_register looks at the entry of `fd`. */
  function SizeAtUse(size: nat, fd: nat): nat {
    if fd > size then Capacity(fd) else size
  }

  /** selector_register grows the table only for a descriptor beyond its size, so it stays inside
      for every descriptor but the one that equals the size. */
  lemma RegisterStaysInside(size: nat, fd: nat)
    requires fd < FD_SETSIZE
    ensures fd < SizeAtUse(size, fd) <==> fd != size
  {
    CapacityFits(fd);
  }

  /** A table made with room for nothing has two entries, and descriptor 2 falls outside it. */
  lemma RegisterOutside()
    ensures Capacity(0) == 2 && !(2 < SizeAtUse(Capacity(0), 2))
  {
  }

  /** The server's table has an entry for every descriptor select(2) can take, and never grows. */
  lemma ServerStaysInside(fd: nat)
    requires fd < FD_SETSIZE
    ensures Capacity(1024) == 1025 && fd < 1025 && SizeAtUse(1025, fd) == 1025
  {
    Pow2Above(1024);
  }

  // ----- the table -----

  class Selector {
    var fds: array?<Item>
    var size: nat
    var maxFd: nat
    var masterR: set<int>
    var masterW: set<int>

    predicate Used(i: int)
      reads `fds, fds
    {
      fds != null && 0 <= i < fds.Length && fds[i].fd != FD_UNUSED
    }

    ghost predicate Table()
      reads `fds, `size, fds
    {
      && (if fds == null then size == 0 else fds.Length == size)
      && size <= FD_SETSIZE + 1
      && forall i :: Used(i) ==> fds[i].fd == i && i < FD_SETSIZE
    }

    /** The sets given to select are exactly the registered descriptors with that interest. */
    ghost predicate Sets()
      reads this, fds
    {
      && (forall i :: i in masterR <==> Used(i) && fds[i].interest.read)
      && (forall i :: i in masterW <==> Used(i) && fds[i].interest.write)
    }

    /** max_fd is exactly the largest registered descriptor, or 0. */
    ghost predicate Largest()
      reads `fds, `maxFd, fds
    {
      (maxFd == 0 || Used(maxFd)) && forall i :: Used(i) ==> i <= maxFd
    }

    ghost predicate Valid()
      reads this, fds
    {
      Table() && Sets() && Largest()
    }

    /** The registered descriptors with their interest and attachment. */
    ghost function Entries(): map<int, Item>
      reads `fds, fds
    {
      map i | 0 <= i < (if fds == null then 0 else fds.Length) && Used(i) :: fds[i]
    }

    /** selector_new, up to the allocation of the table. */
    constructor ()
      ensures Valid() && fds == null && Entries() == map[]
    {
      fds, size, maxFd, masterR, masterW := null, 0, 0, {}, {};
    }

    /** ensure_capacity; `granted` is the allocator's answer.  The old entries keep their places, the
        new ones are unused. */
    method EnsureCapacity(n: nat, granted: bool) returns (st: Status)
      requires Valid()
      modifies this`fds, this`size
      ensures Valid() && Entries() == old(Entries())
      ensures st.Success? ==> size > n
      ensures st.MaxFd? <==> n >= old(size) && n > FD_SETSIZE
      ensures size == old(size) || (n >= old(size) && size == Capacity(n))
      ensures if size == old(size) then fds == old(fds) else fds != null && fresh(fds)
      ensures st.NoMemory? <==> old(size) <= n <= FD_SETSIZE && !granted
      ensures st.Success? || st.MaxFd? || (st.NoMemory? && size == old(size))
    {
      if n < size {
        return Success;
      }
      if n > FD_SETSIZE {
        return MaxFd;
      }
      var newSize := NextCapacity(n);
      CapacityFits(n);
      if !granted {
        return NoMemory;
      }
      var table := Enlarged(newSize);
      Move(table);
      return Success;
    }

    /** A larger table with the old entries in their places. */
    method Enlarged(newSize: nat) returns (table: array<Item>)
      requires Table() && newSize >= size
      ensures fresh(table) && table.Length == newSize
      ensures forall j :: 0 <= j < size ==> table[j] == fds[j]
      ensures forall j :: size <= j < newSize ==> table[j] == UNUSED
    {
      table := new Item[newSize](i => UNUSED);
      for i := 0 to size
        invariant forall j :: 0 <= j < i ==> table[j] == fds[j]
        invariant forall j :: i <= j < newSize ==> table[j] == UNUSED
      {
        table[i] := fds[i];
      }
    }

    method Move(table: array<Item>)
      requires Valid() && size <= table.Length <= FD_SETSIZE + 1
      requires forall j :: 0 <= j < size ==> table[j] == fds[j]
      requires forall j :: size <= j < table.Length ==> table[j] == UNUSED
      modifies this`fds, this`size
      ensures Valid() && Entries() == old(Entries()) && fds == table && size == table.Length
    {
      fds, size := table, table.Length;
      assert forall i :: Used(i) <==> old(Used(i));
    }

    /** items_update_fdset_for_fd, for a descriptor's own entry. */
    method UpdateSets(fd: nat)
      requires fds != null && fd < fds.Length && Table()
      requires forall i :: i != fd ==> (i in masterR <==> Used(i) && fds[i].interest.read)
      requires forall i :: i != fd ==> (i in masterW <==> Used(i) && fds[i].interest.write)
      modifies this`masterR, this`masterW
      ensures Table() && Sets() && (forall i :: Used(i) == old(Used(i)))
    {
      masterR := masterR - {fd};
      masterW := masterW - {fd};
      if Used(fd) {
        if fds[fd].interest.read {
          masterR := masterR + {fd};
        }
        if fds[fd].interest.write {
          masterW := masterW + {fd};
        }
      }
    }

    /** selector_register.  Its look at the entry is inside the table exactly when `fd` is not the
        size of the table. */
    method Register(fd: int, hasHandler: bool, interest: Interest, data: nat, granted: bool) returns (st: Status)
      requires Valid() && (0 <= fd < FD_SETSIZE && hasHandler ==> fd != size)
      modifies this, fds
      ensures Valid() && (st.IArgs? <==> fd < 0 || fd >= FD_SETSIZE || !hasHandler)
      ensures st.FdInUse? <==> !st.IArgs? && old(Used(fd))
      ensures st.NoMemory? <==> !st.IArgs? && fd > old(size) && !granted
      ensures st.Success? ==> !old(Used(fd)) && Entries() == old(Entries())[fd := Item(fd, interest, data)]
      ensures !st.Success? ==> Entries() == old(Entries())
      ensures size >= old(size) && (fd <= old(size) ==> size == old(size) && !st.MaxFd? && !st.NoMemory?)
      ensures if size == old(size) then fds == old(fds) else fds != null && fresh(fds)
    {
      if fd < 0 || fd >= FD_SETSIZE || !hasHandler {
        return IArgs;
      }
      RegisterStaysInside(size, fd);
      if fd > size {
        st := EnsureCapacity(fd, granted);
        if !st.Success? {
          return;
        }
      }
      st := Place(fd, interest, data);
    }

    /** The entry is taken, if it is free. */
    method Place(fd: nat, interest: Interest, data: nat) returns (st: Status)
      requires Valid() && fd < size && fd < FD_SETSIZE
      modifies this`maxFd, this`masterR, this`masterW, fds
      ensures Valid() && (st.Success? || st.FdInUse?) && (st.FdInUse? <==> old(Used(fd)))
      ensures Entries() == if st.Success? then old(Entries())[fd := Item(fd, interest, data)] else old(Entries())
    {
      if Used(fd) {
        return FdInUse;
      }
      label L:
      fds[fd] := Item(fd, interest, data);
      if fd > maxFd {
        maxFd := fd;
      }
      assert forall i :: Used(i) <==> i == fd || old@L(Used(i));
      UpdateSets(fd);
      assert Largest();
      return Success;
    }

    /** selector_set_interest. */
    method SetInterest(fd: int, interest: Interest) returns (st: Status)
      requires Valid() && (0 <= fd < FD_SETSIZE ==> fd < size)
      modifies this`masterR, this`masterW, fds
      ensures Valid() && (st.Success? || st.IArgs?) && (st.Success? <==> fd in old(Entries()))
      ensures Entries() ==
        if st.Success? then old(Entries())[fd := old(Entries())[fd].(interest := interest)] else old(Entries())
    {
      if fd < 0 || fd >= FD_SETSIZE {
        return IArgs;
      }
      if !Used(fd) {
        return IArgs;
      }
      Arm(fd, interest);
      return Success;
    }

    /** A registered descriptor gets another interest. */
    method Arm(fd: nat, interest: Interest)
      requires Valid() && Used(fd)
      modifies this`masterR, this`masterW, fds
      ensures Valid() && Used(fd) && fds[fd].interest == interest
      ensures Entries() == old(Entries())[fd := old(Entries())[fd].(interest := interest)]
    {
      fds[fd] := fds[fd].(interest := interest);
      assert forall i :: Used(i) <==> old(Used(i));
      UpdateSets(fd);
      assert Largest();
    }

    /** items_max_fd. */
    method ItemsMaxFd() returns (max: nat)
      requires Table() && maxFd < size
      requires forall i :: Used(i) ==> i <= maxFd
      ensures (max == 0 || Used(max)) && forall i :: Used(i) ==> i <= max
    {
      max := 0;
      for i := 0 to maxFd + 1
        invariant (max == 0 || Used(max)) && forall j :: 0 <= j < i && Used(j) ==> j <= max
      {
        if Used(i) && fds[i].fd > max {
          max := fds[i].fd;
        }
      }
    }

    /** selector_unregister_fd; handle_close does not come back to the selector. */
    method Unregister(fd: int) returns (st: Status)
      requires Valid() && (0 <= fd < FD_SETSIZE ==> fd < size)
      modifies this`maxFd, this`masterR, this`masterW, fds
      ensures Valid() && (st.Success? || st.IArgs?) && (st.Success? <==> fd in old(Entries()))
      ensures Entries() == old(Entries()) - {fd}
    {
      if fd < 0 || fd >= FD_SETSIZE {
        return IArgs;
      }
      if !Used(fd) {
        return IArgs;
      }
      Arm(fd, NOOP);
      Erase(fd);
      return Success;
    }

    /** The entry of a descriptor without an interest is cleared. */
    method Erase(fd: nat)
      requires Valid() && Used(fd) && fds[fd].interest == NOOP
      modifies this`maxFd, fds
      ensures Valid() && Entries() == old(Entries()) - {fd}
    {
      fds[fd] := UNUSED;
      assert forall i :: Used(i) <==> i != fd && old(Used(i));
      maxFd := ItemsMaxFd();
    }

    /** selector_destroy: every registered descriptor is unregistered. */
    method Destroy()
      requires Valid()
      modifies this, fds
      ensures Entries() == map[] && masterR == {} && masterW == {} && maxFd == 0
    {
      if fds != null {
        for i := 0 to size
          invariant Valid() && fds == old(fds) && fds != null && size == fds.Length
          invariant forall j :: 0 <= j < i ==> !Used(j)
        {
          if Used(i) {
            var st := Unregister(i);
            assert forall j :: Used(j) <==> j in Entries();
          }
        }
      }
      assert forall i :: !Used(i);
      assert forall i :: i !in masterR && i !in masterW;
    }
  }

  /** The calls that look at the entry of a descriptor. */
  datatype Call = Registering | Arming | Unregistering

  /** Only a descriptor that is not registered can lead a call out of the table: for any call but
      selector_register, exactly if it is not below the size. */
  lemma CallStaysInside(s: Selector, call: Call, fd: nat)
    requires s.Valid() && fd < FD_SETSIZE
    ensures var inside := fd < if call.Registering? then SizeAtUse(s.size, fd) else s.size;
      && (inside <==> if call.Registering? then fd != s.size else fd < s.size)
      && (fd in s.Entries() ==> inside)
  {
    RegisterStaysInside(s.size, fd);
  }

  // ----- the server's table -----

  datatype Op = Add(fd: int, interest: Interest, data: nat) | Arm(fd: int, interest: Interest) | Remove(fd: int)

  predicate InRange(fd: int) { 0 <= fd < FD_SETSIZE }

  /** What the operations mean, as a map from descriptors. */
  function Apply(m: map<int, Item>, op: Op): map<int, Item> {
    match op
    case Add(fd, i, d) => if InRange(fd) && fd !in m then m[fd := Item(fd, i, d)] else m
    case Arm(fd, i) => if fd in m then m[fd := m[fd].(interest := i)] else m
    case Remove(fd) => m - {fd}
  }

  function ApplyAll(m: map<int, Item>, ops: seq<Op>): map<int, Item> {
    if ops == [] then m else Apply(ApplyAll(m, ops[..|ops| - 1]), ops[|ops| - 1])
  }

  method Do(s: Selector, op: Op)
    requires s.Valid() && s.size == FD_SETSIZE + 1 && s.fds != null
    modifies s, s.fds
    ensures s.Valid() && s.size == old(s.size) && s.fds == old(s.fds) && s.Entries() == Apply(old(s.Entries()), op)
  {
    assert forall i :: i in s.Entries() <==> s.Used(i);
    match op {
      case Add(fd, i, d) => var st := s.Register(fd, true, i, d, true);
      case Arm(fd, i) => var st := s.SetInterest(fd, i);
      case Remove(fd) => var st := s.Unregister(fd);
    }
  }

  /** From selector_new(1024), whatever is registered, armed and removed in whatever order: the
      table stays where it is, no access leaves it, and it is exactly what the operations say,
      together with its two sets and its maximum. */
  method Run(ops: seq<Op>, granted: bool) returns (s: Selector, ok: bool)
    ensures ok == granted
    ensures ok ==> s.Valid() && s.size == 1025 && s.Entries() == ApplyAll(map[], ops)
  {
    s := new Selector();
    var st := s.EnsureCapacity(1024, granted);
    if !st.Success? {
      return s, false;
    }
    ok := true;
    ServerStaysInside(0);
    ghost var table := s.fds;
    var i := 0;
    while i < |ops|
      invariant 0 <= i <= |ops| && s.Valid() && s.size == 1025 && s.fds == table != null && fresh(table) && fresh(s)
      invariant s.Entries() == ApplyAll(map[], ops[..i])
    {
      assert ops[..i + 1][..i] == ops[..i];
      Do(s, ops[i]);
      i := i + 1;
    }
    assert ops[..i] == ops;
  }
}
