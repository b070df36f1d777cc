/**
  The administrator's commands: what exec_command does to the server, and the answer it gives.
*/
module MngServer {
  import opened ByteBuffer
  import opened CredsMachine
  import opened CommandMachine
  import opened Users
  import opened AccessLog
  import opened Replies
  import opened ReplyWriter

  const MNG_WRITE_SIZE := 65536

  /** What the commands read and change. */
  datatype World = World(slots: seq<Slot>, timeout: nat, log: seq<seq<byte>>, stats: Stats)
  {
    predicate Fits() {
      && |slots| == MAX_USERS && (forall i :: 0 <= i < |slots| ==> slots[i].Fits())
      && (forall i :: 0 <= i < |log| ==> |log[i]| < LOG_LINE_MAX && 0 !in log[i]) && stats.Fits()
    }
  }

  function AddStatus(r: Added): byte {
    match r
    case Ok => OK
    case Full => FULL
    case Exists => NOT_FOUND
  }

  function Execute(w: World, c: Command): (World, Reply) {
    match c
    case AddUser(u, p) =>
      var (r, slots) := AddTo(w.slots, CStr(u), CStr(p));
      (w.(slots := slots), Status(AddStatus(r)))
    case DelUser(u) =>
      var (found, slots) := DelFrom(w.slots, CStr(u));
      (w.(slots := slots), Status(if found then OK else NOT_FOUND))
    case ListUsers => (w, UserList(Names(w.slots)))
    case GetStats => (w, Counters(w.stats))
    case SetTimeout(t) => (w.(timeout := t), Status(OK))
    case GetLog => (w, Entries(Recent(w.log)))
    case CloseSession => (w, Status(OK))
  }

  /** Someone has an account under this name. */
  ghost predicate Taken(w: World, name: seq<byte>) { exists a :: a in Accounts(w.slots) && a.user == name }

  /** There is no room for another account. */
  predicate NoRoom(w: World) { forall i :: 0 <= i < |w.slots| ==> w.slots[i].inUse }

  /** A list of the names that have an account, each once. */
  ghost predicate Lists(names: seq<seq<byte>>, w: World) {
    forall n :: (n in names <==> Taken(w, n)) && multiset(names)[n] <= 1
  }

  /** What each command does to the accounts, the timeout and the rest, and the bytes that answer it. */
  ghost predicate Does(before: World, c: Command, after: World, answer: seq<byte>) {
    match c
    case AddUser(u, p) =>
      var fails := Taken(before, CStr(u)) || NoRoom(before);
      && after == before.(slots := after.slots)
      && Accounts(after.slots) == Accounts(before.slots) + (if fails then {} else {Creds(CStr(u), CStr(p))})
      && answer == if Taken(before, CStr(u)) then [1] else if NoRoom(before) then [2] else [0]
    case DelUser(u) =>
      && after == before.(slots := after.slots)
      && Accounts(after.slots) == (set a | a in Accounts(before.slots) && a.user != CStr(u))
      && answer == if Taken(before, CStr(u)) then [0] else [1]
    case SetTimeout(t) => after == before.(timeout := t) && answer == [0]
    case ListUsers => after == before && exists names :: Lists(names, before) && answer == EncodeReply(UserList(names))
    case GetStats => after == before && answer == EncodeReply(Counters(before.stats))
    case GetLog =>
      && after == before
      && var n := |before.log|; answer == EncodeReply(Entries(before.log[if n > 100 then n - 100 else 0..]))
    case CloseSession => after == before && answer == [0]
  }

  lemma TakenIsNamed(w: World, name: seq<byte>)
    ensures Taken(w, name) <==> Named(w.slots, name)
  {
    if Named(w.slots, name) {
      var s :| s in w.slots && s.inUse && s.name == name;
      assert Creds(s.name, s.pass) in Accounts(w.slots);
    }
  }

  lemma Executes(w: World, c: Command)
    requires Distinct(w.slots)
    ensures Does(w, c, Execute(w, c).0, EncodeReply(Execute(w, c).1))
  {
    match c
    case AddUser(u, p) =>
      TakenIsNamed(w, CStr(u));
      AddExact(w.slots, CStr(u), CStr(p));
    case DelUser(u) =>
      TakenIsNamed(w, CStr(u));
      DelExact(w.slots, CStr(u));
    case ListUsers => NamesList(w);
    case _ =>
  }

  lemma NamesList(w: World)
    requires Distinct(w.slots)
    ensures Lists(Names(w.slots), w)
  {
    forall n
      ensures (n in Names(w.slots) <==> Taken(w, n)) && multiset(Names(w.slots))[n] <= 1
    {
      NamesExact(w.slots, n);
      TakenIsNamed(w, n);
    }
  }

  lemma {:induction false} NamesFit(slots: seq<Slot>)
    requires forall i :: 0 <= i < |slots| ==> slots[i].Fits()
    ensures |Names(slots)| <= |slots|
    ensures forall i :: 0 <= i < |Names(slots)| ==> |Names(slots)[i]| <= 255
    decreases |slots|
  {
    if slots != [] {
      NamesFit(slots[..|slots| - 1]);
    }
  }

  /** Every answer can be encoded: no byte of it is ever dropped by the buffer, and the client's
      decoders read it back. */
  lemma RepliesFit(w: World, c: Command)
    requires w.Fits()
    ensures Execute(w, c).1.Fits()
  {
    NamesFit(w.slots);
  }

  class Server {
    const table: UserTable
    const log: Log
    var socksTimeout: nat
    var mngTimeout: nat
    /** The metrics. */
    var stats: Stats

    ghost predicate Valid()
      reads this, table.slots, log, log.recent
    {
      table.Valid() && log.Valid() && stats.Fits() && socksTimeout == mngTimeout
    }

    ghost function View(): World
      reads this, table.slots, log
    {
      World(table.slots[..], socksTimeout, log.all, stats)
    }

    lemma Distinguishes()
      requires Valid()
      ensures Distinct(View().slots)
    {
    }

    constructor (table: UserTable, log: Log)
      requires table.Valid() && log.Valid()
      ensures Valid() && this.table == table && this.log == log
    {
      this.table, this.log, socksTimeout, mngTimeout, stats := table, log, 60, 60, Stats(0, 0, 0, 0);
    }

    /** exec_command, from the buffer_reset on. */
    method ExecCommand(c: Command, b: Buffer) returns (close: bool)
      requires Valid() && c.Fits() && b.limit <= b.data.Length && b.limit == MNG_WRITE_SIZE
      modifies this`socksTimeout, this`mngTimeout, table.slots, b, b.data
      ensures Valid() && View() == Execute(old(View()), c).0
      ensures b.Valid() && b.Contents() == EncodeReply(Execute(old(View()), c).1)
      ensures Does(old(View()), c, View(), b.Contents())
      ensures close <==> c.CloseSession?
    {
      Executes(View(), c);
      RepliesFit(View(), c);
      hide Does, Execute, EncodeReply, World.Fits;
      b.Reset();
      close := c.CloseSession?;
      var reply := Perform(c);
      WriteReply(b, reply);
      return;
    }

    /** What there is to do and to answer. */
    method Perform(c: Command) returns (r: Reply)
      requires Valid() && c.Fits()
      modifies this`socksTimeout, this`mngTimeout, table.slots
      ensures Valid() && (View(), r) == Execute(old(View()), c)
    {
      if c.AddUser? || c.DelUser? {
        r := ChangeUsers(c);
      } else if c.SetTimeout? {
        socksTimeout, mngTimeout := c.seconds, c.seconds;
        r := Status(OK);
      } else {
        r := Query(c);
      }
    }

    method ChangeUsers(c: Command) returns (r: Reply)
      requires Valid() && c.Fits() && (c.AddUser? || c.DelUser?)
      modifies table.slots
      ensures Valid() && (View(), r) == Execute(old(View()), c)
    {
      if c.AddUser? {
        var added := table.AddUser(CStr(c.user), CStr(c.pass));
        r := Status(AddStatus(added));
      } else {
        var found := table.DelUser(CStr(c.user));
        r := Status(if found then OK else NOT_FOUND);
      }
    }

    method Query(c: Command) returns (r: Reply)
      requires Valid() && !c.AddUser? && !c.DelUser? && !c.SetTimeout?
      ensures (View(), r) == Execute(View(), c)
    {
      match c {
        case ListUsers =>
          var names := table.ListUsers();
          r := UserList(names);
        case GetStats => r := Counters(stats);
        case GetLog =>
          var entries := log.GetRecent(LOG_RECENT_MAX);
          r := Entries(entries);
        case _ => r := Status(OK);
      }
    }
  }
}
