/**
  The shutdown of the administration channel, over all its sessions and any order of events.
*/
module MngShutdown {
  import opened Options
  import opened ByteBuffer
  import opened CredsMachine
  import opened Sockets
  import opened MngServer
  import opened MngSession
  import opened MngRun

  /** Two sessions share nothing. */
  ghost predicate Disjoint(a: Session, b: Session) {
    && a != b && a.stm != b.stm && a.cin != b.cin && a.cout != b.cout
    && {a.rb, a.wb} !! {b.rb, b.wb} && {a.rb.data, a.wb.data} !! {b.rb.data, b.wb.data}
  }

  ghost predicate AllDisjoint(ss: seq<Session>) {
    forall i, j :: 0 <= i < |ss| && 0 <= j < |ss| && i != j ==> Disjoint(ss[i], ss[j])
  }

  /** What a session has left to send, and the system's answers to its writes so far. */
  datatype Debt = Debt(left: nat, puts: seq<IoResult>)

  /** A session that drains was `told` something and has `left` bytes of it to send: it is over when
      none are, and if it did not fail all of it has been sent. */
  predicate Due(st: State, v: Snap, told: seq<byte>, left: nat) {
    match st
    case AuthRead => false
    case CmdRead => false
    case Failed => left == 0
    case Finished => left == 0 && v.sent == told
    case _ => v.draining && left == |v.pending| > 0 && v.Told() == told
  }

  ghost predicate Owes(s: Session, told: seq<byte>, d: Debt)
    reads s, s.stm, s.cin, s.cout, s.rb, s.rb.data, s.wb, s.wb.data
  {
    s.Ready() && Due(s.stm.State(), s.View(), told, d.left) && s.cout.log == d.puts
  }

  ghost predicate AllOwe(ss: seq<Session>, told: seq<seq<byte>>, debts: seq<Debt>)
    reads ss, set s <- ss :: s.stm, set s <- ss :: s.cin, set s <- ss :: s.cout
    reads set s <- ss :: s.rb, set s <- ss :: s.rb.data, set s <- ss :: s.wb, set s <- ss :: s.wb.data
  {
    |told| == |debts| == |ss| && forall i :: 0 <= i < |ss| ==> Owes(ss[i], told[i], debts[i])
  }

  /** A write of a session with something left; one that fails is over. */
  function Pay(d: Debt, n: IoResult): Debt {
    Debt(if n.WouldBlock? then d.left else if n.Moved? && n.n <= d.left then d.left - n.n else 0, d.puts + [n])
  }

  /** The write event of session `k`, if there is one to come. */
  function Step(debts: seq<Debt>, k: nat, n: IoResult): seq<Debt> {
    if k < |debts| && debts[k].left > 0 then debts[k := Pay(debts[k], n)] else debts
  }

  function After(debts: seq<Debt>, schedule: seq<nat>, answers: seq<IoResult>): (r: seq<Debt>)
    requires |schedule| == |answers|
    ensures |r| == |debts|
  {
    var n := |schedule| - 1;
    if n < 0 then debts else Step(After(debts, schedule[..n], answers[..n]), schedule[n], answers[n])
  }

  function Total(debts: seq<Debt>): nat {
    var n := |debts| - 1;
    if n < 0 then 0 else Total(debts[..n]) + debts[n].left
  }

  /** The events that move a byte, or end a session that fails. */
  function Progress(debts: seq<Debt>, schedule: seq<nat>, answers: seq<IoResult>): nat
    requires |schedule| == |answers|
  {
    var n := |schedule| - 1;
    if n < 0 then 0
    else
      Progress(debts, schedule[..n], answers[..n])
      + if Total(After(debts, schedule, answers)) < Total(After(debts, schedule[..n], answers[..n])) then 1 else 0
  }

  lemma {:induction false} TotalUpdate(debts: seq<Debt>, k: nat, d: Debt)
    requires k < |debts|
    ensures Total(debts[k := d]) == Total(debts) - debts[k].left + d.left && debts[k].left <= Total(debts)
  {
    var n := |debts| - 1;
    if k < n {
      TotalUpdate(debts[..n], k, d);
      assert debts[k := d][..n] == debts[..n][k := d];
    } else {
      assert debts[k := d][..n] == debts[..n];
    }
  }

  /** As many such events as there are bytes left end every session. */
  lemma {:induction false} DrainEnds(debts: seq<Debt>, schedule: seq<nat>, answers: seq<IoResult>)
    requires |schedule| == |answers|
    ensures Total(After(debts, schedule, answers)) + Progress(debts, schedule, answers) <= Total(debts)
    ensures Progress(debts, schedule, answers) >= Total(debts) ==>
      forall d <- After(debts, schedule, answers) :: d.left == 0
  {
    var n := |schedule| - 1;
    var after := After(debts, schedule, answers);
    if n >= 0 {
      DrainEnds(debts, schedule[..n], answers[..n]);
      var d := After(debts, schedule[..n], answers[..n]);
      var k := schedule[n];
      if k < |d| && d[k].left > 0 {
        TotalUpdate(d, k, Pay(d[k], answers[n]));
      }
    }
    forall k: nat | k < |after|
      ensures after[k].left <= Total(after)
    {
      TotalUpdate(after, k, after[k]);
    }
  }

  lemma WriteDue(from: State, ret: State, n: IoResult, v: Snap, w: Snap, told: seq<byte>, d: Debt, before: World,
      after: World, admin: Option<Creds>)
    requires Due(from, v, told, d.left) && d.left > 0 && StateOk(ret, w, admin)
    requires Steps(from, v, w, ret, before, after) && ret == Leads(from, n, v, w) && Moves(false, n, v, w)
    ensures Due(ret, w, told, Pay(d, n).left)
  {
  }

  /** The write event of one session, if it is not over. */
  method Write(s: Session, srv: Server, ghost told: seq<byte>, ghost d: Debt) returns (ghost n: IoResult)
    requires Owes(s, told, d) && srv.Valid()
    modifies s, s.stm, s.cin`unread, s.cin`log, s.cout`sent, s.cout`log, s.rb, s.rb.data, s.wb, s.wb.data
    modifies srv`socksTimeout, srv`mngTimeout, srv.table.slots
    ensures Owes(s, told, if d.left > 0 then Pay(d, n) else d) && srv.Valid()
  {
    var from := s.stm.State();
    n := WouldBlock;
    if !Over(from) {
      var st;
      ghost var v, world := s.View(), srv.View();
      st, n := s.OnEvent(false, srv);
      WriteDue(from, st, n, v, s.View(), told, d, world, srv.View(), s.admin);
    }
  }

  /** It leaves the other sessions as they are. */
  method WriteOne(ss: seq<Session>, k: nat, srv: Server, ghost told: seq<seq<byte>>, ghost debts: seq<Debt>)
      returns (ghost n: IoResult)
    requires AllDisjoint(ss) && AllOwe(ss, told, debts) && srv.Valid() && k < |ss|
    modifies ss[k], ss[k].stm, ss[k].cin`unread, ss[k].cin`log, ss[k].cout`sent, ss[k].cout`log
    modifies ss[k].rb, ss[k].rb.data, ss[k].wb, ss[k].wb.data
    modifies srv`socksTimeout, srv`mngTimeout, srv.table.slots
    ensures AllOwe(ss, told, Step(debts, k, n)) && srv.Valid()
  {
    hide Owes;
    n := Write(ss[k], srv, told[k], debts[k]);
    forall i | 0 <= i < |ss|
      ensures Owes(ss[i], told[i], Step(debts, k, n)[i])
    {
      if i != k {
        assert Disjoint(ss[i], ss[k]);
      }
    }
  }

  /** The selector's write events after the shutdown has begun, in any order. */
  method DrainAll(ss: seq<Session>, srv: Server, schedule: seq<nat>, ghost told: seq<seq<byte>>,
      ghost debts: seq<Debt>) returns (ghost answers: seq<IoResult>)
    requires AllDisjoint(ss) && AllOwe(ss, told, debts) && |debts| == |ss| && srv.Valid()
    modifies ss, set s <- ss :: s.stm, (set s <- ss :: s.cin)`unread, (set s <- ss :: s.cin)`log
    modifies (set s <- ss :: s.cout)`sent, (set s <- ss :: s.cout)`log
    modifies set s <- ss :: s.rb, set s <- ss :: s.rb.data, set s <- ss :: s.wb, set s <- ss :: s.wb.data
    modifies srv`socksTimeout, srv`mngTimeout, srv.table.slots
    ensures |answers| == |schedule| && AllOwe(ss, told, After(debts, schedule, answers))
  {
    hide AllOwe;
    answers := [];
    for i := 0 to |schedule|
      invariant srv.Valid() && |answers| == i && AllOwe(ss, told, After(debts, schedule[..i], answers))
    {
      var k := schedule[i];
      ghost var now := After(debts, schedule[..i], answers);
      ghost var n := WouldBlock;
      if k < |ss| {
        n := WriteOne(ss, k, srv, told, now);
      }
      AfterAdd(debts, schedule[..i], answers, k, n);
      answers := answers + [n];
      assert schedule[..i] + [k] == schedule[..i + 1];
    }
    assert schedule[..|schedule|] == schedule;
  }

  lemma AfterAdd(debts: seq<Debt>, schedule: seq<nat>, answers: seq<IoResult>, k: nat, n: IoResult)
    requires |schedule| == |answers|
    ensures After(debts, schedule + [k], answers + [n]) == Step(After(debts, schedule, answers), k, n)
  {
    assert (schedule + [k])[..|schedule|] == schedule && (answers + [n])[..|answers|] == answers;
  }

  /** The places of the sessions that are writing an answer. */
  function Writing(states: seq<State>): (at: seq<nat>)
    ensures forall i :: 0 <= i < |at| ==> at[i] < |states|
    ensures forall i, j :: 0 <= i < j < |at| ==> at[i] < at[j]
  {
    var n := |states| - 1;
    if n < 0 then [] else Writing(states[..n]) + if IsWriting(states[n]) then [n] else []
  }

  lemma {:induction false} WritingExact(states: seq<State>, i: nat)
    requires i < |states|
    ensures i in Writing(states) <==> IsWriting(states[i])
  {
    var n := |states| - 1;
    if i < n {
      WritingExact(states[..n], i);
    } else {
      assert i !in Writing(states[..n]);
    }
  }

  /** What a session has been told, and what it owes of that. */
  ghost function Promise(s: Session): (seq<byte>, Debt)
    reads s, s.cin, s.cout, s.rb, s.rb.data, s.wb, s.wb.data
  {
    (s.View().Told(), Debt(|s.View().pending|, s.cout.log))
  }

  /** A session between events, in state `st`, with that promise. */
  ghost predicate Stands(s: Session, st: State, p: (seq<byte>, Debt))
    reads s, s.stm, s.cin, s.cout, s.rb, s.rb.data, s.wb, s.wb.data
  {
    s.Ready() && s.stm.State() == st && Promise(s) == p
  }

  /** The sessions from the `i`-th on. */
  ghost predicate StandFrom(ss: seq<Session>, states: seq<State>, promises: seq<(seq<byte>, Debt)>, i: nat)
    requires |states| == |promises| == |ss|
    reads ss, set s <- ss :: s.stm, set s <- ss :: s.cin, set s <- ss :: s.cout
    reads set s <- ss :: s.rb, set s <- ss :: s.rb.data, set s <- ss :: s.wb, set s <- ss :: s.wb.data
  {
    forall j :: i <= j < |ss| ==> Stands(ss[j], states[j], promises[j])
  }

  /** The sessions at these places, and their promises. */
  ghost predicate Picked(ss: seq<Session>, promises: seq<(seq<byte>, Debt)>, at: seq<nat>, alive: seq<Session>,
      told: seq<seq<byte>>, debts: seq<Debt>)
    requires |promises| == |ss| && forall i :: 0 <= i < |at| ==> at[i] < |ss|
  {
    && |alive| == |told| == |debts| == |at|
    && forall i :: 0 <= i < |at| ==> alive[i] == ss[at[i]] && (told[i], debts[i]) == promises[at[i]]
  }

  /** The next session of the list is another than those picked. */
  lemma PickedApart(ss: seq<Session>, promises: seq<(seq<byte>, Debt)>, at: seq<nat>, alive: seq<Session>,
      told: seq<seq<byte>>, debts: seq<Debt>, i: nat)
    requires AllDisjoint(ss) && i < |ss| == |promises| && forall k :: 0 <= k < |at| ==> at[k] < i
    requires Picked(ss, promises, at, alive, told, debts)
    ensures forall a <- alive :: Disjoint(a, ss[i])
  {
    forall a | a in alive
      ensures Disjoint(a, ss[i])
    {
      var k :| 0 <= k < |alive| && alive[k] == a;
      assert a == ss[at[k]];
    }
  }

  lemma PickNext(ss: seq<Session>, states: seq<State>, promises: seq<(seq<byte>, Debt)>, i: nat, alive: seq<Session>,
      told: seq<seq<byte>>, debts: seq<Debt>)
    requires i < |ss| == |states| == |promises| && Picked(ss, promises, Writing(states[..i]), alive, told, debts)
    ensures
      if IsWriting(states[i]) then
        Picked(ss, promises, Writing(states[..i + 1]), alive + [ss[i]], told + [promises[i].0], debts + [promises[i].1])
      else
        Picked(ss, promises, Writing(states[..i + 1]), alive, told, debts)
  {
    assert states[..i + 1][..i] == states[..i];
  }

  /** mng_begin_shutdown on one session of the list. */
  method BeginOne(s: Session, ghost st: State, ghost p: (seq<byte>, Debt)) returns (survives: bool)
    requires Stands(s, st, p)
    modifies s`draining, s`interest
    ensures survives <==> IsWriting(st)
    ensures survives ==> Owes(s, p.0, p.1)
  {
    survives := s.BeginShutdown();
  }

  /** One more session of the list. */
  method BeginMore(s: Session, before: seq<Session>, ghost told: seq<seq<byte>>, ghost debts: seq<Debt>,
      ghost st: State, ghost p: (seq<byte>, Debt)) returns (alive: seq<Session>)
    requires Stands(s, st, p) && AllOwe(before, told, debts) && forall a <- before :: Disjoint(a, s)
    modifies s`draining, s`interest
    ensures alive == before + if IsWriting(st) then [s] else []
    ensures if IsWriting(st) then AllOwe(alive, told + [p.0], debts + [p.1]) else AllOwe(alive, told, debts)
  {
    hide Owes, Stands;
    var survives := BeginOne(s, st, p);
    alive := before;
    forall k | 0 <= k < |before|
      ensures Owes(before[k], told[k], debts[k])
    {
      assert Disjoint(before[k], s);
    }
    if survives {
      alive := before + [s];
    }
  }

  method BeginNext(s: Session, ss: seq<Session>, i: nat, ghost states: seq<State>,
      ghost promises: seq<(seq<byte>, Debt)>, before: seq<Session>, ghost told: seq<seq<byte>>,
      ghost debts: seq<Debt>) returns (alive: seq<Session>)
    requires AllDisjoint(ss) && |ss| == |states| == |promises| && i < |ss| && s == ss[i]
    requires StandFrom(ss, states, promises, i) && AllOwe(before, told, debts)
    requires forall a <- before :: Disjoint(a, s)
    modifies s`draining, s`interest
    ensures alive == before + if IsWriting(states[i]) then [s] else []
    ensures if IsWriting(states[i]) then AllOwe(alive, told + [promises[i].0], debts + [promises[i].1])
      else AllOwe(alive, told, debts)
    ensures StandFrom(ss, states, promises, i + 1)
  {
    hide Stands, AllOwe;
    alive := BeginMore(s, before, told, debts, states[i], promises[i]);
    forall j | i < j < |ss|
      ensures Stands(ss[j], states[j], promises[j])
    {
      assert Disjoint(ss[j], s);
    }
    assert StandFrom(ss, states, promises, i + 1);
  }

  /** mng_begin_shutdown: the sessions that are writing an answer go on, owing what they owed, and
      the others are closed. */
  method BeginAll(ss: seq<Session>, ghost states: seq<State>, ghost promises: seq<(seq<byte>, Debt)>)
      returns (alive: seq<Session>, ghost told: seq<seq<byte>>, ghost debts: seq<Debt>)
    requires AllDisjoint(ss) && |ss| == |states| == |promises| && StandFrom(ss, states, promises, 0)
    modifies ss`draining, ss`interest
    ensures Picked(ss, promises, Writing(states), alive, told, debts)
    ensures AllDisjoint(alive) && AllOwe(alive, told, debts)
  {
    hide Stands, Owes;
    alive, told, debts := [], [], [];
    for i := 0 to |ss|
      invariant StandFrom(ss, states, promises, i)
      invariant Picked(ss, promises, Writing(states[..i]), alive, told, debts) && AllOwe(alive, told, debts)
    {
      hide StandFrom, Picked, AllOwe;
      PickedApart(ss, promises, Writing(states[..i]), alive, told, debts, i);
      PickNext(ss, states, promises, i, alive, told, debts);
      alive := BeginNext(ss[i], ss, i, states, promises, alive, told, debts);
      if IsWriting(states[i]) {
        told, debts := told + [promises[i].0], debts + [promises[i].1];
      }
    }
    assert states[..|ss|] == states;
  }
}
