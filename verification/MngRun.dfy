/**
  A whole session of an administrator who does not pipeline, over any segmentation of what it
  sends and any partial sends of what it is told.
*/
module MngRun {
  import opened Options
  import opened AccessLog
  import opened ByteBuffer
  import opened ByteMachine
  import opened CommandMachine
  import opened CredsMachine
  import opened Sockets
  import opened Replies
  import opened Users
  import opened MngServer
  import opened MngSession

  /** The client speaks, the selector offers an event, or something else happens to the server: a
      proxied connection is logged, the counters move, another administrator gives a command. */
  datatype Turn =
    | Greets(handshake: seq<byte>)
    | Asks(command: seq<byte>)
    | Polls(readable: bool)
    | Logs(access: Access)
    | Counts(stats: Stats)
    | Commands(cmd: Command)

  ghost predicate Polite(t: Turn) {
    match t
    case Greets(m) => OneHandshake(m)
    case Asks(m) => OneCommand(m)
    case Counts(stats) => stats.Fits()
    case Commands(c) => c.Fits()
    case _ => true
  }

  /** Every message of the client there is, a message of another version, and a byte that is no
      command, are things to say when it is one's turn. */
  lemma EveryMessageIsPolite(c: Creds, foreign: seq<byte>, cmd: Command, unknown: byte)
    requires c.Fits() && cmd.Fits() && foreign != [] && foreign[0] != 1
    requires CommandFeed(CmdStart, unknown).CmdError?
    ensures Polite(Greets(EncodeCreds(c))) && Polite(Greets(foreign))
    ensures Polite(Asks(EncodeCommand(cmd))) && CommandOf(EncodeCommand(cmd)) == Some(cmd)
    ensures Polite(Asks([unknown])) && CommandOf([unknown]).None?
  {
    HandshakeIsOne(c);
    ForeignIsOne(foreign);
    CommandIsOne(cmd);
    CommandAccepts(cmd);
    CommandMachineExact();
    assert [unknown][..0] == [] && [] + [unknown] == [unknown];
    RunSnoc(COMMAND, CmdStart, [], unknown);
  }

  predicate IsWriting(st: State) { st.AuthWrite? || st.RespWrite? }

  predicate Over(s: State) { s.Finished? || s.Failed? }

  /** The command a message spells, if it is one. */
  function CommandOf(m: seq<byte>): Option<Command> {
    var s := Run(COMMAND, CmdStart, m);
    if s.CmdDone? then Some(s.cmd) else None
  }

  /** A message that was over, and what the server was at that moment. */
  datatype Question = Question(message: seq<byte>, world: World)
  {
    /** The abstract server's answer. */
    function Answer(): seq<byte> {
      EncodeReply(match CommandOf(message) case None => Status(BAD_ARGS) case Some(c) => Execute(world, c).1)
    }
  }

  /** The exchange is the answer to the question: to the command the message spells, which is all
      of the message, or to no command at all. */
  predicate Answered(x: Exchange, q: Question) {
    && x.Honest() && x.before == q.world && x.command == CommandOf(q.message)
    && (x.command.Some? ==> q.message == EncodeCommand(x.command.value))
  }

  predicate AllAnswered(history: seq<Exchange>, asked: seq<Question>) {
    |history| == |asked| && forall i :: 0 <= i < |history| ==> Answered(history[i], asked[i])
  }

  /** A session and its server between two turns, with the system's answers so far. */
  datatype Moment = Moment(state: State, session: Snap, world: World, gets: seq<IoResult>, puts: seq<IoResult>)
  {
    function Asks(): Question { Question(session.message, world) }

    predicate Armed(readable: bool) { if readable then session.interest.read else session.interest.write }
  }

  ghost function Now(s: Session, srv: Server): Moment
    reads s, s.stm, s.cin, s.cout, s.rb, s.rb.data, s.wb, s.wb.data, srv, srv.table.slots, srv.log
  {
    Moment(s.stm.State(), s.View(), srv.View(), s.cin.log, s.cout.log)
  }

  /** An event: one system call, answered `n`, and what the callback makes of it. */
  ghost predicate Polled(readable: bool, n: IoResult, a: Moment, b: Moment) {
    && b.gets == (if readable then a.gets + [n] else a.gets)
    && b.puts == (if readable then a.puts else a.puts + [n])
    && Steps(a.state, a.session, b.session, b.state, a.world, b.world)
    && b.state == Leads(a.state, n, a.session, b.session) && Moves(readable, n, a.session, b.session)
  }

  /** The client says `m`, unless it is waiting for an answer. */
  predicate Spoke(m: seq<byte>, a: Moment, b: Moment) {
    b == if a.session.message == [] then a.(session := a.session.(message := m, unread := m)) else a
  }

  /** What one turn does. */
  ghost predicate Follows(t: Turn, a: Moment, b: Moment) {
    match t
    case Greets(m) => if a.state.AuthRead? then Spoke(m, a, b) else b == a
    case Asks(m) => if a.state.CmdRead? then Spoke(m, a, b) else b == a
    case Polls(readable) => if a.Armed(readable) then exists n :: Polled(readable, n, a, b) else b == a
    case Logs(access) => b == a.(world := a.world.(log := a.world.log + [Cut(access.Line())]))
    case Counts(stats) => b == a.(world := a.world.(stats := stats))
    case Commands(c) => b == a.(world := Execute(a.world, c).0) && exists answer :: Does(a.world, c, b.world, answer)
  }

  /** A run: each moment comes from the one before by the turn that was taken. */
  ghost predicate Linked(turns: seq<Turn>, trail: seq<Moment>) {
    && 0 < |trail| <= |turns| + 1
    && var n := |trail| - 1;
      n > 0 ==> Linked(turns, trail[..n]) && Follows(turns[n - 1], trail[n - 1], trail[n])
  }

  /** The messages that were over, in order. */
  function Completed(trail: seq<Moment>): seq<Question> {
    if |trail| < 2 then []
    else var n := |trail| - 1;
      Completed(trail[..n])
      + if trail[n - 1].state.CmdRead? && trail[n].state.RespWrite? then [trail[n - 1].Asks()] else []
  }

  lemma CompletedAdd(trail: seq<Moment>, b: Moment)
    requires trail != []
    ensures var a := trail[|trail| - 1];
      Completed(trail + [b]) == Completed(trail)
        + if a.state.CmdRead? && b.state.RespWrite? then [a.Asks()] else []
  {
    assert (trail + [b])[..|trail|] == trail;
  }

  /** A turn adds an exchange exactly if it completes a command, and the exchange answers it. */
  lemma TurnAdds(t: Turn, a: Moment, b: Moment)
    requires Follows(t, a, b)
    ensures if a.state.CmdRead? && b.state.RespWrite? then
        && |b.session.history| == |a.session.history| + 1 && a.session.history <= b.session.history
        && Answered(b.session.history[|a.session.history|], a.Asks())
      else b.session.history == a.session.history
  {
  }

  lemma LinkedAdd(turns: seq<Turn>, trail: seq<Moment>, b: Moment)
    requires Linked(turns, trail) && |trail| <= |turns| && Follows(turns[|trail| - 1], trail[|trail| - 1], b)
    ensures Linked(turns, trail + [b])
  {
    hide Follows;
    assert (trail + [b])[..|trail|] == trail;
    return;
  }

  lemma AnsweredAdd(before: seq<Exchange>, after: seq<Exchange>, asked: seq<Question>, q: Question)
    requires AllAnswered(before, asked) && |after| == |before| + 1 && before <= after
    requires Answered(after[|before|], q)
    ensures AllAnswered(after, asked + [q])
  {
    hide Answered;
    assert forall i :: 0 <= i < |before| ==> after[i] == before[i];
    return;
  }

  /** The invariant of a session, or what it starts from. */
  ghost predicate Sound(m: Moment, admin: Option<Creds>) {
    StateOk(m.state, m.session, admin) || (m.state.AuthRead? && Arriving(AuthRead, m.session, admin))
  }

  /** At this moment the invariant holds, and each message that was over has got its answer. */
  ghost predicate SoundAt(trail: seq<Moment>, i: nat, admin: Option<Creds>)
    requires i < |trail|
  {
    Sound(trail[i], admin) && AllAnswered(trail[i].session.history, Completed(trail[..i + 1]))
  }

  ghost predicate AllSound(trail: seq<Moment>, admin: Option<Creds>) {
    forall i :: 0 <= i < |trail| ==> SoundAt(trail, i, admin)
  }

  lemma SoundStart(a: Moment, admin: Option<Creds>)
    requires Sound(a, admin) && a.session.history == []
    ensures AllSound([a], admin)
  {
  }

  /** One more moment. */
  lemma SoundAdd(trail: seq<Moment>, b: Moment, admin: Option<Creds>)
    requires AllSound(trail, admin) && Sound(b, admin)
    requires AllAnswered(b.session.history, Completed(trail + [b]))
    ensures AllSound(trail + [b], admin)
  {
    hide Sound, AllAnswered, Completed;
    var t := trail + [b];
    forall i | 0 <= i < |t|
      ensures SoundAt(t, i, admin)
    {
      if i < |trail| {
        assert SoundAt(trail, i, admin) && t[..i + 1] == trail[..i + 1];
      } else {
        assert t[..i + 1] == t;
      }
    }
    return;
  }

  lemma TurnAnswered(turns: seq<Turn>, trail: seq<Moment>, b: Moment, admin: Option<Creds>)
    requires Linked(turns, trail) && |trail| <= |turns| && AllSound(trail, admin) && Sound(b, admin)
    requires Follows(turns[|trail| - 1], trail[|trail| - 1], b)
    ensures Linked(turns, trail + [b]) && AllSound(trail + [b], admin)
  {
    var a := trail[|trail| - 1];
    hide Follows, Linked, Completed, AllAnswered, Answered, Sound;
    assert SoundAt(trail, |trail| - 1, admin) && trail[..|trail|] == trail;
    LinkedAdd(turns, trail, b);
    TurnAdds(turns[|trail| - 1], a, b);
    CompletedAdd(trail, b);
    if a.state.CmdRead? && b.state.RespWrite? {
      AnsweredAdd(a.session.history, b.session.history, Completed(trail), a.Asks());
    } else {
      assert Completed(trail + [b]) == Completed(trail);
    }
    SoundAdd(trail, b, admin);
    return;
  }

  /** One event, if the session is armed for it. */
  method Poll(s: Session, srv: Server, readable: bool, spoke: bool) returns (speaks: bool)
    requires s.Ready() && srv.Valid() && !Over(s.stm.State()) && (spoke <==> s.message != [])
    modifies s, s.stm, s.cin`unread, s.cin`log, s.cout`sent, s.cout`log, s.rb, s.rb.data, s.wb, s.wb.data
    modifies srv`socksTimeout, srv`mngTimeout, srv.table.slots
    ensures s.Ready() && srv.Valid() && (speaks <==> s.message != [])
    ensures Follows(Polls(readable), old(Now(s, srv)), Now(s, srv))
  {
    speaks := spoke;
    if if readable then s.interest.read else s.interest.write {
      var from := s.stm.State();
      var ret;
      ghost var n;
      ret, n := s.OnEvent(readable, srv);
      if from != ret && ret.CmdRead? {
        speaks := false;
      }
      assert Polled(readable, n, old(Now(s, srv)), Now(s, srv));
    }
  }

  /** The client says something, if it is its turn. */
  method Speak(s: Session, srv: Server, m: seq<byte>, spoke: bool) returns (speaks: bool)
    requires s.Ready() && !Over(s.stm.State()) && (spoke <==> s.message != [])
    requires (s.stm.State().AuthRead? && OneHandshake(m)) || (s.stm.State().CmdRead? && OneCommand(m))
    modifies s`message, s.cin`unread
    ensures s.Ready() && (speaks <==> s.message != []) && Spoke(m, old(Now(s, srv)), Now(s, srv))
  {
    speaks := spoke;
    if !spoke {
      s.ClientSends(m);
      speaks := m != [];
    }
  }

  /** Elsewhere a proxied connection is logged. */
  method LogElsewhere(srv: Server, access: Access)
    requires srv.Valid()
    modifies srv.log, srv.log.recent
    ensures srv.Valid()
    ensures srv.View() == old(srv.View()).(log := old(srv.View()).log + [Cut(access.Line())])
  {
    srv.log.Entry(access);
  }

  /** Another session carries out a command and writes the answer to its own buffer. */
  method CommandElsewhere(srv: Server, c: Command)
    requires srv.Valid() && c.Fits()
    modifies srv`socksTimeout, srv`mngTimeout, srv.table.slots
    ensures srv.Valid() && srv.View() == Execute(old(srv.View()), c).0
    ensures exists answer :: Does(old(srv.View()), c, srv.View(), answer)
  {
    var raw := new byte[MNG_WRITE_SIZE];
    var other := new Buffer(raw, MNG_WRITE_SIZE);
    hide Does;
    var close := srv.ExecCommand(c, other);
    return;
  }

  /** The counters move. */
  method CountElsewhere(srv: Server, stats: Stats)
    requires srv.Valid() && stats.Fits()
    modifies srv`stats
    ensures srv.Valid() && srv.View() == old(srv.View()).(stats := stats)
  {
    srv.stats := stats;
  }

  method TakeTurn(s: Session, srv: Server, t: Turn, spoke: bool) returns (speaks: bool)
    requires s.Ready() && srv.Valid() && !Over(s.stm.State()) && Polite(t) && (spoke <==> s.message != [])
    modifies s, s.stm, s.cin`unread, s.cin`log, s.cout`sent, s.cout`log, s.rb, s.rb.data, s.wb, s.wb.data
    modifies srv`socksTimeout, srv`mngTimeout, srv`stats, srv.table.slots, srv.log, srv.log.recent
    ensures s.Ready() && srv.Valid() && (speaks <==> s.message != [])
    ensures Follows(t, old(Now(s, srv)), Now(s, srv))
  {
    hide StateOk, Arriving, Polled, Session.Ready, Session.View, Server.View, Server.Valid, Execute, Does;
    speaks := spoke;
    var st := s.stm.State();
    match t {
      case Greets(m) =>
        if st.AuthRead? {
          speaks := Speak(s, srv, m, spoke);
        }
      case Asks(m) =>
        if st.CmdRead? {
          speaks := Speak(s, srv, m, spoke);
        }
      case Polls(readable) => speaks := Poll(s, srv, readable, spoke);
      case Logs(access) => LogElsewhere(srv, access);
      case Counts(stats) => CountElsewhere(srv, stats);
      case Commands(c) => CommandElsewhere(srv, c);
    }
    return;
  }

  /** A whole session, turn by turn.  At every moment the session's invariant holds, and each
      message that was over has got its answer, in order. */
  method Serve(s: Session, srv: Server, turns: seq<Turn>) returns (ghost trail: seq<Moment>)
    requires s.Ready() && srv.Valid() && s.stm.State().AuthRead? && s.message == [] && s.history == []
    requires forall i :: 0 <= i < |turns| ==> Polite(turns[i])
    modifies s, s.stm, s.cin`unread, s.cin`log, s.cout`sent, s.cout`log, s.rb, s.rb.data, s.wb, s.wb.data
    modifies srv`socksTimeout, srv`mngTimeout, srv`stats, srv.table.slots, srv.log, srv.log.recent
    ensures s.Ready() && srv.Valid() && AllSound(trail, s.admin)
    ensures Linked(turns, trail) && trail[0] == old(Now(s, srv)) && trail[|trail| - 1] == Now(s, srv)
    ensures |trail| == |turns| + 1 || Over(s.stm.State())
  {
    trail := [Now(s, srv)];
    ReadySound(s, srv);
    SoundStart(Now(s, srv), s.admin);
    hide AllSound, Sound, Polite;
    var spoke := false;
    for i := 0 to |turns|
      invariant s.Ready() && srv.Valid() && (spoke <==> s.message != []) && AllSound(trail, s.admin)
      invariant |trail| == i + 1 && Linked(turns, trail) && trail[0] == old(Now(s, srv)) && trail[i] == Now(s, srv)
    {
      if Over(s.stm.State()) {
        return;
      }
      spoke := TakeTurn(s, srv, turns[i], spoke);
      ReadySound(s, srv);
      TurnAnswered(turns, trail, Now(s, srv), s.admin);
      trail := trail + [Now(s, srv)];
    }
    return;
  }

  lemma ReadySound(s: Session, srv: Server)
    requires s.Ready()
    ensures Sound(Now(s, srv), s.admin)
  {
  }

  /** What the client has been sent and is about to be sent: the answer to its handshake and one
      complete answer for each message that was over, from the abstract server. */
  function Stream(asked: seq<Question>): seq<byte> {
    var n := |asked| - 1;
    if n < 0 then [] else Stream(asked[..n]) + asked[n].Answer()
  }

  predicate Output(m: Moment, asked: seq<Question>, admin: Option<Creds>) {
    var v, all := m.session, m.session.AuthAnswer() + Stream(asked);
    && v.Lawful(admin) && (asked != [] ==> v.authenticated)
    && match m.state
       case AuthRead => v.Unanswered() && asked == []
       case CmdRead => v.sent == all && v.pending == []
       case Finished => v.pending == [] && (v.sent == all || (v.Unanswered() && asked == []))
       case Failed => v.sent + v.pending == all || (v.Unanswered() && asked == [])
       case _ => v.sent + v.pending == all && v.pending != []
  }

  lemma {:induction false} StreamIsAnswers(history: seq<Exchange>, asked: seq<Question>)
    requires AllAnswered(history, asked)
    ensures Answers(history) == Stream(asked)
  {
    var n := |asked| - 1;
    if n >= 0 {
      StreamIsAnswers(history[..n], asked[..n]);
      assert Answered(history[n], asked[n]);
    }
  }

  lemma {:induction false} LinkedAt(turns: seq<Turn>, trail: seq<Moment>, i: nat)
    requires Linked(turns, trail) && 0 < i < |trail|
    ensures i <= |turns| && Follows(turns[i - 1], trail[i - 1], trail[i])
  {
    hide Follows;
    if i < |trail| - 1 {
      LinkedAt(turns, trail[..|trail| - 1], i);
    }
    return;
  }

  /** The server's output at every moment of a run.  A session that ends in order after it was
      answered has been sent all of its answers, the last included. */
  lemma OutputStream(turns: seq<Turn>, trail: seq<Moment>, admin: Option<Creds>, i: nat)
    requires Linked(turns, trail) && AllSound(trail, admin) && i < |trail|
    ensures Output(trail[i], Completed(trail[..i + 1]), admin)
    ensures i > 0 && IsWriting(trail[i - 1].state) && trail[i].state.Finished? ==>
      trail[i].session.sent == trail[i].session.AuthAnswer() + Stream(Completed(trail[..i + 1]))
  {
    assert SoundAt(trail, i, admin);
    StreamIsAnswers(trail[i].session.history, Completed(trail[..i + 1]));
    if i > 0 {
      assert SoundAt(trail, i - 1, admin);
      LinkedAt(turns, trail, i);
      if IsWriting(trail[i - 1].state) && trail[i].state.Finished? {
        FinishesInFull(turns[i - 1], trail[i - 1], trail[i], admin);
      }
    }
  }

  // ----- the client and its commands -----

  /** What the system answers decides where an event leads. */
  lemma AnswerDecides(readable: bool, n: IoResult, a: Moment, b: Moment, admin: Option<Creds>)
    requires Polled(readable, n, a, b) && Sound(a, admin) && !Over(a.state) && a.Armed(readable)
    ensures n.Failed? ==> b.state.Failed?
    ensures n.WouldBlock? ==> b.state == a.state
    ensures n.Eof? && readable ==> b.state.Finished?
    ensures n.Moved? && !readable ==> !b.state.Failed? && (b.state == a.state <==> n.n < |a.session.pending|)
  {
  }

  /** The answer to a handshake: of another version, wrong, or accepted, which it is exactly if both
      fields, up to their first NUL, are the administrator's. */
  lemma HandshakeAnswered(turns: seq<Turn>, trail: seq<Moment>, admin: Option<Creds>, i: nat) returns (c: Creds)
    requires Linked(turns, trail) && AllSound(trail, admin) && i + 1 < |trail|
    requires trail[i].state.AuthRead? && trail[i + 1].state.AuthWrite?
    ensures var m, answer := trail[i].session.message, trail[i + 1].session.pending;
      && m != [] && (m[0] == 1 ==> c.Fits() && m == EncodeCreds(c))
      && (answer == [1, 255] || answer == [1, 1] || answer == [1, 0])
      && (answer == [1, 255] <==> m[0] != 1)
      && (answer == [1, 0] <==>
          m[0] == 1 && admin.Some? && CStr(c.user) == admin.value.user && CStr(c.pass) == admin.value.pass)
    ensures var m, answer := trail[i].session.message, trail[i + 1].session.pending;
      m[0] == 1 && 0 !in c.user && 0 !in c.pass && admin.Some? && admin.value.Fits() ==>
        (answer == [1, 0] <==> m == EncodeCreds(admin.value))
  {
    var a, b := trail[i], trail[i + 1];
    hide Linked, Sound, EncodeCreds, CStr;
    assert SoundAt(trail, i, admin) && SoundAt(trail, i + 1, admin);
    LinkedAt(turns, trail, i + 1);
    FirstAnswer(turns[i], a, b, admin);
    if b.session.presented.Some? {
      c := b.session.presented.value;
      VersionByte(c);
      if admin.Some? && admin.value.Fits() && a.session.message == EncodeCreds(admin.value) {
        CredsAccepts(c);
        CredsAccepts(admin.value);
      }
    } else {
      c := Creds([], []);
    }
    return;
  }

  lemma VersionByte(c: Creds)
    ensures EncodeCreds(c) != [] && EncodeCreds(c)[0] == 1
  {
  }

  lemma FirstAnswer(t: Turn, a: Moment, b: Moment, admin: Option<Creds>)
    requires Follows(t, a, b) && Sound(a, admin) && Sound(b, admin) && a.state.AuthRead? && b.state.AuthWrite?
    ensures var m, v := a.session.message, b.session;
      match v.presented
      case None => m != [] && m[0] != 1 && v.pending == [1, 255]
      case Some(c) =>
        && c.Fits() && m == EncodeCreds(c)
        && v.pending == [1, if admin.Some? && CStr(c.user) == admin.value.user && CStr(c.pass) == admin.value.pass
            then 0 else 1]
  {
    hide EncodeCreds, CStr, OneHandshake, Run;
    assert b.session.sent == [] && Answers(b.session.history) == [];
    assert b.session.sent + b.session.pending == b.session.pending;
    return;
  }

  /** In any run only the administrator gets to give commands: `j` is the moment at which a handshake
      with the right name and the right password was complete, and accepted. */
  lemma {:induction false} OnlyTheAdmin(turns: seq<Turn>, trail: seq<Moment>, admin: Option<Creds>, i: nat)
      returns (j: nat, c: Creds)
    requires Linked(turns, trail) && AllSound(trail, admin) && trail[0].state.AuthRead? && i < |trail|
    requires trail[i].session.authenticated || trail[i].session.history != []
    ensures j < i && trail[j].state.AuthRead? && trail[j + 1].state.AuthWrite?
    ensures trail[j].session.message == EncodeCreds(c) && trail[j + 1].session.pending == [1, 0]
    ensures admin.Some? && CStr(c.user) == admin.value.user && CStr(c.pass) == admin.value.pass
    ensures trail[i].session.presented == Some(c)
  {
    hide Linked, Sound, EncodeCreds, CStr, Follows;
    assert SoundAt(trail, i, admin);
    GreetedRight(trail[i], admin);
    var a, b := trail[i - 1], trail[i];
    assert SoundAt(trail, i - 1, admin);
    LinkedAt(turns, trail, i);
    StaysTheClient(turns[i - 1], a, b, admin);
    if a.state.AuthRead? {
      j, c := i - 1, b.session.presented.value;
      FirstAnswer(turns[i - 1], a, b, admin);
    } else {
      j, c := OnlyTheAdmin(turns, trail, admin, i - 1);
    }
    return;
  }

  lemma GreetedRight(m: Moment, admin: Option<Creds>)
    requires Sound(m, admin)
    ensures m.session.history != [] ==> m.session.authenticated
    ensures m.session.authenticated ==>
      && !m.state.AuthRead? && m.session.presented.Some? && admin.Some?
      && CStr(m.session.presented.value.user) == admin.value.user
      && CStr(m.session.presented.value.pass) == admin.value.pass
  {
  }

  lemma StaysTheClient(t: Turn, a: Moment, b: Moment, admin: Option<Creds>)
    requires Follows(t, a, b) && Sound(a, admin) && b.session.authenticated && !b.state.AuthRead?
    ensures if a.state.AuthRead? then b.state.AuthWrite? else
      b.session.presented == a.session.presented && a.session.authenticated
  {
  }

  /** A message that is over has done what the command it spells does, for the accounts, the timeout,
      the log and the counters of that moment, and is answered so; any other has done nothing. */
  lemma CommandAnswered(turns: seq<Turn>, trail: seq<Moment>, i: nat)
    requires Linked(turns, trail) && i + 1 < |trail| && trail[i].state.CmdRead? && trail[i + 1].state.RespWrite?
    ensures var a, b := trail[i], trail[i + 1];
      match CommandOf(a.session.message)
      case Some(c) => Does(a.world, c, b.world, b.session.pending) && a.session.message == EncodeCommand(c)
      case None => b.world == a.world && b.session.pending == [3]
  {
    LinkedAt(turns, trail, i + 1);
    hide Does, EncodeCommand, Linked, Run;
    return;
  }

  /** A session that is not shut down never drains. */
  lemma {:induction false} NeverDrains(turns: seq<Turn>, trail: seq<Moment>, admin: Option<Creds>, i: nat)
    requires Linked(turns, trail) && AllSound(trail, admin) && trail[0].state.AuthRead? && i < |trail|
    ensures !trail[i].session.draining
  {
    if i == 0 {
      assert SoundAt(trail, 0, admin);
    } else {
      NeverDrains(turns, trail, admin, i - 1);
      LinkedAt(turns, trail, i);
    }
  }

  /** An administrator's session goes on after an answer exactly if the command answered was not
      CLOSE; after CLOSE it ends, in order if the answer gets out. */
  lemma ClosesOnCommand(turns: seq<Turn>, trail: seq<Moment>, admin: Option<Creds>, i: nat) returns (last: Question)
    requires Linked(turns, trail) && AllSound(trail, admin) && trail[0].state.AuthRead? && i + 1 < |trail|
    requires trail[i].state.RespWrite? && !trail[i + 1].state.RespWrite? && !trail[i + 1].state.Failed?
    ensures var asked := Completed(trail[..i + 1]); asked != [] && last == asked[|asked| - 1]
    ensures CommandOf(last.message) == Some(CloseSession) <==> trail[i + 1].state.Finished?
    ensures CommandOf(last.message) != Some(CloseSession) <==> trail[i + 1].state.CmdRead?
  {
    hide Sound, Linked, Follows, Completed, AllAnswered, CommandOf, Closes;
    var asked := Completed(trail[..i + 1]);
    assert SoundAt(trail, i, admin);
    NeverDrains(turns, trail, admin, i);
    LinkedAt(turns, trail, i + 1);
    AnswerOut(turns[i], trail[i], trail[i + 1], admin);
    LastAnswered(trail[i].session.history, asked);
    last := asked[|asked| - 1];
    return;
  }

  lemma AnswerOut(t: Turn, a: Moment, b: Moment, admin: Option<Creds>)
    requires Follows(t, a, b) && Sound(a, admin) && !a.session.draining
    requires a.state.RespWrite? && !b.state.RespWrite? && !b.state.Failed?
    ensures a.session.history != []
    ensures if Closes(a.session.history) then b.state.Finished? else b.state.CmdRead?
  {
    hide Closes, Steps, Moves;
    return;
  }

  lemma LastAnswered(history: seq<Exchange>, asked: seq<Question>)
    requires AllAnswered(history, asked) && history != []
    ensures asked != [] && (Closes(history) <==> CommandOf(asked[|asked| - 1].message) == Some(CloseSession))
  {
    assert Answered(history[|history| - 1], asked[|asked| - 1]);
    hide AllAnswered, CommandOf, EncodeCommand, Exchange.Honest;
    return;
  }

  lemma FinishesInFull(t: Turn, a: Moment, b: Moment, admin: Option<Creds>)
    requires Follows(t, a, b) && Sound(a, admin) && Sound(b, admin) && IsWriting(a.state) && b.state.Finished?
    ensures b.session.sent == b.session.Told()
  {
    var n :| Polled(false, n, a, b);
    assert b.session.sent == a.session.sent + a.session.pending;
  }
}
