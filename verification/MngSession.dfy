/**
  One administrator's session of the MNG/1 protocol: the state table of monitor.c driven by
  stm.c, for a client that waits for each answer before it sends its next message.
*/
module MngSession {
  import opened Options
  import opened ByteBuffer
  import opened ByteMachine
  import opened CredsMachine
  import opened CommandMachine
  import opened Sockets
  import opened Stm
  import opened Users
  import opened Replies
  import opened MngServer

  const MNG_READ_SIZE := 2048
  const VER_UNSUPPORTED: byte := 255

  datatype State = AuthRead | AuthWrite | CmdRead | RespWrite | Finished | Failed

  predicate HasArrival(s: State) { s.AuthRead? || s.CmdRead? }

  /** The state table: the callback for a readable or a writable session. */
  predicate Handles(s: State, readable: bool) {
    if readable then s.AuthRead? || s.CmdRead? else s.AuthWrite? || s.RespWrite?
  }

  predicate CommandOpen(m: seq<byte>) { CommandStatus(Run(COMMAND, CmdStart, m)).Live? }

  predicate HandshakeOpen(m: seq<byte>) { !CredsStatus(Run(CREDS, CredsVersion, m)).Done? }

  /** What a client may send when it is its turn: at most one command, and nothing beyond its end. */
  ghost predicate OneCommand(m: seq<byte>) {
    forall k: nat {:trigger CommandOpen(m[..k])} :: k < |m| ==> CommandOpen(m[..k])
  }

  /** The same for a handshake; one of another version may be of any form. */
  ghost predicate OneHandshake(m: seq<byte>) {
    forall k: nat {:trigger HandshakeOpen(m[..k])} :: k < |m| ==> HandshakeOpen(m[..k])
  }

  lemma CommandIsOne(c: Command)
    requires c.Fits()
    ensures OneCommand(EncodeCommand(c))
  {
    var m := EncodeCommand(c);
    CommandAccepts(c);
    CommandMachineExact();
    forall k: nat | k < |m|
      ensures CommandOpen(m[..k])
    {
      RunStopped(COMMAND, CmdStart, m, m[..k]);
    }
  }

  lemma HandshakeIsOne(c: Creds)
    requires c.Fits()
    ensures OneHandshake(EncodeCreds(c))
  {
    var m := EncodeCreds(c);
    CredsAccepts(c);
    CredsMachineExact();
    forall k: nat | k < |m|
      ensures HandshakeOpen(m[..k])
    {
      RunStopped(CREDS, CredsVersion, m, m[..k]);
    }
  }

  lemma ForeignIsOne(m: seq<byte>)
    requires m != [] && m[0] != 1
    ensures OneHandshake(m)
  {
    CredsMachineExact();
    forall k: nat | k < |m|
      ensures HandshakeOpen(m[..k])
    {
      if k > 0 {
        RunStuck(CREDS, CredsError, m[..k][1..]);
      }
    }
  }

  /** However the command was segmented, it is over only when it has all been read. */
  lemma CommandTaken(m: seq<byte>, taken: seq<byte>)
    requires OneCommand(m) && taken <= m
    ensures var s := Run(COMMAND, CmdStart, taken);
      && (!CommandStatus(s).Live? ==> taken == m)
      && (s.CmdDone? ==> s.cmd.Fits() && taken == EncodeCommand(s.cmd))
  {
    CommandMachineExact();
    RunWritten(COMMAND, CmdStart, taken);
    assert taken == m[..|taken|] && [] + taken == taken;
    assert |taken| < |m| ==> CommandOpen(m[..|taken|]);
    if Run(COMMAND, CmdStart, taken).CmdDone? {
      assert taken == m;
      CommandWhole(m);
    }
  }

  /** A message that is over at its end is the encoding of what was parsed. */
  lemma CommandWhole(m: seq<byte>)
    requires OneCommand(m) && Run(COMMAND, CmdStart, m).CmdDone?
    ensures m == EncodeCommand(Run(COMMAND, CmdStart, m).cmd)
  {
    CommandMachineExact();
    RunWritten(COMMAND, CmdStart, m);
    var e := EncodeCommand(Run(COMMAND, CmdStart, m).cmd);
    assert [] + m == m && e == m[..|e|];
    assert |e| < |m| ==> CommandOpen(m[..|e|]);
    CommandAccepts(Run(COMMAND, CmdStart, m).cmd);
  }

  lemma HandshakeTaken(m: seq<byte>, taken: seq<byte>)
    requires OneHandshake(m) && taken <= m && Run(CREDS, CredsVersion, taken).CredsDone?
    ensures taken == m == EncodeCreds(Run(CREDS, CredsVersion, taken).creds)
    ensures Run(CREDS, CredsVersion, taken).creds.Fits()
  {
    var c := Run(CREDS, CredsVersion, taken).creds;
    CredsMachineExact();
    RunWritten(CREDS, CredsVersion, taken);
    assert [] + taken == taken && taken == m[..|taken|];
    assert |taken| < |m| ==> HandshakeOpen(m[..|taken|]);
    var e := EncodeCreds(c);
    CredsAccepts(c);
    assert e == m[..|e|];
    assert |e| < |m| ==> HandshakeOpen(m[..|e|]);
  }

  /** Only the version can be wrong. */
  lemma HandshakeRefused(taken: seq<byte>)
    requires taken != [] && Run(CREDS, CredsVersion, taken).CredsError?
    ensures taken[0] != 1
  {
    CredsFails(taken);
  }

  /** One command carried out: what the server was, what it was asked, what it answered. */
  datatype Exchange = Exchange(before: World, command: Option<Command>, answer: seq<byte>)
  {
    predicate Honest() {
      answer == EncodeReply(match command case None => Status(BAD_ARGS) case Some(c) => Execute(before, c).1)
    }
  }

  function Answers(history: seq<Exchange>): seq<byte> {
    if history == [] then [] else Answers(history[..|history| - 1]) + history[|history| - 1].answer
  }

  lemma AnswersAdd(history: seq<Exchange>, x: Exchange)
    ensures Answers(history + [x]) == Answers(history) + x.answer
  {
    assert (history + [x])[..|history|] == history;
  }

  /** The last command was CLOSE. */
  predicate Closes(history: seq<Exchange>) {
    history != [] && history[|history| - 1].command == Some(CloseSession)
  }

  /** strcmp on both fields; there may be no administrator. */
  predicate IsAdmin(admin: Option<Creds>, c: Creds) {
    admin.Some? && Creds(CStr(c.user), CStr(c.pass)) == admin.value
  }

  /** A session as values.  `message` is what the client is sending, `taken` what has been parsed
      of it, `unread` what has not arrived; `presented` the credentials it gave. */
  datatype Snap = Snap(
    interest: Interest, auth: CredsState, cmd: CommandState, authenticated: bool, closing: bool, draining: bool,
    message: seq<byte>, taken: seq<byte>, unread: seq<byte>, buffered: seq<byte>, pending: seq<byte>, sent: seq<byte>,
    presented: Option<Creds>, history: seq<Exchange>)
  {
    /** The answer to the handshake. */
    function AuthAnswer(): seq<byte> {
      [1, if presented.None? then VER_UNSUPPORTED else if authenticated then 0 else 1]
    }

    /** Everything the client has been told, or is about to be. */
    function Told(): seq<byte> { AuthAnswer() + Answers(history) }

    /** Commands are carried out only for an administrator. */
    predicate Lawful(admin: Option<Creds>) {
      && authenticated == (presented.Some? && IsAdmin(admin, presented.value))
      && (history != [] ==> authenticated)
    }

    /** What was presented is what the client sent, a handshake or something of another version. */
    predicate Presents() {
      match presented
      case Some(c) => message == EncodeCreds(c) && c.Fits()
      case None => message != [] && message[0] != 1
    }

    /** The client has not been told anything yet. */
    predicate Unanswered() {
      sent == [] && pending == [] && history == [] && presented.None? && !authenticated
    }

    predicate Reading() {
      interest == READ && buffered == [] && pending == [] && taken + unread == message && !draining
    }

    predicate Writing() { interest == WRITE && pending != [] && sent + pending == Told() }
  }

  ghost predicate StateOk(s: State, v: Snap, admin: Option<Creds>) {
    match s
    case AuthRead =>
      && v.Reading() && OneHandshake(v.message) && v.auth == Run(CREDS, CredsVersion, v.taken)
      && CredsStatus(v.auth).Live? && v.sent == [] && v.history == [] && v.presented.None? && !v.authenticated
    case AuthWrite =>
      && v.Writing() && v.Lawful(admin) && v.history == [] && (v.authenticated ==> v.unread == [])
      && v.Presents()
    case CmdRead =>
      && v.Reading() && OneCommand(v.message) && v.cmd == Run(COMMAND, CmdStart, v.taken)
      && CommandStatus(v.cmd).Live? && v.sent == v.Told() && v.Lawful(admin) && v.authenticated && !v.closing
    case RespWrite =>
      && v.Writing() && v.Lawful(admin) && v.authenticated && v.history != [] && v.unread == []
      && v.closing == Closes(v.history)
    case Finished => v.Lawful(admin) && v.pending == [] && (v.sent == v.Told() || v.Unanswered())
    case Failed => v.Lawful(admin) && (v.sent + v.pending == v.Told() || v.Unanswered())
  }

  /** What must hold for the arrival callback of a state to run.  The answer has been sent, so the
      client's next message starts here. */
  ghost predicate Arriving(s: State, v: Snap, admin: Option<Creds>) {
    match s
    case AuthRead =>
      && v.Reading() && v.taken == [] && OneHandshake(v.message)
      && v.sent == [] && v.history == [] && v.presented.None? && !v.authenticated
    case CmdRead =>
      && v.pending == [] && v.unread == [] && v.sent == v.Told() && v.Lawful(admin) && v.authenticated && !v.draining
    case _ => false
  }

  /** The arrival callbacks. */
  function Arrived(s: State, v: Snap): Snap {
    if s.AuthRead? then v.(auth := CredsVersion, interest := READ)
    else v.(
      cmd := CmdStart, closing := false, interest := READ, message := [], taken := [], buffered := [], pending := [])
  }

  lemma ArriveKeeps(s: State, v: Snap, admin: Option<Creds>)
    requires Arriving(s, v, admin)
    ensures StateOk(s, Arrived(s, v), admin)
  {
  }

  /** What a handler of `from` leaves behind when it returns `to`.  A session that finishes while
      it writes has sent all of its answers, and one that is shutting down never reads again. */
  ghost predicate Leaves(from: State, to: State, v: Snap, admin: Option<Creds>) {
    if to == from then StateOk(to, v, admin)
    else if to.CmdRead? then Arriving(to, v, admin)
    else !to.AuthRead? && StateOk(to, v, admin) && (to.Finished? ==> from.AuthRead? || v.sent == v.Told())
  }

  /** A state that is entered has its arrival callback to run, or needs none. */
  lemma LeavesEnters(from: State, to: State, v: Snap, admin: Option<Creds>)
    requires Leaves(from, to, v, admin)
    ensures if to != from && HasArrival(to) then to.CmdRead? && Arriving(to, v, admin) else StateOk(to, v, admin)
  {
  }

  /** A step of a session that is shutting down: it answers no more, sends what it has left, and
      finishes in order only when all of that is out. */
  predicate Drains(v: Snap, w: Snap, ret: State) {
    && w.draining && w.history == v.history && w.presented == v.presented && w.authenticated == v.authenticated
    && |w.pending| <= |v.pending| && !ret.AuthRead? && !ret.CmdRead?
    && (ret.Finished? ==> w.pending == [] && w.sent == w.Told())
  }

  /** Part of a message has been received and parsed. */
  predicate Advanced(v: Snap, w: Snap) {
    && w == v.(cmd := w.cmd, taken := w.taken, unread := w.unread, buffered := w.buffered)
    && w.taken + w.buffered + w.unread == w.message && w.taken != []
    && w.cmd == Run(COMMAND, CmdStart, w.taken) && (CommandStatus(w.cmd).Live? ==> w.buffered == [])
  }

  lemma StillReading(v: Snap, w: Snap, admin: Option<Creds>)
    requires StateOk(CmdRead, v, admin) && Advanced(v, w) && CommandStatus(w.cmd).Live?
    ensures StateOk(CmdRead, w, admin)
  {
  }

  /** The message is over, and all of it has been parsed. */
  lemma MessageOver(v: Snap, w: Snap, admin: Option<Creds>)
    requires StateOk(CmdRead, v, admin) && Advanced(v, w) && !CommandStatus(w.cmd).Live?
    ensures w.taken == w.message && w.unread == [] && w.sent == w.Told() && w.Lawful(admin) && w.authenticated
    ensures !w.closing
    ensures w.cmd.CmdError? || (w.cmd.CmdDone? && w.cmd.cmd.Fits() && w.message == EncodeCommand(w.cmd.cmd))
  {
    CommandTaken(w.message, w.taken);
  }

  lemma HandshakeStands(v: Snap, admin: Option<Creds>)
    requires StateOk(AuthRead, v, admin)
    ensures StateOk(Finished, v, admin) && StateOk(State.Failed, v, admin) && v.Unanswered() && !v.draining
    ensures OneHandshake(v.message)
  {
  }

  lemma StillGreeting(v: Snap, w: Snap, admin: Option<Creds>)
    requires StateOk(AuthRead, v, admin) && CredsStatus(w.auth).Live?
    requires w == v.(auth := w.auth, taken := w.taken, unread := w.unread, buffered := w.buffered)
    requires w.taken + w.buffered + w.unread == w.message && w.buffered == []
    requires w.auth == Run(CREDS, CredsVersion, w.taken)
    ensures StateOk(AuthRead, w, admin)
  {
  }

  lemma StillInOrder(sent: seq<byte>, pending: seq<byte>, n: nat)
    requires n <= |pending|
    ensures (sent + pending[..n]) + pending[n..] == sent + pending
  {
  }

  lemma ReadingEnds(v: Snap, admin: Option<Creds>)
    requires StateOk(CmdRead, v, admin)
    ensures StateOk(Finished, v, admin) && StateOk(State.Failed, v, admin) && v.sent == v.Told() && !v.draining
  {
  }

  lemma ArmedIsHandled(s: State, v: Snap, admin: Option<Creds>, readable: bool)
    requires StateOk(s, v, admin) && !s.Finished? && !s.Failed?
    ensures (if readable then v.interest.read else v.interest.write) ==> Handles(s, readable)
  {
  }

  class Session {
    const stm: StateMachine<State>
    const cin: InPort
    const cout: OutPort
    const rb: Buffer
    const wb: Buffer
    const admin: Option<Creds>
    var interest: Interest
    var auth: CredsState
    var cmd: CommandState
    var authenticated: bool
    /** close_after_write and shutting_down. */
    var closing: bool
    var draining: bool
    ghost var message: seq<byte>
    ghost var taken: seq<byte>
    ghost var presented: Option<Creds>
    ghost var history: seq<Exchange>

    ghost predicate Valid()
      reads this, rb, wb
    {
      && rb != wb && rb.data != wb.data && rb.limit == MNG_READ_SIZE && wb.limit == MNG_WRITE_SIZE
      && rb.Valid() && wb.Valid()
    }

    ghost function View(): Snap
      reads this, cin, cout, rb, rb.data, wb, wb.data
    {
      Snap(interest, auth, cmd, authenticated, closing, draining, message, taken, cin.unread,
        if rb.Valid() then rb.Contents() else [], if wb.Valid() then wb.Contents() else [], cout.sent,
        presented, history)
    }

    /** mng_new and the registration for reading. */
    constructor (admin: Option<Creds>)
      ensures Valid() && Arriving(AuthRead, View(), admin) && this.admin == admin
      ensures stm.Valid() && stm.current.None? && stm.initial == AuthRead && stm.arrives == HasArrival
      ensures fresh({stm, cin, cout, rb, rb.data, wb, wb.data})
    {
      stm := new StateMachine(AuthRead, HasArrival);
      cin := new InPort([]);
      cout := new OutPort();
      var raw := new byte[MNG_READ_SIZE];
      rb := new Buffer(raw, MNG_READ_SIZE);
      raw := new byte[MNG_WRITE_SIZE];
      wb := new Buffer(raw, MNG_WRITE_SIZE);
      this.admin, interest, auth, cmd := admin, READ, CredsVersion, CmdStart;
      authenticated, closing, draining := false, false, false;
      message, taken, presented, history := [], [], None, [];
    }

    /** It is the client's turn: it sends one message. */
    method ClientSends(m: seq<byte>)
      requires Ready() && message == []
      requires (stm.State().AuthRead? && OneHandshake(m)) || (stm.State().CmdRead? && OneCommand(m))
      modifies `message, cin`unread
      ensures Ready() && View() == old(View()).(message := m, unread := m)
    {
      assert taken == [] && cin.unread == [];
      cin.unread := m;
      message := m;
      assert taken + cin.unread == m;
      hide OneHandshake, OneCommand, Run, Snap.Told, Snap.Lawful;
      return;
    }

    /** mng_auth_read_on_arrival. */
    method ArriveAuthRead()
      requires Valid()
      modifies `auth, `interest
      ensures Valid() && View() == Arrived(AuthRead, old(View()))
    {
      auth, interest := CredsVersion, READ;
    }

    /** mng_cmd_read_on_arrival. */
    method ArriveCmdRead()
      requires Valid()
      modifies `cmd, `closing, `interest, `message, `taken, rb, wb
      ensures Valid() && View() == Arrived(CmdRead, old(View()))
    {
      cmd, closing := CmdStart, false;
      rb.Reset();
      wb.Reset();
      interest := READ;
      message, taken := [], [];
    }

    /** The parse loop over what has just been received. */
    method ParseAuth()
      requires Valid() && auth == Run(CREDS, CredsVersion, taken)
      modifies `auth, `taken, rb, rb.data
      ensures Valid() && auth == Run(CREDS, CredsVersion, taken) && (CredsStatus(auth).Live? ==> rb.Contents() == [])
      ensures taken + rb.Contents() == old(taken + rb.Contents()) && |old(taken)| <= |taken|
      ensures old(rb.Contents()) != [] && old(CredsStatus(auth)).Live? ==> taken != []
    {
      while rb.CanRead() && !auth.CredsDone? && !auth.CredsError?
        invariant Valid() && auth == Run(CREDS, CredsVersion, taken) && |old(taken)| <= |taken|
        invariant taken + rb.Contents() == old(taken + rb.Contents())
        invariant taken == old(taken) ==> auth == old(auth) && rb.Contents() == old(rb.Contents())
        decreases |rb.Contents()|
      {
        AuthByte();
      }
    }

    /** One byte of it. */
    method AuthByte()
      requires Valid() && rb.CanRead() && auth == Run(CREDS, CredsVersion, taken)
      modifies `auth, `taken, rb, rb.data
      ensures Valid() && auth == Run(CREDS, CredsVersion, taken) && |taken| == |old(taken)| + 1
      ensures taken + rb.Contents() == old(taken + rb.Contents()) && |rb.Contents()| < |old(rb.Contents())|
    {
      ghost var before := taken;
      var b := rb.ReadByte();
      RunSnoc(CREDS, CredsVersion, taken, b);
      auth := CredsFeed(auth, b);
      taken := taken + [b];
      assert before + ([b] + rb.Contents()) == taken + rb.Contents();
    }

    method ParseCmd()
      requires Valid() && cmd == Run(COMMAND, CmdStart, taken)
      modifies `cmd, `taken, rb, rb.data
      ensures Valid() && cmd == Run(COMMAND, CmdStart, taken) && (CommandStatus(cmd).Live? ==> rb.Contents() == [])
      ensures taken + rb.Contents() == old(taken + rb.Contents()) && |old(taken)| <= |taken|
      ensures old(rb.Contents()) != [] && old(CommandStatus(cmd)).Live? ==> taken != []
    {
      while rb.CanRead() && !cmd.CmdDone? && !cmd.CmdError?
        invariant Valid() && cmd == Run(COMMAND, CmdStart, taken) && |old(taken)| <= |taken|
        invariant taken + rb.Contents() == old(taken + rb.Contents())
        invariant taken == old(taken) ==> cmd == old(cmd) && rb.Contents() == old(rb.Contents())
        decreases |rb.Contents()|
      {
        CmdByte();
      }
    }

    /** One byte of it. */
    method CmdByte()
      requires Valid() && rb.CanRead() && cmd == Run(COMMAND, CmdStart, taken)
      modifies `cmd, `taken, rb, rb.data
      ensures Valid() && cmd == Run(COMMAND, CmdStart, taken) && |taken| == |old(taken)| + 1
      ensures taken + rb.Contents() == old(taken + rb.Contents()) && |rb.Contents()| < |old(rb.Contents())|
    {
      ghost var before := taken;
      var b := rb.ReadByte();
      RunSnoc(COMMAND, CmdStart, taken, b);
      cmd := CommandFeed(cmd, b);
      taken := taken + [b];
      assert before + ([b] + rb.Contents()) == taken + rb.Contents();
    }

    /** The common start of both read handlers.  The buffer is empty, so there is room. */
    method Receive() returns (n: IoResult)
      requires Valid() && rb.Contents() == []
      modifies cin`unread, cin`log, rb, rb.data
      ensures Valid() && rb.Contents() + cin.unread == old(cin.unread) && cin.log == old(cin.log) + [n]
      ensures if n.Moved? then rb.Contents() != [] else View() == old(View())
      ensures |cin.unread| + n.Count() == |old(cin.unread)|
    {
      if !rb.CanWrite() {
        assert false;
      }
      ghost var all := cin.unread;
      n := RecvInto(cin, rb);
      if n.Moved? {
        assert rb.Contents() == all[..n.n] && all == all[..n.n] + all[n.n..];
      }
    }

    method TakeAuth() returns (n: IoResult)
      requires Valid() && StateOk(AuthRead, View(), admin)
      modifies `auth, `taken, cin`unread, cin`log, rb, rb.data
      ensures Valid() && cin.log == old(cin.log) + [n] && (!n.Moved? ==> View() == old(View()))
      ensures |cin.unread| + n.Count() == |old(cin.unread)|
      ensures n.Moved? ==>
        && taken + rb.Contents() + cin.unread == message && taken != []
        && auth == Run(CREDS, CredsVersion, taken) && (CredsStatus(auth).Live? ==> rb.Contents() == [])
    {
      ghost var before := taken;
      n := Receive();
      if n.Moved? {
        assert before + (rb.Contents() + cin.unread) == before + rb.Contents() + cin.unread;
        ParseAuth();
      }
    }

    /** mng_auth_read_on_read_ready. */
    method OnAuthRead() returns (ret: State, ghost n: IoResult)
      requires Valid() && StateOk(AuthRead, View(), admin)
      modifies `interest, `auth, `taken, `authenticated, `presented, cin`unread, cin`log, rb, rb.data, wb, wb.data
      ensures Valid() && Leaves(AuthRead, ret, View(), admin) && Kept(old(View()), View(), ret)
      ensures Moves(true, n, old(View()), View())
      ensures cin.log == old(cin.log) + [n] && ret == ReadLeads(AuthRead, n, CredsStatus(auth).Live?)
      ensures ret.AuthWrite? || SameClient(old(View()), View())
    {
      ghost var v := View();
      HandshakeStands(v, admin);
      hide StateOk, Run, EncodeCreds, OneHandshake;
      var got := TakeAuth();
      n := got;
      if !got.Moved? {
        return if got.Eof? then Finished else if got.WouldBlock? then AuthRead else State.Failed, n;
      }
      if auth.CredsError? {
        RefuseVersion();
        return AuthWrite, n;
      }
      if !auth.CredsDone? {
        StillGreeting(v, View(), admin);
        return AuthRead, n;
      }
      CheckAdmin();
      return AuthWrite, n;
    }

    /** The version is not ours. */
    method RefuseVersion()
      requires Valid() && wb.Contents() == [] && cout.sent == [] && history == [] && presented.None? && !authenticated
      requires taken != [] && taken + rb.Contents() + cin.unread == message
      requires auth == Run(CREDS, CredsVersion, taken) && auth.CredsError?
      modifies `authenticated, `interest, wb, wb.data
      ensures Valid() && StateOk(AuthWrite, View(), admin)
    {
      HandshakeRefused(taken);
      assert message[0] == taken[0];
      AnswerAuth(VER_UNSUPPORTED, false);
    }

    /** The handshake is complete. */
    method CheckAdmin()
      requires Valid() && wb.Contents() == [] && cout.sent == [] && history == [] && presented.None?
      requires OneHandshake(message) && taken != [] && taken + rb.Contents() + cin.unread == message
      requires auth == Run(CREDS, CredsVersion, taken) && auth.CredsDone?
      modifies `presented, `authenticated, `interest, wb, wb.data
      ensures Valid() && StateOk(AuthWrite, View(), admin)
      ensures presented == Some(auth.creds) && message == EncodeCreds(auth.creds) && auth.creds.Fits()
    {
      HandshakeTaken(message, taken);
      assert rb.Contents() == [] && cin.unread == [];
      var c := auth.creds;
      presented := Some(c);
      var ok := admin.Some? && Creds(CStr(c.user), CStr(c.pass)) == admin.value;
      AnswerAuth(if ok then 0 else 1, ok);
    }

    method AnswerAuth(code: byte, ok: bool)
      requires Valid() && wb.Contents() == []
      modifies `authenticated, `interest, wb, wb.data
      ensures Valid() && View() == old(View()).(pending := [1, code], authenticated := ok, interest := WRITE)
    {
      wb.WriteByte(1);
      wb.WriteByte(code);
      authenticated := ok;
      interest := WRITE;
    }

    /** One send of the answer. */
    method Flush() returns (n: IoResult)
      requires Valid()
      modifies cout`sent, cout`log, wb, wb.data
      ensures Valid() && !n.Eof? && cout.sent + wb.Contents() == old(cout.sent + wb.Contents())
      ensures cout.log == old(cout.log) + [n] && (!n.Moved? ==> View() == old(View()))
      ensures |cout.sent| == |old(cout.sent)| + n.Count()
    {
      ghost var before, pending := cout.sent, wb.Contents();
      n := cout.Send(wb);
      if n.Moved? {
        wb.ReadAdv(n.n);
        StillInOrder(before, pending, n.n);
      }
    }

    /** mng_auth_write_on_write_ready. */
    method OnAuthWrite() returns (ret: State, ghost n: IoResult)
      requires Valid() && StateOk(AuthWrite, View(), admin)
      modifies `interest, cout`sent, cout`log, wb, wb.data
      ensures Valid() && Leaves(AuthWrite, ret, View(), admin)
      ensures Kept(old(View()), View(), ret)
      ensures cout.log == old(cout.log) + [n]
      ensures Moves(false, n, old(View()), View())
      ensures ret == WriteLeads(AuthWrite, n, wb.Contents() == [], draining || !authenticated)
    {
      var put := Flush();
      n := put;
      if !put.Moved? {
        ret := if put.WouldBlock? then AuthWrite else State.Failed;
      } else if wb.CanRead() {
        ret := AuthWrite;
      } else if draining || !authenticated {
        ret := Finished;
      } else {
        interest := READ;
        ret := CmdRead;
      }
    }

    /** mng_resp_write_on_write_ready. */
    method OnRespWrite() returns (ret: State, ghost n: IoResult)
      requires Valid() && StateOk(RespWrite, View(), admin)
      modifies `interest, cout`sent, cout`log, wb, wb.data
      ensures Valid() && Leaves(RespWrite, ret, View(), admin)
      ensures Kept(old(View()), View(), ret)
      ensures cout.log == old(cout.log) + [n]
      ensures Moves(false, n, old(View()), View())
      ensures ret == WriteLeads(RespWrite, n, wb.Contents() == [], closing || draining)
    {
      var put := Flush();
      n := put;
      if !put.Moved? {
        ret := if put.WouldBlock? then RespWrite else State.Failed;
      } else if wb.CanRead() {
        ret := RespWrite;
      } else if closing || draining {
        ret := Finished;
      } else {
        interest := READ;
        ret := CmdRead;
      }
    }

    /** The received part of the message is parsed. */
    method TakeCmd() returns (n: IoResult)
      requires Valid() && StateOk(CmdRead, View(), admin)
      modifies `cmd, `taken, cin`unread, cin`log, rb, rb.data
      ensures Valid() && cin.log == old(cin.log) + [n] && (!n.Moved? ==> View() == old(View()))
      ensures Moves(true, n, old(View()), View()) && (n.Moved? ==> Advanced(old(View()), View()))
    {
      ghost var before := taken;
      n := Receive();
      if n.Moved? {
        assert before + (rb.Contents() + cin.unread) == before + rb.Contents() + cin.unread;
        ParseCmd();
      }
    }

    /** The answer to a message that is over, and what it does to the server. */
    method Carry(srv: Server)
      requires Valid() && srv.Valid() && (cmd.CmdError? || (cmd.CmdDone? && cmd.cmd.Fits())) && !closing
      modifies `closing, wb, wb.data, srv`socksTimeout, srv`mngTimeout, srv.table.slots
      ensures closing == (cmd == CmdDone(CloseSession))
      ensures Valid() && srv.Valid() && srv.View() == Carried(old(srv.View()), cmd)
      ensures wb.Contents() == Asked(old(srv.View()), cmd).answer != []
    {
      RepliesFitAll(srv, cmd);
      if cmd.CmdError? {
        wb.Reset();
        wb.WriteByte(BAD_ARGS);
      } else {
        var close := srv.ExecCommand(cmd.cmd, wb);
        if close {
          closing := true;
        }
      }
    }

    /** mng_cmd_read_on_read_ready. */
    method OnCmdRead(srv: Server) returns (ret: State, ghost n: IoResult)
      requires Valid() && StateOk(CmdRead, View(), admin) && srv.Valid()
      modifies `interest, `cmd, `taken, `closing, `history, cin`unread, cin`log, rb, rb.data, wb, wb.data
      modifies srv`socksTimeout, srv`mngTimeout, srv.table.slots
      ensures Valid() && Leaves(CmdRead, ret, View(), admin) && srv.Valid()
      ensures Handled(CmdRead, old(View()), View(), ret, old(srv.View()), srv.View())
      ensures Moves(true, n, old(View()), View())
      ensures cin.log == old(cin.log) + [n] && ret == ReadLeads(CmdRead, n, CommandStatus(cmd).Live?)
    {
      hide StateOk, Run, EncodeCommand, Answers, EncodeReply, Execute, Asked, Carried, CarriedOut, Server.View,
        Server.Valid, Valid, View;
      ghost var v := View();
      ReadingEnds(v, admin);
      var got := TakeCmd();
      n := got;
      Mirrored();
      if !got.Moved? {
        return if got.Eof? then Finished else if got.WouldBlock? then CmdRead else State.Failed, n;
      }
      if !cmd.CmdDone? && !cmd.CmdError? {
        StillReading(v, View(), admin);
        return CmdRead, n;
      }
      MessageOver(v, View(), admin);
      srv.Distinguishes();
      AskedCarries(srv.View(), cmd);
      Conclude(srv);
      Mirrored();
      return RespWrite, n;
    }

    lemma Mirrored()
      ensures View().cmd == cmd
    {
    }

    /** The message is over. */
    method Conclude(srv: Server)
      requires Valid() && srv.Valid() && (cmd.CmdError? || (cmd.CmdDone? && cmd.cmd.Fits()))
      requires var v := View();
        v.sent == v.Told() && v.Lawful(admin) && v.authenticated && v.unread == [] && !v.closing
      modifies `closing, `interest, `history, wb, wb.data, srv`socksTimeout, srv`mngTimeout, srv.table.slots
      ensures Valid() && srv.Valid() && StateOk(RespWrite, View(), admin)
      ensures srv.View() == Carried(old(srv.View()), cmd)
      ensures var v, x := old(View()), Asked(old(srv.View()), cmd);
        View() == v.(
          closing := cmd == CmdDone(CloseSession), pending := x.answer, interest := WRITE, history := v.history + [x])
    {
      hide StateOk, Answers, EncodeReply, Execute, Asked, Carried, Server.View, Server.Valid, Snap.Told, Snap.Lawful;
      ghost var v, srv0 := View(), srv.View();
      ghost var x := Asked(srv0, cmd);
      Carry(srv);
      history := history + [x];
      interest := WRITE;
      AskedCloses(srv0, cmd);
      Concluded(v, View(), x, admin);
      return;
    }

    ghost predicate Engine()
      reads stm
    {
      stm.Valid() && stm.initial == AuthRead && stm.arrives == HasArrival
    }

    /** Between events. */
    ghost predicate Ready()
      reads this, stm, cin, cout, rb, rb.data, wb, wb.data
    {
      && Engine() && Valid()
      && if stm.current.None? then Arriving(AuthRead, View(), admin) else StateOk(stm.current.value, View(), admin)
    }

    method Arrival(s: State)
      requires Valid() && stm.Due(true) && stm.current == Some(s) && Arriving(s, View(), admin)
      modifies this, stm`arrived, rb, wb
      ensures stm.Valid() && Valid() && View() == Arrived(s, old(View())) && StateOk(s, View(), admin)
    {
      stm.Arrived();
      ArriveKeeps(s, View(), admin);
      if s.AuthRead? {
        ArriveAuthRead();
      } else {
        ArriveCmdRead();
      }
    }

    /** handle_first. */
    method First()
      requires Ready()
      modifies this, stm, rb, wb
      ensures Engine() && Valid() && stm.current == Some(old(stm.State())) && StateOk(stm.current.value, View(), admin)
      ensures View() == if old(stm.current).None? then Arrived(AuthRead, old(View())) else old(View())
    {
      var due := stm.HandleFirst();
      if due {
        Arrival(AuthRead);
      }
    }

    /** One system call was made, a read or a write, and `n` was its answer. */
    twostate predicate Logged(readable: bool, n: IoResult)
      reads cin, cout
    {
      && cin.log == (if readable then old(cin.log) + [n] else old(cin.log))
      && cout.log == (if readable then old(cout.log) else old(cout.log) + [n])
    }

    /** stm_handler_read, once a callback is known to be there. */
    method HandleRead(s: State, srv: Server) returns (ret: State, ghost n: IoResult)
      requires Valid() && srv.Valid() && StateOk(s, View(), admin) && Handles(s, true)
      modifies `interest, `auth, `cmd, `taken, `authenticated, `closing, `presented, `history
      modifies cin`unread, cin`log, rb, rb.data, wb, wb.data
      modifies srv`socksTimeout, srv`mngTimeout, srv.table.slots
      ensures Valid() && srv.Valid() && Leaves(s, ret, View(), admin)
      ensures Handled(s, old(View()), View(), ret, old(srv.View()), srv.View())
      ensures cin.log == old(cin.log) + [n] && ret == Leads(s, n, old(View()), View())
      ensures Moves(true, n, old(View()), View())
    {
      if s.AuthRead? {
        ret, n := OnAuthRead();
      } else {
        ret, n := OnCmdRead(srv);
      }
    }

    /** stm_handler_write. */
    method HandleWrite(s: State) returns (ret: State, ghost n: IoResult)
      requires Valid() && StateOk(s, View(), admin) && Handles(s, false)
      modifies `interest, cout`sent, cout`log, wb, wb.data
      ensures Valid() && Leaves(s, ret, View(), admin) && Kept(old(View()), View(), ret)
      ensures cout.log == old(cout.log) + [n] && ret == Leads(s, n, old(View()), View())
      ensures Moves(false, n, old(View()), View())
    {
      if s.AuthWrite? {
        ret, n := OnAuthWrite();
      } else {
        ret, n := OnRespWrite();
      }
    }

    /** jump. */
    method Next(ret: State)
      requires Engine() && Valid() && stm.current.Some? && Leaves(stm.current.value, ret, View(), admin)
      modifies this, stm, rb, wb
      ensures Engine() && Valid() && stm.current == Some(ret) && StateOk(ret, View(), admin)
      ensures View() == if ret != old(stm.State()) && ret.CmdRead? then Arrived(ret, old(View())) else old(View())
    {
      hide StateOk, Arriving, Arrived, Leaves;
      LeavesEnters(stm.State(), ret, View(), admin);
      var due := stm.Jump(ret);
      if due {
        Arrival(ret);
      }
      return;
    }

    /** The engine finds the callback for the event and runs it. */
    method Callback(s: State, readable: bool, srv: Server) returns (ret: State, ghost n: IoResult)
      requires Valid() && srv.Valid() && StateOk(s, View(), admin) && !s.Finished? && !s.Failed?
      requires if readable then interest.read else interest.write
      modifies `interest, `auth, `cmd, `taken, `authenticated, `closing, `presented, `history
      modifies cin`unread, cin`log, cout`sent, cout`log, rb, rb.data, wb, wb.data
      modifies srv`socksTimeout, srv`mngTimeout, srv.table.slots
      ensures Valid() && srv.Valid() && Leaves(s, ret, View(), admin)
      ensures Handled(s, old(View()), View(), ret, old(srv.View()), srv.View())
      ensures Logged(readable, n) && ret == Leads(s, n, old(View()), View())
      ensures Moves(readable, n, old(View()), View())
    {
      ArmedIsHandled(s, View(), admin, readable);
      if readable {
        ret, n := HandleRead(s, srv);
      } else {
        ret, n := HandleWrite(s);
      }
    }

    /** An event up to the jump; `seen` is the session as its callback found it. */
    method Respond(readable: bool, srv: Server) returns (ret: State, ghost n: IoResult, ghost seen: Snap)
      requires Ready() && srv.Valid() && (if readable then interest.read else interest.write)
      requires !stm.State().Finished? && !stm.State().Failed?
      modifies this, stm, cin`unread, cin`log, cout`sent, cout`log, rb, rb.data, wb, wb.data
      modifies srv`socksTimeout, srv`mngTimeout, srv.table.slots
      ensures Engine() && Valid() && srv.Valid() && stm.current == Some(old(stm.State()))
      ensures Leaves(old(stm.State()), ret, View(), admin)
      ensures seen == old(View()) || (old(stm.State()).AuthRead? && seen == Arrived(AuthRead, old(View())))
      ensures Handled(old(stm.State()), seen, View(), ret, old(srv.View()), srv.View())
      ensures Logged(readable, n) && ret == Leads(old(stm.State()), n, seen, View())
      ensures Moves(readable, n, seen, View())
      ensures ret != old(stm.State()) && ret.CmdRead? ==> View().pending == []
    {
      First();
      seen := View();
      ret, n := Callback(stm.State(), readable, srv);
    }

    /** mng_read and mng_write: the engine has a callback for whatever the session is armed for. */
    method OnEvent(readable: bool, srv: Server) returns (ret: State, ghost n: IoResult)
      requires Ready() && srv.Valid() && (if readable then interest.read else interest.write)
      requires !stm.State().Finished? && !stm.State().Failed?
      modifies this, stm, cin`unread, cin`log, cout`sent, cout`log, rb, rb.data, wb, wb.data
      modifies srv`socksTimeout, srv`mngTimeout, srv.table.slots
      ensures Ready() && stm.current == Some(ret) && srv.Valid()
      ensures Steps(old(stm.State()), old(View()), View(), ret, old(srv.View()), srv.View())
      ensures Logged(readable, n) && ret == Leads(old(stm.State()), n, old(View()), View())
      ensures Moves(readable, n, old(View()), View())
    {
      hide StateOk, Arriving, Arrived, Leaves, Handled, Leads, Moves, Steps, View, Valid, Server.Valid, Server.View;
      ghost var from, v0, w0 := stm.State(), View(), srv.View();
      ghost var seen;
      ret, n, seen := Respond(readable, srv);
      ghost var v2, w2 := View(), srv.View();
      Next(ret);
      HandledSteps(from, readable, n, v0, seen, v2, View(), ret, w0, w2);
    }

    /** mng_begin_shutdown on one session: it survives exactly if it has an answer to finish. */
    method BeginShutdown() returns (survives: bool)
      requires Ready()
      modifies `draining, `interest
      ensures survives <==> stm.State().AuthWrite? || stm.State().RespWrite?
      ensures survives ==> Ready() && View() == old(View()).(draining := true) && wb.CanRead()
      ensures !survives ==> View() == old(View())
    {
      var s := stm.State();
      if (s.AuthWrite? || s.RespWrite?) && wb.CanRead() {
        draining := true;
        interest := WRITE;
        survives := true;
      } else {
        survives := false;
      }
    }
  }

  lemma RepliesFitAll(srv: Server, s: CommandState)
    requires srv.Valid()
    ensures Asked(srv.View(), s).answer != []
  {
    if s.CmdDone? {
      RepliesFit(srv.View(), s.cmd);
      ReplyBound(Execute(srv.View(), s.cmd).1);
    }
  }

  /** One more exchange. */
  lemma AnswerTold(v: Snap, w: Snap, x: Exchange)
    requires v.sent == v.Told() && w.sent == v.sent && w.pending == x.answer
    requires w.history == v.history + [x] && w.AuthAnswer() == v.AuthAnswer()
    ensures w.sent + w.pending == w.Told()
  {
    AnswersAdd(v.history, x);
    assert v.AuthAnswer() + Answers(v.history) + w.pending == v.AuthAnswer() + (Answers(v.history) + w.pending);
  }

  lemma Concluded(v: Snap, w: Snap, x: Exchange, admin: Option<Creds>)
    requires v.sent == v.Told() && v.Lawful(admin) && v.authenticated && v.unread == [] && x.answer != []
    requires w == v.(
      closing := x.command == Some(CloseSession), pending := x.answer, interest := WRITE, history := v.history + [x])
    ensures StateOk(RespWrite, w, admin)
  {
    AnswerTold(v, w, x);
  }

  /** What a message that is over stands for, and what it does to the server. */
  function Asked(w: World, s: CommandState): Exchange {
    if s.CmdDone? then Exchange(w, Some(s.cmd), EncodeReply(Execute(w, s.cmd).1))
    else Exchange(w, None, EncodeReply(Status(BAD_ARGS)))
  }

  lemma AskedCloses(w: World, s: CommandState)
    ensures Asked(w, s).command == Some(CloseSession) <==> s == CmdDone(CloseSession)
  {
  }

  function Carried(w: World, s: CommandState): World {
    if s.CmdDone? then Execute(w, s.cmd).0 else w
  }

  /** Where a read leads: to the answer as soon as the message is over. */
  function ReadLeads(from: State, n: IoResult, open: bool): State {
    match n
    case Eof => Finished
    case WouldBlock => from
    case Failed => State.Failed
    case Moved(_) => if open then from else if from.AuthRead? then AuthWrite else RespWrite
  }

  /** Where a write leads: to the next command once the answer is out, unless that was the last. */
  function WriteLeads(from: State, n: IoResult, out: bool, last: bool): State {
    match n
    case Moved(_) => if !out then from else if last then Finished else CmdRead
    case WouldBlock => from
    case _ => State.Failed
  }

  /** What the answer of the system says of the bytes that moved. */
  predicate Moves(readable: bool, n: IoResult, v: Snap, w: Snap) {
    if readable then |w.unread| + n.Count() == |v.unread| && w.sent == v.sent
    else w.sent + w.pending == v.sent + v.pending && |w.sent| == |v.sent| + n.Count() && w.unread == v.unread
  }

  /** Where an event in state `from` leads, given the answer of the system. */
  function Leads(from: State, n: IoResult, v: Snap, w: Snap): State {
    match from
    case AuthRead => ReadLeads(from, n, CredsStatus(w.auth).Live?)
    case CmdRead => ReadLeads(from, n, CommandStatus(w.cmd).Live?)
    case AuthWrite => WriteLeads(from, n, w.pending == [], v.draining || !v.authenticated)
    case RespWrite => WriteLeads(from, n, w.pending == [], v.closing || v.draining)
    case _ => from
  }

  /** A callback that carries out no command. */
  predicate Kept(v: Snap, w: Snap, ret: State) {
    && w.message == v.message && w.history == v.history && w.closing == v.closing && w.draining == v.draining
    && (v.draining ==> Drains(v, w, ret))
  }

  /** Who the client is has been settled by its handshake. */
  predicate SameClient(v: Snap, w: Snap) { w.presented == v.presented && w.authenticated == v.authenticated }

  /** What the callback of state `from` does. */
  ghost predicate Handled(from: State, v: Snap, w: Snap, ret: State, before: World, after: World) {
    && ((from.AuthRead? && ret.AuthWrite?) || SameClient(v, w))
    && if from.CmdRead? then Recorded(v, w, ret, before, after) && w.message == v.message && !v.draining && !w.draining
       else Kept(v, w, ret) && after == before
  }

  /** What an event in state `from` does. */
  ghost predicate Steps(from: State, v: Snap, w: Snap, ret: State, before: World, after: World) {
    && (if from.CmdRead? then Recorded(v, w, ret, before, after)
        else w.history == v.history && after == before && w.closing == (v.closing && !ret.CmdRead?))
    && w.draining == v.draining && ((from.AuthRead? && ret.AuthWrite?) || SameClient(v, w))
    && w.message == (if ret != from && ret.CmdRead? then [] else v.message)
    && (v.draining ==> Drains(v, w, ret))
  }

  lemma HandledSteps(from: State, readable: bool, n: IoResult, v0: Snap, v1: Snap, v2: Snap, v3: Snap, ret: State,
      before: World, after: World)
    requires v1 == v0 || (from.AuthRead? && v1 == Arrived(AuthRead, v0))
    requires Handled(from, v1, v2, ret, before, after)
    requires v3 == if ret != from && ret.CmdRead? then Arrived(ret, v2) else v2
    requires ret == Leads(from, n, v1, v2) && Moves(readable, n, v1, v2)
    requires ret != from && ret.CmdRead? ==> v2.pending == []
    ensures Steps(from, v0, v3, ret, before, after) && ret == Leads(from, n, v0, v3) && Moves(readable, n, v0, v3)
  {
  }

  /** What is done for a message that is over, and the answer to it. */
  ghost predicate CarriedOut(before: World, s: CommandState, after: World, answer: seq<byte>) {
    if s.CmdDone? then Does(before, s.cmd, after, answer) else after == before && answer == [3]
  }

  lemma AskedCarries(w: World, s: CommandState)
    requires Distinct(w.slots)
    ensures CarriedOut(w, s, Carried(w, s), Asked(w, s).answer)
  {
    if s.CmdDone? {
      Executes(w, s.cmd);
    }
  }

  /** Reading a command records one exchange, for the message the client sent, exactly when the
      message is complete; until then nothing happens to the server. */
  ghost predicate Recorded(v: Snap, w: Snap, ret: State, before: World, after: World) {
    if ret.RespWrite? then
      && w.taken == v.message && w.unread == [] && w.message == v.message
      && w.history == v.history + [Asked(before, w.cmd)] && after == Carried(before, w.cmd)
      && w.cmd == Run(COMMAND, CmdStart, v.message) && (w.cmd.CmdDone? ==> v.message == EncodeCommand(w.cmd.cmd))
      && w.closing == (w.cmd == CmdDone(CloseSession)) && CarriedOut(before, w.cmd, after, w.pending)
    else
      w.history == v.history && after == before && w.closing == v.closing
  }
}
