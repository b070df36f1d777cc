/**
  The commands of the MNG/1 protocol: the client's encoders and cmd_feed.
*/
module CommandMachine {
  import opened ByteBuffer
  import opened ByteMachine

  datatype Command =
    | AddUser(user: seq<byte>, pass: seq<byte>)
    | DelUser(user: seq<byte>)
    | ListUsers
    | GetStats
    | SetTimeout(seconds: nat)
    | GetLog
    | CloseSession
  {
    predicate Fits() {
      match this
      case AddUser(u, p) => |u| <= 255 && |p| <= 255
      case DelUser(u) => |u| <= 255
      case SetTimeout(t) => t < 0x1_0000_0000
      case _ => true
    }
  }

  /** The four bytes of a uint32_t, most significant first. */
  function U32(v: int): seq<byte> {
    [AsByte(v / 0x100_0000), AsByte(v / 0x1_0000), AsByte(v / 0x100), AsByte(v)]
  }

  /** What cmd_add_user, cmd_del_user, cmd_set_timeout and the others write to the socket. */
  function EncodeCommand(c: Command): seq<byte> {
    match c
    case AddUser(u, p) => [1] + Prefixed(u) + Prefixed(p)
    case DelUser(u) => [2] + Prefixed(u)
    case ListUsers => [3]
    case GetStats => [4]
    case SetTimeout(t) => [5] + U32(t)
    case GetLog => [6]
    case CloseSession => [7]
  }

  datatype CommandState =
    | CmdStart
    | CmdUlen(add: bool)
    | CmdUname(add: bool, ulen: byte, user: seq<byte>)
    | CmdPlen(user: seq<byte>)
    | CmdPasswd(user: seq<byte>, plen: byte, pass: seq<byte>)
    | CmdTimeout(digits: seq<byte>)
    | CmdDone(cmd: Command)
    | CmdError

  /** After a user name: ADD_USER goes on to the password. */
  function AfterUser(add: bool, user: seq<byte>): CommandState {
    if add then CmdPlen(user) else CmdDone(DelUser(user))
  }

  function Value(digits: seq<byte>): nat {
    if digits == [] then 0 else Value(digits[..|digits| - 1]) * 256 + digits[|digits| - 1]
  }

  function CommandFeed(s: CommandState, b: byte): CommandState {
    match s
    case CmdStart =>
      if b == 1 then CmdUlen(true)
      else if b == 2 then CmdUlen(false)
      else if b == 3 then CmdDone(ListUsers)
      else if b == 4 then CmdDone(GetStats)
      else if b == 5 then CmdTimeout([])
      else if b == 6 then CmdDone(GetLog)
      else if b == 7 then CmdDone(CloseSession)
      else CmdError
    case CmdUlen(add) => if b == 0 then AfterUser(add, []) else CmdUname(add, b, [])
    case CmdUname(add, n, u) => if |u| + 1 == n then AfterUser(add, u + [b]) else CmdUname(add, n, u + [b])
    case CmdPlen(u) => if b == 0 then CmdDone(AddUser(u, [])) else CmdPasswd(u, b, [])
    case CmdPasswd(u, n, p) =>
      if |p| + 1 == n then CmdDone(AddUser(u, p + [b])) else CmdPasswd(u, n, p + [b])
    case CmdTimeout(d) => if |d| + 1 == 4 then CmdDone(SetTimeout(Value(d + [b]))) else CmdTimeout(d + [b])
    case _ => s
  }

  function CommandStatus(s: CommandState): Status {
    if s.CmdDone? then Done else if s.CmdError? then Error else Live
  }

  function Opcode(add: bool): byte { if add then 1 else 2 }

  function CommandWritten(s: CommandState): seq<byte> {
    match s
    case CmdStart => []
    case CmdUlen(add) => [Opcode(add)]
    case CmdUname(add, n, u) => [Opcode(add), n] + u
    case CmdPlen(u) => [1] + Prefixed(u)
    case CmdPasswd(u, n, p) => [1] + Prefixed(u) + [n] + p
    case CmdTimeout(d) => [5] + d
    case CmdDone(c) => EncodeCommand(c)
    case CmdError => []
  }

  predicate CommandOk(s: CommandState) {
    match s
    case CmdUname(_, n, u) => |u| < n
    case CmdPlen(u) => |u| <= 255
    case CmdPasswd(u, n, p) => |u| <= 255 && |p| < n
    case CmdTimeout(d) => |d| < 4
    case CmdDone(c) => c.Fits()
    case _ => true
  }

  const COMMAND := Machine(CommandFeed, CommandStatus, CommandWritten, CommandOk)

  /** Four bytes and the number they spell, both ways. */
  lemma U32Exact(d: seq<byte>)
    requires |d| == 4
    ensures Value(d) < 0x1_0000_0000 && U32(Value(d)) == d
  {
    Value4(d[0], d[1], d[2], d[3]);
    assert d == [d[0], d[1], d[2], d[3]];
  }

  lemma Value4(a: byte, b: byte, c: byte, e: byte)
    ensures Value([a, b, c, e]) == ((a * 256 + b) * 256 + c) * 256 + e
    ensures Value([a, b, c, e]) < 0x1_0000_0000
    ensures U32(Value([a, b, c, e])) == [a, b, c, e]
  {
    assert [a, b, c, e][..3] == [a, b, c];
    assert [a, b, c][..2] == [a, b];
    assert [a, b][..1] == [a];
    assert [a][..0] == [];
    assert Value([a]) == a;
    assert Value([a, b]) == a * 256 + b;
    assert Value([a, b, c]) == (a * 256 + b) * 256 + c;
    Quotient((a * 256 + b) * 256 + c, e);
    Quotient(a * 256 + b, c);
    Quotient(a, b);
    Quotients(((a * 256 + b) * 256 + c) * 256 + e);
  }

  lemma Quotient(q: nat, r: byte)
    ensures (q * 256 + r) / 256 == q && (q * 256 + r) % 256 == r
  {
  }

  lemma Quotients(v: nat)
    ensures v / 0x1_0000 == v / 256 / 256 && v / 0x100_0000 == v / 256 / 256 / 256
  {
  }

  lemma ValueU32(t: nat)
    requires t < 0x1_0000_0000
    ensures Value(U32(t)) == t
  {
    var d := U32(t);
    Value4(d[0], d[1], d[2], d[3]);
    Quotients(t);
    assert d == [d[0], d[1], d[2], d[3]];
  }

  lemma CommandStep(s: CommandState, b: byte)
    requires CommandOk(s) && CommandStatus(s).Live?
    ensures var t := CommandFeed(s, b);
      CommandOk(t) && (CommandStatus(t).Error? || CommandWritten(t) == CommandWritten(s) + [b])
  {
    if s.CmdTimeout? && |s.digits| == 3 {
      U32Exact(s.digits + [b]);
    }
  }

  lemma CommandMachineExact()
    ensures Exact(COMMAND)
  {
    forall s, b | CommandOk(s) && CommandStatus(s).Live?
      ensures var t := CommandFeed(s, b);
        CommandOk(t) && (CommandStatus(t).Error? || CommandWritten(t) == CommandWritten(s) + [b])
    {
      CommandStep(s, b);
    }
  }

  lemma {:induction false} CommandUnameRun(add: bool, n: byte, u: seq<byte>, more: seq<byte>, w: seq<byte>)
    requires |u| + |more| == n && more != []
    ensures Run(COMMAND, CmdUname(add, n, u), more + w) == Run(COMMAND, AfterUser(add, u + more), w)
    decreases |more|
  {
    assert (more + w)[1..] == more[1..] + w;
    if |more| == 1 {
      assert more[1..] + w == w && u + more == u + [more[0]];
    } else {
      CommandUnameRun(add, n, u + [more[0]], more[1..], w);
      assert u + [more[0]] + more[1..] == u + more;
    }
  }

  lemma {:induction false} CommandPasswdRun(u: seq<byte>, n: byte, p: seq<byte>, more: seq<byte>)
    requires |p| + |more| == n && more != []
    ensures Run(COMMAND, CmdPasswd(u, n, p), more) == CmdDone(AddUser(u, p + more))
    decreases |more|
  {
    if |more| == 1 {
      assert more[1..] == [] && p + more == p + [more[0]];
    } else {
      CommandPasswdRun(u, n, p + [more[0]], more[1..]);
      assert p + [more[0]] + more[1..] == p + more;
    }
  }

  lemma CommandUserRun(add: bool, user: seq<byte>, tail: seq<byte>)
    requires |user| <= 255
    ensures Run(COMMAND, CmdUlen(add), Prefixed(user) + tail) == Run(COMMAND, AfterUser(add, user), tail)
  {
    assert Prefixed(user) + tail == [AsByte(|user|)] + (user + tail);
    RunCons(COMMAND, CmdUlen(add), AsByte(|user|), user + tail);
    var next := COMMAND.feed(CmdUlen(add), AsByte(|user|));
    assert next == if user == [] then AfterUser(add, []) else CmdUname(add, |user|, []);
    hide Run, AfterUser;
    if user == [] {
      assert user + tail == tail;
    } else {
      CommandUnameRun(add, |user|, [], user, tail);
      assert [] + user == user;
    }
    return;
  }

  lemma CommandPassRun(user: seq<byte>, pass: seq<byte>)
    requires |pass| <= 255
    ensures Run(COMMAND, CmdPlen(user), Prefixed(pass)) == CmdDone(AddUser(user, pass))
  {
    assert Prefixed(pass)[1..] == pass;
    if pass != [] {
      CommandPasswdRun(user, |pass|, [], pass);
      assert [] + pass == pass;
    }
  }

  lemma CommandTimeoutRun(t: nat)
    requires t < 0x1_0000_0000
    ensures Run(COMMAND, CmdTimeout([]), U32(t)) == CmdDone(SetTimeout(t))
  {
    var d := U32(t);
    ValueU32(t);
    DigitsRun(d);
  }

  lemma DigitsRun(d: seq<byte>)
    requires |d| == 4
    ensures Run(COMMAND, CmdTimeout([]), d) == CmdDone(SetTimeout(Value(d)))
  {
    assert d == d[..3] + [d[3]] && d[..3] == d[..2] + [d[2]] && d[..2] == d[..1] + [d[1]] && d[..1] == [] + [d[0]];
    RunSnoc(COMMAND, CmdTimeout([]), [], d[0]);
    RunSnoc(COMMAND, CmdTimeout([]), d[..1], d[1]);
    RunSnoc(COMMAND, CmdTimeout([]), d[..2], d[2]);
    RunSnoc(COMMAND, CmdTimeout([]), d[..3], d[3]);
  }

  lemma CommandAccepts(c: Command)
    requires c.Fits()
    ensures Run(COMMAND, CmdStart, EncodeCommand(c)) == CmdDone(c)
  {
    match c
    case AddUser(u, p) =>
      assert EncodeCommand(c)[1..] == Prefixed(u) + Prefixed(p);
      CommandUserRun(true, u, Prefixed(p));
      CommandPassRun(u, p);
    case DelUser(u) =>
      assert EncodeCommand(c)[1..] == Prefixed(u) + [];
      CommandUserRun(false, u, []);
    case SetTimeout(t) =>
      assert EncodeCommand(c)[1..] == U32(t);
      CommandTimeoutRun(t);
    case _ =>
      assert EncodeCommand(c)[1..] == [];
  }

  /** The server is done with command `c` exactly on the inputs that begin with what the client
      sends for `c`: the codec is a bijection, and no command is the beginning of another. */
  lemma CommandExact(w: seq<byte>, c: Command)
    requires c.Fits()
    ensures Run(COMMAND, CmdStart, w) == CmdDone(c) <==> EncodeCommand(c) <= w
  {
    var e := EncodeCommand(c);
    CommandMachineExact();
    if e <= w {
      CommandAccepts(c);
      assert w == e + w[|e|..];
      RunChunks(COMMAND, CmdStart, e, w[|e|..]);
      RunStuck(COMMAND, CmdDone(c), w[|e|..]);
    }
    if Run(COMMAND, CmdStart, w) == CmdDone(c) {
      RunWritten(COMMAND, CmdStart, w);
      assert [] + w == w;
    }
  }

  lemma {:induction false} CommandGoesOn(s: CommandState, w: seq<byte>)
    requires !s.CmdStart? && !s.CmdError?
    ensures !Run(COMMAND, s, w).CmdError?
    decreases |w|
  {
    if w != [] {
      CommandGoesOn(CommandFeed(s, w[0]), w[1..]);
    }
  }

  /** A first byte that is no command is the only mistake there is. */
  lemma CommandFails(w: seq<byte>)
    ensures Run(COMMAND, CmdStart, w).CmdError? <==> w != [] && !(1 <= w[0] <= 7)
  {
    CommandMachineExact();
    if w != [] {
      assert w == [w[0]] + w[1..];
      RunCons(COMMAND, CmdStart, w[0], w[1..]);
      if 1 <= w[0] <= 7 {
        CommandGoesOn(CommandFeed(CmdStart, w[0]), w[1..]);
      } else {
        RunStuck(COMMAND, CmdError, w[1..]);
      }
    }
  }

  lemma CommandSplit(w: seq<byte>, c: Command, n: nat)
    requires c.Fits() && n <= |w| && EncodeCommand(c) == w[..n]
    ensures Run(COMMAND, CmdStart, w) == CmdDone(c)
  {
    CommandExact(w, c);
  }

  /** Byte by byte: what each first byte asks for, and where its arguments are. */
  lemma CommandReads(w: seq<byte>)
    requires w != []
    ensures var s := Run(COMMAND, CmdStart, w);
      && (w[0] == 3 ==> s == CmdDone(ListUsers)) && (w[0] == 4 ==> s == CmdDone(GetStats))
      && (w[0] == 6 ==> s == CmdDone(GetLog)) && (w[0] == 7 ==> s == CmdDone(CloseSession))
  {
    hide Run;
    match w[0] {
      case 3 => CommandSplit(w, ListUsers, 1);
      case 4 => CommandSplit(w, GetStats, 1);
      case 6 => CommandSplit(w, GetLog, 1);
      case 7 => CommandSplit(w, CloseSession, 1);
      case _ =>
    }
    return;
  }

  lemma TimeoutReads(w: seq<byte>, a: nat, b: nat, c: nat, d: nat)
    requires |w| >= 5 && w[..5] == [5, a, b, c, d]
    ensures Run(COMMAND, CmdStart, w) == CmdDone(SetTimeout(a * 0x100_0000 + b * 0x1_0000 + c * 0x100 + d))
  {
    hide Run;
    Value4(w[1], w[2], w[3], w[4]);
    CommandSplit(w, SetTimeout(a * 0x100_0000 + b * 0x1_0000 + c * 0x100 + d), 5);
    return;
  }

  lemma DelUserReads(w: seq<byte>, u: nat)
    requires |w| >= 2 + u && w[0] == 2 && w[1] == u
    ensures Run(COMMAND, CmdStart, w) == CmdDone(DelUser(w[2..2 + u]))
  {
    hide Run, Prefixed;
    FieldAt(w, 1, u);
    assert w[..2 + u] == [w[0]] + w[1..2 + u];
    CommandSplit(w, DelUser(w[2..2 + u]), 2 + u);
    return;
  }

  lemma FieldAt(w: seq<byte>, i: nat, n: nat)
    requires |w| >= i + 1 + n && w[i] == n
    ensures Prefixed(w[i + 1..i + 1 + n]) == w[i..i + 1 + n]
  {
  }

  lemma AddUserReads(w: seq<byte>, u: nat, p: nat)
    requires |w| >= 3 + u + p && w[0] == 1 && w[1] == u && w[2 + u] == p
    ensures Run(COMMAND, CmdStart, w) == CmdDone(AddUser(w[2..2 + u], w[3 + u..3 + u + p]))
  {
    hide Run, Prefixed;
    FieldAt(w, 1, u);
    FieldAt(w, 2 + u, p);
    assert w[..3 + u + p] == [w[0]] + w[1..2 + u] + w[2 + u..3 + u + p];
    CommandSplit(w, AddUser(w[2..2 + u], w[3 + u..3 + u + p]), 3 + u + p);
    return;
  }
}
