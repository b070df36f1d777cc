/**
  Reaching the origin: the part of `struct socks5` that request_connect, request_connect_fail
  and request_connecting_on_write_ready work on.
*/
module Dialer {
  import opened Options
  import opened ByteBuffer

  /** The address and port given to connect. */
  type Addr = seq<byte>

  /** The errors reply_from_errno distinguishes; a failing call never leaves errno at 0. */
  datatype Errno = ConnRefused | NetUnreachable | HostUnreachable | TimedOut | OtherErrno

  /** Section 6 of RFC 1928: the failure can be read back from its code. */
  function ReplyFromErrno(e: Errno): (code: byte)
    ensures (code == 5 <==> e.ConnRefused?) && (code == 3 <==> e.NetUnreachable?) && (code == 4 <==> e.HostUnreachable?)
    ensures (code == 6 <==> e.TimedOut?) && (code == 1 <==> e.OtherErrno?)
  {
    match e
    case ConnRefused => 5
    case NetUnreachable => 3
    case HostUnreachable => 4
    case TimedOut => 6
    case OtherErrno => 1
  }

  /** origin_fd: -1, open but not registered, or registered in the selector. */
  datatype OriginFd = Absent | Open | Registered

  /** What socket, fcntl, connect and the selector may answer for one address. */
  datatype Attempt =
    NoSocket(e: Errno) | NotNonBlocking(e: Errno) | ConnectFails(e: Errno) | Unregistered | Connected | InProgress

  /** Why an attempt failed; one in progress may fail later for any reason. */
  predicate Explains(a: Attempt, e: Errno) {
    match a
    case NoSocket(x) => e == x
    case NotNonBlocking(x) => e == x
    case ConnectFails(x) => e == x
    case Unregistered => e == OtherErrno
    case Connected => false
    case InProgress => true
  }

  /** The error is the one the call reported; what the selector refuses has no errno of its own. */
  predicate Blames(a: Attempt, e: Errno) {
    && (a == NoSocket(e) || a == NotNonBlocking(e) || a == ConnectFails(e) || a.Unregistered? || a.InProgress?)
    && (a.Unregistered? ==> e == OtherErrno)
  }

  datatype Dialed = Replying | Connecting

  /** The state of a Dialer, with the sockets opened and closed, the addresses attempted in order,
      what the system answered, and why each failed attempt failed. */
  datatype Dial = Dial(
    fd: OriginFd, addr: Addr, rest: seq<Addr>, reply: byte, attempts: seq<Addr>, answers: seq<Attempt>,
    errors: seq<Errno>, opens: nat, closes: nat)
  {
    /** Sockets opened and not yet closed: never more than the one in origin_fd. */
    predicate NoLeak() { opens == closes + if fd.Absent? then 0 else 1 }

    predicate Explained() {
      && |answers| == |attempts| && |errors| <= |answers|
      && forall i :: 0 <= i < |errors| ==> Explains(answers[i], errors[i])
    }

    predicate Idle() { fd.Absent? && NoLeak() && rest == [] && attempts == [] && answers == [] && errors == [] }

    /** No attempt is under way. */
    predicate Between() { fd.Absent? && NoLeak() && Explained() && |errors| == |attempts| }

    /** Every attempt but the one under way, if any, has failed. */
    predicate Valid() {
      && NoLeak() && Explained() && attempts != [] && attempts[|attempts| - 1] == addr
      && !fd.Open? && |errors| == (if fd.Absent? then |attempts| else |attempts| - 1)
    }

    function Last(): Attempt
      requires answers != []
    {
      answers[|answers| - 1]
    }

    /** What the reply means: success with a registered origin, or the code of the last failure
        with no address left to try. */
    predicate Answered() {
      && Valid()
      && (reply == 0 <==> fd.Registered?)
      && (reply == 0 ==> Last().Connected? || Last().InProgress?)
      && (reply != 0 ==> rest == [] && reply == ReplyFromErrno(errors[|errors| - 1]))
    }

    predicate After(st: Dialed) {
      if st.Connecting? then Valid() && fd.Registered? && Last().InProgress? else Answered()
    }

    /** The order of the addresses is kept, and none is attempted twice. */
    predicate Continues(before: Dial) {
      && attempts + rest == before.attempts + before.rest && before.attempts <= attempts
      && before.errors <= errors
    }
  }

  /** A failure: every address was attempted, each attempt failed and its socket was closed, and
      the reply is the last failure's. */
  lemma Exhausted(d: Dial, plan: seq<Addr>)
    requires d.Answered() && d.reply != 0 && d.attempts + d.rest == plan
    ensures d.attempts == plan != [] && |d.errors| == |plan| && d.fd.Absent? && d.opens == d.closes
    ensures var e := d.errors[|plan| - 1];
      && (d.reply == 5 <==> e.ConnRefused?) && (d.reply == 3 <==> e.NetUnreachable?)
      && (d.reply == 4 <==> e.HostUnreachable?) && (d.reply == 6 <==> e.TimedOut?) && (d.reply == 1 <==> e.OtherErrno?)
    ensures forall i :: 0 <= i < |plan| ==> Blames(d.answers[i], d.errors[i])
  {
    assert d.rest == [];
    assert d.attempts + [] == d.attempts;
  }

  /** A success: the last of the addresses attempted is the origin, its socket is registered and
      the only one open, and every attempt before it failed. */
  lemma Reached(d: Dial, plan: seq<Addr>)
    requires d.Answered() && d.reply == 0 && d.attempts + d.rest == plan
    ensures d.fd.Registered? && d.opens == d.closes + 1 && d.attempts != [] && d.attempts <= plan
    ensures |d.errors| == |d.attempts| - 1 && d.addr == plan[|d.attempts| - 1]
    ensures d.Last().Connected? || d.Last().InProgress?
  {
    assert plan[|d.attempts| - 1] == d.attempts[|d.attempts| - 1];
  }

  /** The attempt under way fails, and its socket is closed. */
  lemma Fails(d: Dial, err: Errno, w: Dial)
    requires d.NoLeak() && d.Explained() && d.answers != [] && |d.errors| == |d.attempts| - 1
    requires Explains(d.Last(), err)
    requires w == d.(errors := d.errors + [err], fd := Absent, closes := w.closes)
    requires w.closes == d.closes + if d.fd.Absent? then 0 else 1
    ensures w.Between()
  {
  }

  /** An address has been picked and nothing has been attempted. */
  lemma Picked(d: Dial, e: Dial)
    requires d.Idle() && e == d.(addr := e.addr, rest := e.rest)
    ensures e.Between() && e.attempts == []
  {
  }

  class Dialer {
    var fd: OriginFd
    var addr: Addr
    /** origin_resolution_cur: the addresses not yet picked. */
    var rest: seq<Addr>
    var reply: byte
    ghost var attempts: seq<Addr>
    ghost var answers: seq<Attempt>
    ghost var errors: seq<Errno>
    ghost var opens: nat
    ghost var closes: nat

    ghost function View(): Dial
      reads this
    {
      Dial(fd, addr, rest, reply, attempts, answers, errors, opens, closes)
    }

    constructor ()
      ensures View().Idle()
    {
      fd, addr, rest, reply := Absent, [], [], 0;
      attempts, answers, errors, opens, closes := [], [], [], 0, 0;
    }

    /** request_pick_next. */
    method PickNext() returns (ok: bool)
      modifies `addr, `rest
      ensures ok <==> old(rest) != []
      ensures ok ==> old(rest) == [addr] + rest
      ensures !ok ==> rest == [] && addr == old(addr)
    {
      if rest == [] {
        return false;
      }
      addr, rest := rest[0], rest[1..];
      return true;
    }

    /** request_connect: attempts `addr`, and on failure the remaining addresses in order, up to the
        first that the system does not refuse. */
    method Connect() returns (st: Dialed)
      requires View().Between()
      modifies this
      ensures attempts + rest == old(attempts + [addr] + rest) && old(attempts) < attempts && old(errors) <= errors
      ensures View().After(st) && (st.Connecting? <==> View().Last().InProgress?)
      ensures reply == 0 && st.Replying? <==> View().Last().Connected?
      decreases |rest|, 1
    {
      var a: Attempt := *;
      attempts, answers := attempts + [addr], answers + [a];
      if a.NoSocket? {
        st := ConnectFail(a.e);
        return;
      }
      fd, opens := Open, opens + 1;
      if a.NotNonBlocking? || a.ConnectFails? {
        st := ConnectFail(a.e);
        return;
      }
      if a.Unregistered? {
        st := ConnectFail(OtherErrno);
        return;
      }
      fd := Registered;
      if a.Connected? {
        reply := 0;
        return Replying;
      }
      return Connecting;
    }

    /** request_connect_fail: closes the socket, then the next address or a failure reply. */
    method ConnectFail(err: Errno) returns (st: Dialed)
      requires View().NoLeak() && !fd.Registered? && |errors| == |attempts| - 1 && attempts[|attempts| - 1] == addr
      requires View().Explained() && Explains(View().Last(), err) && !View().Last().InProgress?
      modifies this
      ensures View().Continues(old(View()))
      ensures View().After(st) && (st.Connecting? <==> View().Last().InProgress?)
      ensures reply == 0 && st.Replying? <==> View().Last().Connected?
      decreases |rest|, 0
    {
      ghost var v := View();
      errors := errors + [err];
      if !fd.Absent? {
        fd, closes := Absent, closes + 1;
      }
      Fails(v, err, View());
      hide Dial.Explained;
      var more := PickNext();
      if more {
        st := Connect();
      } else {
        reply := ReplyFromErrno(err);
        st := Replying;
      }
    }

    /** request_connecting_on_write_ready: SO_ERROR, if there is one, decides the pending attempt. */
    method OnWritable() returns (st: Dialed, ghost soError: Option<Errno>)
      requires View().Valid() && fd.Registered? && View().Last().InProgress?
      modifies this
      ensures View().Continues(old(View())) && View().After(st)
      ensures soError.None? ==> st.Replying? && reply == 0 && attempts == old(attempts)
      ensures soError.Some? ==>
        && |errors| > |old(errors)| && errors[|old(errors)|] == soError.value
        && (old(rest) != [] ==> old(attempts) < attempts)
    {
      var pending := *;
      if !pending {
        reply := 0;
        return Replying, None;
      }
      var err: Errno := *;
      soError := Some(err);
      errors := errors + [err];
      fd, closes := Absent, closes + 1;
      var more := PickNext();
      if more {
        st := Connect();
      } else {
        reply := ReplyFromErrno(err);
        st := Replying;
      }
    }
  }
}
