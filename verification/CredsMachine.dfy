/**
  User and password: section 2 of RFC 1929, and the MNG/1 handshake, which has the same
  format.
*/
module CredsMachine {
  import opened ByteBuffer
  import opened ByteMachine

  datatype Creds = Creds(user: seq<byte>, pass: seq<byte>)
  {
    predicate Fits() { |user| <= 255 && |pass| <= 255 }
  }

  function EncodeCreds(m: Creds): seq<byte> { [1] + Prefixed(m.user) + Prefixed(m.pass) }

  datatype CredsState =
    | CredsVersion
    | CredsUlen
    | CredsUname(ulen: byte, user: seq<byte>)
    | CredsPlen(user: seq<byte>)
    | CredsPasswd(user: seq<byte>, plen: byte, pass: seq<byte>)
    | CredsDone(creds: Creds)
    | CredsError

  function CredsFeed(s: CredsState, b: byte): CredsState {
    match s
    case CredsVersion => if b == 1 then CredsUlen else CredsError
    case CredsUlen => if b == 0 then CredsPlen([]) else CredsUname(b, [])
    case CredsUname(n, u) => if |u| + 1 == n then CredsPlen(u + [b]) else CredsUname(n, u + [b])
    case CredsPlen(u) => if b == 0 then CredsDone(Creds(u, [])) else CredsPasswd(u, b, [])
    case CredsPasswd(u, n, p) =>
      if |p| + 1 == n then CredsDone(Creds(u, p + [b])) else CredsPasswd(u, n, p + [b])
    case _ => s
  }

  function CredsStatus(s: CredsState): Status {
    if s.CredsDone? then Done else if s.CredsError? then Error else Live
  }

  function CredsWritten(s: CredsState): seq<byte> {
    match s
    case CredsVersion => []
    case CredsUlen => [1]
    case CredsUname(n, u) => [1, n] + u
    case CredsPlen(u) => [1] + Prefixed(u)
    case CredsPasswd(u, n, p) => [1] + Prefixed(u) + [n] + p
    case CredsDone(m) => EncodeCreds(m)
    case CredsError => []
  }

  predicate CredsOk(s: CredsState) {
    match s
    case CredsUname(n, u) => |u| < n
    case CredsPlen(u) => |u| <= 255
    case CredsPasswd(u, n, p) => |u| <= 255 && |p| < n
    case CredsDone(m) => m.Fits()
    case _ => true
  }

  const CREDS := Machine(CredsFeed, CredsStatus, CredsWritten, CredsOk)

  lemma CredsStep(s: CredsState, b: byte)
    requires CredsOk(s) && CredsStatus(s).Live?
    ensures var t := CredsFeed(s, b);
      CredsOk(t) && (CredsStatus(t).Error? || CredsWritten(t) == CredsWritten(s) + [b])
  {
  }

  lemma CredsMachineExact()
    ensures Exact(CREDS)
  {
    forall s, b | CredsOk(s) && CredsStatus(s).Live?
      ensures var t := CredsFeed(s, b);
        CredsOk(t) && (CredsStatus(t).Error? || CredsWritten(t) == CredsWritten(s) + [b])
    {
      CredsStep(s, b);
    }
  }

  lemma {:induction false} CredsUnameRun(n: byte, u: seq<byte>, more: seq<byte>, w: seq<byte>)
    requires |u| + |more| == n && more != []
    ensures Run(CREDS, CredsUname(n, u), more + w) == Run(CREDS, CredsPlen(u + more), w)
    decreases |more|
  {
    assert (more + w)[1..] == more[1..] + w;
    if |more| == 1 {
      assert more[1..] + w == w && u + more == u + [more[0]];
    } else {
      CredsUnameRun(n, u + [more[0]], more[1..], w);
      assert u + [more[0]] + more[1..] == u + more;
    }
  }

  lemma {:induction false} CredsPasswdRun(u: seq<byte>, n: byte, p: seq<byte>, more: seq<byte>)
    requires |p| + |more| == n && more != []
    ensures Run(CREDS, CredsPasswd(u, n, p), more) == CredsDone(Creds(u, p + more))
    decreases |more|
  {
    if |more| == 1 {
      assert more[1..] == [] && p + more == p + [more[0]];
    } else {
      CredsPasswdRun(u, n, p + [more[0]], more[1..]);
      assert p + [more[0]] + more[1..] == p + more;
    }
  }

  lemma CredsUserRun(user: seq<byte>, tail: seq<byte>)
    requires |user| <= 255
    ensures Run(CREDS, CredsUlen, Prefixed(user) + tail) == Run(CREDS, CredsPlen(user), tail)
  {
    assert (Prefixed(user) + tail)[1..] == user + tail;
    if user == [] {
      assert user + tail == tail;
    } else {
      CredsUnameRun(|user|, [], user, tail);
      assert [] + user == user;
    }
  }

  lemma CredsPassRun(user: seq<byte>, pass: seq<byte>)
    requires |pass| <= 255
    ensures Run(CREDS, CredsPlen(user), Prefixed(pass)) == CredsDone(Creds(user, pass))
  {
    assert Prefixed(pass)[1..] == pass;
    if pass != [] {
      CredsPasswdRun(user, |pass|, [], pass);
      assert [] + pass == pass;
    }
  }

  lemma CredsAccepts(m: Creds)
    requires m.Fits()
    ensures Run(CREDS, CredsVersion, EncodeCreds(m)) == CredsDone(m)
  {
    assert EncodeCreds(m)[1..] == Prefixed(m.user) + Prefixed(m.pass);
    CredsUserRun(m.user, Prefixed(m.pass));
    CredsPassRun(m.user, m.pass);
  }

  /** The machine is done with `m` exactly on the inputs that begin with the encoding of `m`;
      it is done on no shorter input, and no message is the beginning of another. */
  lemma CredsExact(w: seq<byte>, m: Creds)
    requires m.Fits()
    ensures Run(CREDS, CredsVersion, w) == CredsDone(m) <==> EncodeCreds(m) <= w
  {
    var e := EncodeCreds(m);
    CredsMachineExact();
    if e <= w {
      CredsAccepts(m);
      assert w == e + w[|e|..];
      RunChunks(CREDS, CredsVersion, e, w[|e|..]);
      RunStuck(CREDS, CredsDone(m), w[|e|..]);
    }
    if Run(CREDS, CredsVersion, w) == CredsDone(m) {
      RunWritten(CREDS, CredsVersion, w);
      assert [] + w == w;
    }
  }

  lemma {:induction false} CredsGoesOn(s: CredsState, w: seq<byte>)
    requires !s.CredsVersion? && !s.CredsError?
    ensures !Run(CREDS, s, w).CredsError?
    decreases |w|
  {
    if w != [] {
      CredsGoesOn(CredsFeed(s, w[0]), w[1..]);
    }
  }

  /** Only the version can be wrong. */
  lemma CredsFails(w: seq<byte>)
    ensures Run(CREDS, CredsVersion, w).CredsError? <==> w != [] && w[0] != 1
  {
    CredsMachineExact();
    if w != [] {
      assert w == [w[0]] + w[1..];
      RunCons(CREDS, CredsVersion, w[0], w[1..]);
      if w[0] == 1 {
        CredsGoesOn(CredsUlen, w[1..]);
      } else {
        RunStuck(CREDS, CredsError, w[1..]);
      }
    }
  }

  lemma CredsSplit(w: seq<byte>, u: nat, p: nat)
    requires |w| >= 3 + u + p && w[0] == 1 && w[1] == u && w[2 + u] == p
    ensures EncodeCreds(Creds(w[2..2 + u], w[3 + u..3 + u + p])) <= w
  {
    assert w[..3 + u + p] == [w[0], w[1]] + w[2..2 + u] + [w[2 + u]] + w[3 + u..3 + u + p];
  }

  lemma CredsJoin(w: seq<byte>, m: Creds)
    requires m.Fits() && EncodeCreds(m) <= w
    ensures |w| >= 3 + |m.user| + |m.pass| && w[0] == 1 && w[1] == |m.user| && w[2 + |m.user|] == |m.pass|
  {
    var e := EncodeCreds(m);
    assert e[0] == 1 && e[1] == |m.user| && e[2 + |m.user|] == |m.pass|;
  }

  /** Byte by byte: the version is 1, then come two fields, each behind its length. */
  lemma CredsReads(w: seq<byte>, u: nat, p: nat)
    requires |w| >= 3 + u && w[1] == u && w[2 + u] == p
    ensures var s := Run(CREDS, CredsVersion, w);
      && (s.CredsDone? <==> w[0] == 1 && |w| >= 3 + u + p)
      && (s.CredsDone? ==> s.creds == Creds(w[2..2 + u], w[3 + u..3 + u + p]))
  {
    CredsMachineExact();
    RunWritten(CREDS, CredsVersion, w);
    assert [] + w == w;
    var s := Run(CREDS, CredsVersion, w);
    hide Run, EncodeCreds;
    if w[0] == 1 && |w| >= 3 + u + p {
      CredsSplit(w, u, p);
      CredsExact(w, Creds(w[2..2 + u], w[3 + u..3 + u + p]));
    } else if s.CredsDone? {
      CredsJoin(w, s.creds);
    }
    return;
  }
}
