/**
  The request: section 4 of RFC 1928, as request_feed accepts it.
*/
module RequestMachine {
  import opened ByteBuffer
  import opened ByteMachine

  const IPV4: byte := 1
  const FQDN: byte := 3
  const IPV6: byte := 4

  datatype Request = Request(cmd: byte, atyp: byte, addr: seq<byte>, port: seq<byte>)
  {
    predicate Fits() { |port| == 2 && AddrFits(atyp, |addr|) }
  }

  /** How long an address of each type may be. */
  predicate AddrFits(atyp: byte, n: int) {
    (atyp == IPV4 && n == 4) || (atyp == IPV6 && n == 16) || (atyp == FQDN && 1 <= n <= 255)
  }

  function EncodeAddr(atyp: byte, addr: seq<byte>): seq<byte> {
    if atyp == FQDN then Prefixed(addr) else addr
  }

  function EncodeRequest(r: Request): seq<byte> {
    [5, r.cmd, 0, r.atyp] + EncodeAddr(r.atyp, r.addr) + r.port
  }

  datatype RequestState =
    | ReqVersion
    | ReqCmd
    | ReqRsv(cmd: byte)
    | ReqAtyp(cmd: byte)
    | ReqLen(cmd: byte)
    | ReqAddr(cmd: byte, atyp: byte, len: byte, addr: seq<byte>)
    | ReqPort(cmd: byte, atyp: byte, addr: seq<byte>, port: seq<byte>)
    | ReqDone(req: Request)
    | ReqError

  function RequestFeed(s: RequestState, b: byte): RequestState {
    match s
    case ReqVersion => if b == 5 then ReqCmd else ReqError
    case ReqCmd => ReqRsv(b)
    case ReqRsv(c) => if b == 0 then ReqAtyp(c) else ReqError
    case ReqAtyp(c) =>
      if b == IPV4 then ReqAddr(c, b, 4, [])
      else if b == IPV6 then ReqAddr(c, b, 16, [])
      else if b == FQDN then ReqLen(c)
      else ReqError
    case ReqLen(c) => if b == 0 then ReqError else ReqAddr(c, FQDN, b, [])
    case ReqAddr(c, t, n, a) => if |a| + 1 == n then ReqPort(c, t, a + [b], []) else ReqAddr(c, t, n, a + [b])
    case ReqPort(c, t, a, p) =>
      if |p| + 1 == 2 then ReqDone(Request(c, t, a, p + [b])) else ReqPort(c, t, a, p + [b])
    case _ => s
  }

  function RequestStatus(s: RequestState): Status {
    if s.ReqDone? then Done else if s.ReqError? then Error else Live
  }

  function RequestWritten(s: RequestState): seq<byte> {
    match s
    case ReqVersion => []
    case ReqCmd => [5]
    case ReqRsv(c) => [5, c]
    case ReqAtyp(c) => [5, c, 0]
    case ReqLen(c) => [5, c, 0, FQDN]
    case ReqAddr(c, t, n, a) => [5, c, 0, t] + (if t == FQDN then [n] else []) + a
    case ReqPort(c, t, a, p) => [5, c, 0, t] + EncodeAddr(t, a) + p
    case ReqDone(r) => EncodeRequest(r)
    case ReqError => []
  }

  predicate RequestOk(s: RequestState) {
    match s
    case ReqAddr(c, t, n, a) => AddrFits(t, n) && |a| < n
    case ReqPort(c, t, a, p) => AddrFits(t, |a|) && |p| < 2
    case ReqDone(r) => r.Fits()
    case _ => true
  }

  const REQUEST := Machine(RequestFeed, RequestStatus, RequestWritten, RequestOk)

  lemma RequestStep(s: RequestState, b: byte)
    requires RequestOk(s) && RequestStatus(s).Live?
    ensures var t := RequestFeed(s, b);
      RequestOk(t) && (RequestStatus(t).Error? || RequestWritten(t) == RequestWritten(s) + [b])
  {
  }

  lemma RequestMachineExact()
    ensures Exact(REQUEST)
  {
    forall s, b | RequestOk(s) && RequestStatus(s).Live?
      ensures var t := RequestFeed(s, b);
        RequestOk(t) && (RequestStatus(t).Error? || RequestWritten(t) == RequestWritten(s) + [b])
    {
      RequestStep(s, b);
    }
  }

  lemma {:induction false} RequestAddrRun(c: byte, t: byte, n: byte, a: seq<byte>, more: seq<byte>, w: seq<byte>)
    requires |a| + |more| == n && more != []
    ensures Run(REQUEST, ReqAddr(c, t, n, a), more + w) == Run(REQUEST, ReqPort(c, t, a + more, []), w)
    decreases |more|
  {
    assert (more + w)[1..] == more[1..] + w;
    if |more| == 1 {
      assert more[1..] + w == w && a + more == a + [more[0]];
    } else {
      RequestAddrRun(c, t, n, a + [more[0]], more[1..], w);
      assert a + [more[0]] + more[1..] == a + more;
    }
  }

  lemma RequestHeaderRun(r: Request, w: seq<byte>)
    requires r.Fits()
    ensures Run(REQUEST, ReqVersion, [5, r.cmd, 0, r.atyp] + EncodeAddr(r.atyp, r.addr) + w) ==
            Run(REQUEST, ReqAddr(r.cmd, r.atyp, |r.addr|, []), r.addr + w)
  {
    var tail := EncodeAddr(r.atyp, r.addr) + w;
    assert [5, r.cmd, 0, r.atyp] + EncodeAddr(r.atyp, r.addr) + w == [5, r.cmd, 0, r.atyp] + tail;
    RequestFixedRun(r.cmd, r.atyp, tail);
    if r.atyp == FQDN {
      assert tail[1..] == r.addr + w;
    }
  }

  lemma RequestFixedRun(cmd: byte, atyp: byte, tail: seq<byte>)
    ensures Run(REQUEST, ReqVersion, [5, cmd, 0, atyp] + tail) == Run(REQUEST, RequestFeed(ReqAtyp(cmd), atyp), tail)
  {
    assert [5, cmd, 0, atyp] + tail == [5] + ([cmd] + ([0] + ([atyp] + tail)));
    RunCons(REQUEST, ReqVersion, 5, [cmd] + ([0] + ([atyp] + tail)));
    RunCons(REQUEST, ReqCmd, cmd, [0] + ([atyp] + tail));
    RunCons(REQUEST, ReqRsv(cmd), 0, [atyp] + tail);
    RunCons(REQUEST, ReqAtyp(cmd), atyp, tail);
  }

  lemma RequestPortRun(r: Request)
    requires r.Fits()
    ensures Run(REQUEST, ReqPort(r.cmd, r.atyp, r.addr, []), r.port) == ReqDone(r)
  {
    assert r.port == [r.port[0]] + ([r.port[1]] + []);
    RunCons(REQUEST, ReqPort(r.cmd, r.atyp, r.addr, []), r.port[0], [r.port[1]] + []);
    RunCons(REQUEST, ReqPort(r.cmd, r.atyp, r.addr, [r.port[0]]), r.port[1], []);
    assert [] + [r.port[0]] == [r.port[0]];
  }

  lemma RequestAccepts(r: Request)
    requires r.Fits()
    ensures Run(REQUEST, ReqVersion, EncodeRequest(r)) == ReqDone(r)
  {
    RequestHeaderRun(r, r.port);
    RequestAddrRun(r.cmd, r.atyp, |r.addr|, [], r.addr, r.port);
    assert [] + r.addr == r.addr;
    RequestPortRun(r);
  }

  /** The machine is done with `r` exactly on the inputs that begin with the encoding of `r`. */
  lemma RequestExact(w: seq<byte>, r: Request)
    requires r.Fits()
    ensures Run(REQUEST, ReqVersion, w) == ReqDone(r) <==> EncodeRequest(r) <= w
  {
    var e := EncodeRequest(r);
    RequestMachineExact();
    if e <= w {
      RequestAccepts(r);
      assert w == e + w[|e|..];
      RunChunks(REQUEST, ReqVersion, e, w[|e|..]);
      RunStuck(REQUEST, ReqDone(r), w[|e|..]);
    }
    if Run(REQUEST, ReqVersion, w) == ReqDone(r) {
      RunWritten(REQUEST, ReqVersion, w);
      assert [] + w == w;
    }
  }

  lemma {:induction false} RequestGoesOn(s: RequestState, w: seq<byte>)
    requires s.ReqAddr? || s.ReqPort? || s.ReqDone?
    ensures !Run(REQUEST, s, w).ReqError?
    decreases |w|
  {
    if w != [] {
      RequestGoesOn(RequestFeed(s, w[0]), w[1..]);
    }
  }

  /** Where the address of a request begins, and how long it is: 4 bytes for type 1, 16 for type 4,
      and for type 3 a name behind its length. */
  predicate AddressAt(w: seq<byte>, k: nat, n: nat) {
    && |w| >= 5
    && ((w[3] == 1 && k == 4 && n == 4) || (w[3] == 4 && k == 4 && n == 16) || (w[3] == 3 && k == 5 && n == w[4] > 0))
  }

  lemma RequestSplit(w: seq<byte>, k: nat, n: nat)
    requires AddressAt(w, k, n) && w[0] == 5 && w[2] == 0 && |w| >= k + n + 2
    ensures var r := Request(w[1], w[3], w[k..k + n], w[k + n..k + n + 2]);
      r.Fits() && EncodeRequest(r) <= w
  {
    var r := Request(w[1], w[3], w[k..k + n], w[k + n..k + n + 2]);
    assert EncodeRequest(r) == w[..k] + w[k..k + n] + w[k + n..k + n + 2] == w[..k + n + 2];
  }

  lemma RequestJoin(w: seq<byte>, r: Request, k: nat, n: nat)
    requires AddressAt(w, k, n) && r.Fits() && EncodeRequest(r) <= w
    ensures w[0] == 5 && w[2] == 0 && |w| >= k + n + 2
  {
    var e := EncodeRequest(r);
    assert e[0] == w[0] && e[2] == w[2] && e[3] == w[3];
    assert r.atyp == FQDN ==> e[4] == |r.addr| == w[4];
  }

  /** Byte by byte: version 5, the command, a zero, the type, the address and two bytes of port. */
  lemma RequestReads(w: seq<byte>, k: nat, n: nat)
    requires AddressAt(w, k, n)
    ensures var s := Run(REQUEST, ReqVersion, w);
      && (s.ReqDone? <==> w[0] == 5 && w[2] == 0 && |w| >= k + n + 2)
      && (s.ReqDone? ==> s.req == Request(w[1], w[3], w[k..k + n], w[k + n..k + n + 2]))
  {
    RequestMachineExact();
    RunWritten(REQUEST, ReqVersion, w);
    assert [] + w == w;
    var s := Run(REQUEST, ReqVersion, w);
    hide Run, EncodeRequest;
    if w[0] == 5 && w[2] == 0 && |w| >= k + n + 2 {
      RequestSplit(w, k, n);
      RequestExact(w, Request(w[1], w[3], w[k..k + n], w[k + n..k + n + 2]));
    } else if s.ReqDone? {
      RequestJoin(w, s.req, k, n);
    }
    return;
  }

  /** A request is malformed for its version, a reserved byte that is not zero, a type of address
      there is not, or an empty name, and as soon as that is seen. */
  lemma RequestFails(w: seq<byte>)
    ensures Run(REQUEST, ReqVersion, w).ReqError? <==>
      || (|w| >= 1 && w[0] != 5) || (|w| >= 3 && w[2] != 0) || (|w| >= 4 && w[3] !in {1, 3, 4})
      || (|w| >= 5 && w[3] == 3 && w[4] == 0)
  {
    hide Run;
    if |w| >= 1 && w[0] != 5 {
      WrongVersion(w);
    } else if |w| >= 3 && w[2] != 0 {
      NotReserved(w);
    } else if |w| >= 4 {
      assert w == [5, w[1], 0, w[3]] + w[4..];
      RequestFixedRun(w[1], w[3], w[4..]);
      AddressFails(w[1], w[3], w[4..]);
    } else {
      NotYet(w);
    }
    return;
  }

  lemma WrongVersion(w: seq<byte>)
    requires |w| >= 1 && w[0] != 5
    ensures Run(REQUEST, ReqVersion, w).ReqError?
  {
    RequestMachineExact();
    RunStuck(REQUEST, ReqError, w[1..]);
  }

  lemma NotReserved(w: seq<byte>)
    requires |w| >= 3 && w[0] == 5 && w[2] != 0
    ensures Run(REQUEST, ReqVersion, w).ReqError?
  {
    RequestMachineExact();
    assert w == [5] + ([w[1]] + ([w[2]] + w[3..]));
    RunCons(REQUEST, ReqVersion, 5, [w[1]] + ([w[2]] + w[3..]));
    RunCons(REQUEST, ReqCmd, w[1], [w[2]] + w[3..]);
    RunCons(REQUEST, ReqRsv(w[1]), w[2], w[3..]);
    RunStuck(REQUEST, ReqError, w[3..]);
  }

  lemma AddressFails(cmd: byte, atyp: byte, tail: seq<byte>)
    ensures Run(REQUEST, RequestFeed(ReqAtyp(cmd), atyp), tail).ReqError? <==>
      atyp !in {1, 3, 4} || (atyp == 3 && tail != [] && tail[0] == 0)
  {
    RequestMachineExact();
    var s := RequestFeed(ReqAtyp(cmd), atyp);
    if s.ReqError? {
      RunStuck(REQUEST, s, tail);
    } else if s.ReqAddr? {
      RequestGoesOn(s, tail);
    } else if tail != [] {
      var t := RequestFeed(s, tail[0]);
      if t.ReqError? {
        RunStuck(REQUEST, t, tail[1..]);
      } else {
        RequestGoesOn(t, tail[1..]);
      }
    }
  }

  lemma NotYet(w: seq<byte>)
    requires |w| < 4 && (w != [] ==> w[0] == 5) && (|w| == 3 ==> w[2] == 0)
    ensures !Run(REQUEST, ReqVersion, w).ReqError?
  {
    if w != [] {
      var v := w[1..];
      assert Run(REQUEST, ReqVersion, w) == Run(REQUEST, ReqCmd, v);
      if v != [] {
        assert Run(REQUEST, ReqCmd, v) == Run(REQUEST, ReqRsv(v[0]), v[1..]);
        if v[1..] != [] {
          assert v[1..] == [w[2]] + [];
          RunCons(REQUEST, ReqRsv(v[0]), w[2], []);
        }
      }
    }
  }
}
