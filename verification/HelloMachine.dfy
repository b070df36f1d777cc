/**
  Method negotiation: section 3 of RFC 1928, as hello_feed accepts it.
*/
module HelloMachine {
  import opened ByteBuffer
  import opened ByteMachine

  function EncodeHello(methods: seq<byte>): seq<byte> { [5] + Prefixed(methods) }

  datatype HelloState =
    | HelloVersion
    | HelloNMethods
    | HelloMethods(count: byte, methods: seq<byte>)
    | HelloDone(methods: seq<byte>)
    | HelloError

  function HelloFeed(s: HelloState, b: byte): HelloState {
    match s
    case HelloVersion => if b == 5 then HelloNMethods else HelloError
    case HelloNMethods => if b == 0 then HelloDone([]) else HelloMethods(b, [])
    case HelloMethods(n, m) => if |m| + 1 == n then HelloDone(m + [b]) else HelloMethods(n, m + [b])
    case _ => s
  }

  function HelloStatus(s: HelloState): Status {
    if s.HelloDone? then Done else if s.HelloError? then Error else Live
  }

  function HelloWritten(s: HelloState): seq<byte> {
    match s
    case HelloVersion => []
    case HelloNMethods => [5]
    case HelloMethods(n, m) => [5, n] + m
    case HelloDone(m) => EncodeHello(m)
    case HelloError => []
  }

  predicate HelloOk(s: HelloState) {
    match s
    case HelloMethods(n, m) => |m| < n
    case HelloDone(m) => |m| <= 255
    case _ => true
  }

  const HELLO := Machine(HelloFeed, HelloStatus, HelloWritten, HelloOk)

  lemma HelloMachineExact()
    ensures Exact(HELLO)
  {
    forall s, b | HelloOk(s) && HelloStatus(s).Live?
      ensures var t := HelloFeed(s, b);
        HelloOk(t) && (HelloStatus(t).Error? || HelloWritten(t) == HelloWritten(s) + [b])
    {
    }
  }

  lemma {:induction false} HelloMethodsRun(n: byte, m: seq<byte>, more: seq<byte>)
    requires |m| + |more| == n && more != []
    ensures Run(HELLO, HelloMethods(n, m), more) == HelloDone(m + more)
    decreases |more|
  {
    if |more| == 1 {
      assert more[1..] == [] && m + more == m + [more[0]];
    } else {
      HelloMethodsRun(n, m + [more[0]], more[1..]);
      assert m + [more[0]] + more[1..] == m + more;
    }
  }

  lemma HelloAccepts(methods: seq<byte>)
    requires |methods| <= 255
    ensures Run(HELLO, HelloVersion, EncodeHello(methods)) == HelloDone(methods)
  {
    RunCons(HELLO, HelloVersion, 5, Prefixed(methods));
    RunCons(HELLO, HelloNMethods, |methods|, methods);
    if methods != [] {
      HelloMethodsRun(|methods|, [], methods);
      assert [] + methods == methods;
    }
  }

  /** The machine is done with `methods` exactly on the inputs that begin with their encoding. */
  lemma HelloExact(w: seq<byte>, methods: seq<byte>)
    requires |methods| <= 255
    ensures Run(HELLO, HelloVersion, w) == HelloDone(methods) <==> EncodeHello(methods) <= w
  {
    var e := EncodeHello(methods);
    HelloMachineExact();
    if e <= w {
      HelloAccepts(methods);
      assert w == e + w[|e|..];
      RunChunks(HELLO, HelloVersion, e, w[|e|..]);
      RunStuck(HELLO, HelloDone(methods), w[|e|..]);
    }
    if Run(HELLO, HelloVersion, w) == HelloDone(methods) {
      RunWritten(HELLO, HelloVersion, w);
      assert [] + w == w;
    }
  }

  lemma {:induction false} HelloGoesOn(s: HelloState, w: seq<byte>)
    requires !s.HelloVersion? && !s.HelloError?
    ensures !Run(HELLO, s, w).HelloError?
    decreases |w|
  {
    if w != [] {
      HelloGoesOn(HelloFeed(s, w[0]), w[1..]);
    }
  }

  /** Only the version can be wrong. */
  lemma HelloFails(w: seq<byte>)
    ensures Run(HELLO, HelloVersion, w).HelloError? <==> w != [] && w[0] != 5
  {
    HelloMachineExact();
    if w != [] {
      assert w == [w[0]] + w[1..];
      RunCons(HELLO, HelloVersion, w[0], w[1..]);
      if w[0] == 5 {
        HelloGoesOn(HelloNMethods, w[1..]);
      } else {
        RunStuck(HELLO, HelloError, w[1..]);
      }
    }
  }

  lemma HelloSplit(w: seq<byte>, n: nat)
    requires |w| >= 2 + n && w[0] == 5 && w[1] == n
    ensures EncodeHello(w[2..2 + n]) <= w
  {
    assert EncodeHello(w[2..2 + n]) == w[..2 + n];
  }

  lemma HelloJoin(w: seq<byte>, methods: seq<byte>)
    requires |methods| <= 255 && EncodeHello(methods) <= w
    ensures |w| >= 2 + |methods| && w[0] == 5 && w[1] == |methods|
  {
    var e := EncodeHello(methods);
    assert e[0] == w[0] && e[1] == w[1];
  }

  /** Byte by byte: the version is 5, then comes a count, then so many methods. */
  lemma HelloReads(w: seq<byte>, n: nat)
    requires |w| >= 2 && w[1] == n
    ensures var s := Run(HELLO, HelloVersion, w);
      && (s.HelloDone? <==> w[0] == 5 && |w| >= 2 + n)
      && (s.HelloDone? ==> s.methods == w[2..2 + n])
  {
    HelloMachineExact();
    RunWritten(HELLO, HelloVersion, w);
    assert [] + w == w;
    var s := Run(HELLO, HelloVersion, w);
    hide Run, EncodeHello;
    if w[0] == 5 && |w| >= 2 + n {
      HelloSplit(w, n);
      HelloExact(w, w[2..2 + n]);
    } else if s.HelloDone? {
      HelloJoin(w, s.methods);
    }
    return;
  }
}
