/**
  Machines fed one byte at a time, as hello_feed, auth_feed, request_feed and cmd_feed are.
*/
module ByteMachine {
  import opened ByteBuffer

  /** Truncation to uint8_t. */
  function AsByte(n: int): byte { n % 256 }

  /** A field behind its length byte. */
  function Prefixed(s: seq<byte>): seq<byte> { [AsByte(|s|)] + s }

  datatype Status = Live | Done | Error

  /** `written` is the bytes that lead to a state. */
  datatype Machine<!S> = Machine(feed: (S, byte) -> S, status: S -> Status, written: S -> seq<byte>, ok: S -> bool)

  /** Every step from a live state appends its byte to what is written, or fails; the others
      ignore their input. */
  ghost predicate Exact<S(!new)>(m: Machine<S>) {
    && (forall s, b {:trigger m.feed(s, b)} :: m.ok(s) ==> m.ok(m.feed(s, b)))
    && (forall s, b {:trigger m.feed(s, b)} :: m.ok(s) && m.status(s).Live? ==>
          m.status(m.feed(s, b)).Error? || m.written(m.feed(s, b)) == m.written(s) + [b])
    && (forall s, b {:trigger m.feed(s, b)} :: !m.status(s).Live? ==> m.feed(s, b) == s)
  }

  function Run<S>(m: Machine<S>, s: S, w: seq<byte>): S
    decreases |w|
  {
    if w == [] then s else Run(m, m.feed(s, w[0]), w[1..])
  }

  lemma RunCons<S>(m: Machine<S>, s: S, b: byte, w: seq<byte>)
    ensures Run(m, s, [b] + w) == Run(m, m.feed(s, b), w)
  {
    assert ([b] + w)[1..] == w;
  }

  /** Feeding in two chunks is feeding their concatenation. */
  lemma {:induction false} RunChunks<S>(m: Machine<S>, s: S, a: seq<byte>, b: seq<byte>)
    ensures Run(m, s, a + b) == Run(m, Run(m, s, a), b)
    decreases |a|
  {
    if a == [] {
      assert a + b == b;
    } else {
      assert (a + b)[1..] == a[1..] + b;
      RunChunks(m, m.feed(s, a[0]), a[1..], b);
    }
  }

  lemma RunSnoc<S>(m: Machine<S>, s: S, w: seq<byte>, b: byte)
    ensures Run(m, s, w + [b]) == m.feed(Run(m, s, w), b)
  {
    RunChunks(m, s, w, [b]);
    assert [b][1..] == [];
  }

  lemma {:induction false} RunStuck<S(!new)>(m: Machine<S>, s: S, w: seq<byte>)
    requires Exact(m) && !m.status(s).Live?
    ensures Run(m, s, w) == s
    decreases |w|
  {
    if w != [] {
      RunStuck(m, s, w[1..]);
    }
  }

  /** What has been fed is what the state records: all of it while live, and when done a whole
      message, with whatever follows it. */
  lemma {:induction false} RunWritten<S(!new)>(m: Machine<S>, s: S, w: seq<byte>)
    requires Exact(m) && m.ok(s) && m.status(s).Live?
    ensures m.ok(Run(m, s, w))
    ensures m.status(Run(m, s, w)).Live? ==> m.written(Run(m, s, w)) == m.written(s) + w
    ensures m.status(Run(m, s, w)).Done? ==> m.written(Run(m, s, w)) <= m.written(s) + w
    decreases |w|
  {
    if w == [] {
      assert m.written(s) + w == m.written(s);
    } else {
      var t := m.feed(s, w[0]);
      assert m.written(s) + w == m.written(s) + [w[0]] + w[1..];
      if m.status(t).Live? {
        RunWritten(m, t, w[1..]);
      } else {
        RunStuck(m, t, w[1..]);
      }
    }
  }
  /** Once a machine has stopped on the beginning of an input, the rest of it changes nothing;
      and it has stopped in time. */
  lemma RunStopped<S(!new)>(m: Machine<S>, s: S, w: seq<byte>, taken: seq<byte>)
    requires Exact(m) && m.ok(s) && m.status(s).Live? && m.written(s) == [] && taken <= w
    ensures var t := Run(m, s, taken);
      && m.ok(t)
      && (!m.status(t).Live? ==> Run(m, s, w) == t)
      && (m.status(t).Done? ==> m.written(t) <= taken)
  {
    var t := Run(m, s, taken);
    RunWritten(m, s, taken);
    assert [] + taken == taken && w == taken + w[|taken|..];
    RunChunks(m, s, taken, w[|taken|..]);
    if !m.status(t).Live? {
      RunStuck(m, t, w[|taken|..]);
    }
  }
}
