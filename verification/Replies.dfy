/**
  The replies of the MNG/1 protocol as values, and the bytes they are on the wire.
*/
module Replies {
  import opened ByteBuffer
  import opened CommandMachine
  import opened AccessLog

  /** Unsigned and big-endian, in `n` bytes. */
  function BigEndian(v: nat, n: nat): (b: seq<byte>)
    ensures |b| == n
  {
    if n == 0 then [] else BigEndian(v / 256, n - 1) + [v % 256]
  }

  function Pow256(n: nat): (p: nat)
    ensures p > 0
  {
    if n == 0 then 1 else 256 * Pow256(n - 1)
  }

  /** Reading back what was written, and the other way round. */
  lemma {:induction false} ValueBigEndian(v: nat, n: nat)
    requires v < Pow256(n)
    ensures Value(BigEndian(v, n)) == v
  {
    if n > 0 {
      ValueBigEndian(v / 256, n - 1);
      var b := BigEndian(v, n);
      assert b[..n - 1] == BigEndian(v / 256, n - 1);
    }
  }

  lemma {:induction false} BigEndianValue(b: seq<byte>)
    ensures Value(b) < Pow256(|b|) && BigEndian(Value(b), |b|) == b
    decreases |b|
  {
    if b != [] {
      var front, last := b[..|b| - 1], b[|b| - 1];
      BigEndianValue(front);
      assert (Value(front) * 256 + last) / 256 == Value(front) && (Value(front) * 256 + last) % 256 == last;
      assert b == front + [last];
    }
  }

  datatype Stats = Stats(hist: nat, curr: nat, sent: nat, recv: nat)
  {
    predicate Fits() { hist < Pow256(8) && curr < Pow256(4) && sent < Pow256(8) && recv < Pow256(8) }
  }

  const OK: byte := 0
  const NOT_FOUND: byte := 1
  const FULL: byte := 2
  const BAD_ARGS: byte := 3

  datatype Reply =
    | Status(code: byte)
    | UserList(names: seq<seq<byte>>)
    | Counters(stats: Stats)
    | Entries(entries: seq<seq<byte>>)
  {
    /** What the server's tables can hold. */
    predicate Fits() {
      match this
      case Status(_) => true
      case UserList(names) => |names| <= 10 && forall i :: 0 <= i < |names| ==> |names[i]| <= 255
      case Counters(s) => s.Fits()
      case Entries(es) => |es| <= LOG_RECENT_MAX && forall i :: 0 <= i < |es| ==> |es[i]| < LOG_LINE_MAX
    }
  }

  /** Each item behind its length in `n` bytes. */
  function Items(items: seq<seq<byte>>, n: nat): seq<byte> {
    if items == [] then [] else Items(items[..|items| - 1], n) + Item(items[|items| - 1], n)
  }

  function Item(item: seq<byte>, n: nat): seq<byte> { BigEndian(|item|, n) + item }

  function EncodeStats(s: Stats): seq<byte> {
    BigEndian(s.hist, 8) + BigEndian(s.curr, 4) + BigEndian(s.sent, 8) + BigEndian(s.recv, 8)
  }

  /** A status, a count in `n` bytes and the items. */
  function Listing(items: seq<seq<byte>>, n: nat): seq<byte> { [OK] + BigEndian(|items|, n) + Items(items, n) }

  function EncodeReply(r: Reply): seq<byte> {
    match r
    case Status(c) => [c]
    case UserList(names) => Listing(names, 1)
    case Counters(s) => [OK] + EncodeStats(s)
    case Entries(es) => Listing(es, 2)
  }

  /** Byte by byte: a list of names is a status and one byte of count, a list of lines has two. */
  lemma UserListBytes(names: seq<seq<byte>>)
    requires |names| < 0x100
    ensures EncodeReply(UserList(names)) == [0, |names|] + Items(names, 1)
  {
    hide BigEndian, Items;
    Width1(|names|);
    assert [OK] + BigEndian(|names|, 1) == [0, |names|];
    return;
  }

  lemma EntriesBytes(es: seq<seq<byte>>)
    requires |es| < 0x100
    ensures EncodeReply(Entries(es)) == [0, 0, |es|] + Items(es, 2)
  {
    hide BigEndian, Items;
    Width2(|es|);
    assert [OK] + BigEndian(|es|, 2) == [0, 0, |es|];
    return;
  }

  /** Behind one byte of length, or two. */
  lemma ItemBytes(item: seq<byte>, high: byte, low: byte)
    requires |item| == 256 * high + low
    ensures high == 0 ==> Item(item, 1) == [low] + item
    ensures Item(item, 2) == [high, low] + item
  {
    hide BigEndian;
    assert |item| / 256 == high && |item| % 256 == low && high % 256 == high;
    Width1(|item|);
    Width2(|item|);
    return;
  }

  lemma Width1(v: nat)
    ensures BigEndian(v, 1) == [v % 256]
  {
    assert BigEndian(v / 256, 0) == [];
  }

  lemma Width2(v: nat)
    ensures BigEndian(v, 2) == [v / 256 % 256, v % 256]
  {
    assert BigEndian(v, 2) == BigEndian(v / 256, 1) + [v % 256];
    Width1(v / 256);
  }

  lemma {:induction false} ItemsFromLeft(items: seq<seq<byte>>, n: nat)
    requires items != []
    ensures Items(items, n) == Item(items[0], n) + Items(items[1..], n)
    decreases |items|
  {
    hide Item;
    if |items| == 1 {
      assert items[..0] == [] && items[1..] == [];
    } else {
      var front := items[..|items| - 1];
      ItemsFromLeft(front, n);
      assert items[1..][..|items| - 2] == front[1..];
    }
    return;
  }

  lemma ItemLength(item: seq<byte>, n: nat)
    ensures |Item(item, n)| == n + |item|
  {
  }

  lemma {:induction false} ItemsBound(items: seq<seq<byte>>, n: nat, each: nat)
    requires forall i :: 0 <= i < |items| ==> |items[i]| <= each
    ensures |Items(items, n)| <= |items| * (n + each)
    decreases |items|
  {
    if items != [] {
      var k := |items| - 1;
      ItemsBound(items[..k], n, each);
      ItemLength(items[k], n);
      assert |Items(items, n)| == |Items(items[..k], n)| + |Item(items[k], n)|;
      OneMore(k, n + each);
    }
  }

  lemma OneMore(k: nat, c: nat)
    ensures (k + 1) * c == k * c + c
  {
  }

  const REPLY_MAX := 51303

  lemma UserListBound(names: seq<seq<byte>>)
    requires UserList(names).Fits()
    ensures 0 < |EncodeReply(UserList(names))| <= 2 + 10 * 256
  {
    ItemsBound(names, 1, 255);
    assert |Items(names, 1)| <= |names| * 256;
  }

  lemma EntriesBound(es: seq<seq<byte>>)
    requires Entries(es).Fits()
    ensures 0 < |EncodeReply(Entries(es))| <= REPLY_MAX
  {
    ItemsBound(es, 2, LOG_LINE_MAX - 1);
    assert |Items(es, 2)| <= |es| * 513;
  }

  /** The longest reply is a full log of full lines, and it fits the write buffer. */
  lemma ReplyBound(r: Reply)
    requires r.Fits()
    ensures 0 < |EncodeReply(r)| <= REPLY_MAX < 65536
  {
    match r
    case UserList(names) => UserListBound(names);
    case Entries(es) => EntriesBound(es);
    case _ =>
  }

  lemma {:induction false} ItemsAttained(items: seq<seq<byte>>, n: nat, each: nat)
    requires forall i :: 0 <= i < |items| ==> |items[i]| == each
    ensures |Items(items, n)| == |items| * (n + each)
    decreases |items|
  {
    if items != [] {
      var k := |items| - 1;
      ItemsAttained(items[..k], n, each);
      ItemLength(items[k], n);
      OneMore(k, n + each);
    }
  }

  /** The bound is attained. */
  lemma ReplyBoundTight(line: seq<byte>)
    requires |line| == LOG_LINE_MAX - 1
    ensures Entries(seq(LOG_RECENT_MAX, _ => line)).Fits()
    ensures |EncodeReply(Entries(seq(LOG_RECENT_MAX, _ => line)))| == REPLY_MAX
  {
    ItemsAttained(seq(LOG_RECENT_MAX, _ => line), 2, LOG_LINE_MAX - 1);
  }
}
