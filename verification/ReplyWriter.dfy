/**
  The response builders of monitor.c: loops of buffer_write into the session's write buffer.
*/
module ReplyWriter {
  import opened ByteBuffer
  import opened ByteMachine
  import opened Replies

  /** `v >> (8 * i)`. */
  function Shift(v: nat, i: nat): nat {
    if i == 0 then v else Shift(v, i - 1) / 256
  }

  lemma {:induction false} ShiftFirst(v: nat, i: nat)
    requires i > 0
    ensures Shift(v, i) == Shift(v / 256, i - 1)
  {
    if i > 1 {
      ShiftFirst(v, i - 1);
    }
  }

  lemma {:induction false} ShiftedOut(v: nat, n: nat)
    requires v < Pow256(n)
    ensures Shift(v, n) == 0
  {
    if n > 0 {
      ShiftFirst(v, n);
      ShiftedOut(v / 256, n - 1);
    }
  }

  /** write_u16, write_u32 and write_u64: `n` bytes, the most significant first. */
  method WriteBig(b: Buffer, v: nat, n: nat)
    requires b.Valid() && b.write + n <= b.limit && v < Pow256(n)
    modifies b, b.data
    ensures b.Valid() && b.Contents() == old(b.Contents()) + BigEndian(v, n) && b.write == old(b.write) + n
  {
    var i := n;
    ghost var start, done := b.Contents(), [];
    ShiftedOut(v, n);
    hide Pow256;
    while i > 0
      invariant 0 <= i <= n && b.Valid() && b.write == old(b.write) + n - i
      invariant done == BigEndian(Shift(v, i), n - i) && b.Contents() == start + done
    {
      i := i - 1;
      b.WriteByte(AsByte(Shift(v, i)));
      done := done + [Shift(v, i) % 256];
    }
    return;
  }

  /** The inner loop: the characters of one field. */
  method WriteChars(b: Buffer, s: seq<byte>)
    requires b.Valid() && b.write + |s| <= b.limit
    modifies b, b.data
    ensures b.Valid() && b.Contents() == old(b.Contents()) + s && b.write == old(b.write) + |s|
  {
    var j := 0;
    ghost var start := b.Contents();
    while j < |s|
      invariant 0 <= j <= |s| && b.Valid() && b.write == old(b.write) + j
      invariant b.Contents() == start + s[..j]
    {
      assert s[..j + 1] == s[..j] + [s[j]];
      b.WriteByte(s[j]);
      j := j + 1;
    }
    assert s[..j] == s;
  }

  /** The loop over names or log entries. */
  method WriteItems(b: Buffer, items: seq<seq<byte>>, n: nat)
    requires forall i :: 0 <= i < |items| ==> |items[i]| < Pow256(n)
    requires b.Valid() && b.write + |Items(items, n)| <= b.limit
    modifies b, b.data
    ensures b.Valid() && b.Contents() == old(b.Contents()) + Items(items, n)
    ensures b.write == old(b.write) + |Items(items, n)|
  {
    hide Item, Pow256;
    var i := 0;
    ghost var start := b.Contents();
    while i < |items|
      invariant 0 <= i <= |items| && b.Valid()
      invariant b.Contents() == start + Items(items[..i], n) && b.write == old(b.write) + |Items(items[..i], n)|
    {
      ItemsStep(items, i, n);
      WriteItem(b, items[i], n);
      assert start + Items(items[..i], n) + Item(items[i], n) == start + Items(items[..i + 1], n);
      i := i + 1;
    }
    assert items[..i] == items;
    return;
  }

  /** One of them, behind its length. */
  method WriteItem(b: Buffer, item: seq<byte>, n: nat)
    requires |item| < Pow256(n)
    requires b.Valid() && b.write + |Item(item, n)| <= b.limit
    modifies b, b.data
    ensures b.Valid() && b.Contents() == old(b.Contents()) + Item(item, n)
    ensures b.write == old(b.write) + |Item(item, n)|
  {
    hide BigEndian, Pow256;
    WriteBig(b, |item|, n);
    WriteChars(b, item);
    return;
  }

  lemma ItemsStep(items: seq<seq<byte>>, i: nat, n: nat)
    requires i < |items|
    ensures Items(items[..i + 1], n) == Items(items[..i], n) + Item(items[i], n)
    ensures |Items(items[..i + 1], n)| <= |Items(items, n)|
  {
    assert items[..i + 1][..i] == items[..i];
    ItemsGrow(items, i + 1, n);
  }

  lemma {:induction false} ItemsGrow(items: seq<seq<byte>>, i: nat, n: nat)
    requires i <= |items|
    ensures |Items(items[..i], n)| <= |Items(items, n)|
    decreases |items| - i
  {
    if i == |items| {
      assert items[..i] == items;
    } else {
      ItemsGrow(items, i + 1, n);
      assert items[..i + 1][..i] == items[..i];
    }
  }

  method WriteStats(b: Buffer, s: Stats)
    requires b.Valid() && b.write + 28 <= b.limit && s.Fits()
    modifies b, b.data
    ensures b.Valid() && b.Contents() == old(b.Contents()) + EncodeStats(s)
  {
    ghost var start := b.Contents();
    WriteBig(b, s.hist, 8);
    WriteBig(b, s.curr, 4);
    WriteBig(b, s.sent, 8);
    WriteBig(b, s.recv, 8);
    Appended(start, BigEndian(s.hist, 8), BigEndian(s.curr, 4), BigEndian(s.sent, 8), BigEndian(s.recv, 8));
  }

  lemma Appended(s: seq<byte>, a: seq<byte>, b: seq<byte>, c: seq<byte>, d: seq<byte>)
    ensures s + a + b + c + d == s + (a + b + c + d)
  {
  }

  /** exec_command's answer: the reply's bytes, into an empty buffer large enough for any. */
  method WriteReply(b: Buffer, r: Reply)
    requires b.Valid() && b.Contents() == [] && r.Fits() && b.limit >= REPLY_MAX
    modifies b, b.data
    ensures b.Valid() && b.Contents() == EncodeReply(r)
  {
    ReplyBound(r);
    match r {
      case Status(code) => b.WriteByte(code);
      case UserList(names) => WriteList(b, names, 1);
      case Counters(s) =>
        b.WriteByte(OK);
        WriteStats(b, s);
      case Entries(es) => WriteList(b, es, 2);
    }
  }

  /** A status, a count and the items. */
  method WriteList(b: Buffer, items: seq<seq<byte>>, n: nat)
    requires b.Valid() && b.Contents() == [] && |items| < Pow256(n)
    requires forall i :: 0 <= i < |items| ==> |items[i]| < Pow256(n)
    requires 1 + n + |Items(items, n)| <= b.limit
    modifies b, b.data
    ensures b.Valid() && b.Contents() == Listing(items, n)
  {
    b.WriteByte(OK);
    WriteBig(b, |items|, n);
    WriteItems(b, items, n);
  }
}
