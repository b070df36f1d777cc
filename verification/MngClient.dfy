/**
  client.c: the administrator's side of the MNG/1 protocol, over the bytes the server sends.
*/
module MngClient {
  import opened Options
  import opened ByteBuffer
  import opened ByteMachine
  import opened CredsMachine
  import opened CommandMachine
  import opened AccessLog
  import opened Replies

  // ----- encoders -----

  /** memcpy of a field behind its length byte; strlen is truncated to uint8_t. */
  function Field(s: seq<byte>): seq<byte> { Prefixed(s[..|s| % 256]) }

  method Copy(buf: array<byte>, n: nat, s: seq<byte>)
    requires n + |s| <= buf.Length
    modifies buf
    ensures buf[n..n + |s|] == s && buf[..n] == old(buf[..n])
  {
    forall i | 0 <= i < |s| {
      buf[n + i] := s[i];
    }
  }

  method PutField(buf: array<byte>, n: nat, s: seq<byte>) returns (m: nat)
    requires n + 1 + |s| % 256 <= buf.Length
    modifies buf
    ensures m == n + |Field(s)| <= buf.Length && buf[..m] == old(buf[..n]) + Field(s)
  {
    var len := |s| % 256;
    buf[n] := len;
    Copy(buf, n + 1, s[..len]);
    m := n + 1 + len;
    assert buf[..m] == buf[..n] + [buf[n]] + buf[n + 1..m];
  }

  /** do_handshake. */
  method EncodeHandshake(name: seq<byte>, pass: seq<byte>) returns (req: seq<byte>)
    ensures req == [1] + Field(name) + Field(pass)
    ensures |name| <= 255 && |pass| <= 255 ==> req == EncodeCreds(Creds(name, pass))
  {
    var buf := new byte[513];
    buf[0] := 1;
    var n := PutField(buf, 1, name);
    n := PutField(buf, n, pass);
    req := buf[..n];
    FieldIsAll(name);
    FieldIsAll(pass);
  }

  /** cmd_add_user. */
  method EncodeAddUser(name: seq<byte>, pass: seq<byte>) returns (req: seq<byte>)
    ensures req == [1] + Field(name) + Field(pass)
    ensures |name| <= 255 && |pass| <= 255 ==> req == EncodeCommand(AddUser(name, pass))
  {
    var buf := new byte[513];
    buf[0] := 1;
    var n := PutField(buf, 1, name);
    n := PutField(buf, n, pass);
    req := buf[..n];
    FieldIsAll(name);
    FieldIsAll(pass);
  }

  /** cmd_del_user. */
  method EncodeDelUser(name: seq<byte>) returns (req: seq<byte>)
    ensures req == [2] + Field(name)
    ensures |name| <= 255 ==> req == EncodeCommand(DelUser(name))
  {
    var buf := new byte[257];
    buf[0] := 2;
    var n := PutField(buf, 1, name);
    req := buf[..n];
    FieldIsAll(name);
  }

  /** cmd_set_timeout. */
  method EncodeSetTimeout(seconds: nat) returns (req: seq<byte>)
    requires seconds < 0x1_0000_0000
    ensures req == EncodeCommand(SetTimeout(seconds))
  {
    var buf := new byte[5];
    buf[0] := 5;
    buf[1] := AsByte(seconds / 0x100_0000);
    buf[2] := AsByte(seconds / 0x1_0000);
    buf[3] := AsByte(seconds / 0x100);
    buf[4] := AsByte(seconds);
    req := buf[..];
  }

  lemma FieldIsAll(s: seq<byte>)
    ensures |s| <= 255 ==> Field(s) == Prefixed(s)
  {
    if |s| <= 255 {
      assert s[..|s|] == s;
    }
  }

  // ----- decoders -----

  /** rd_u16, rd_u32 and rd_u64: shifts in an unsigned type of as many bytes as are read. */
  method ReadBig(p: seq<byte>) returns (v: nat)
    ensures v == Value(p)
  {
    v := 0;
    var limit := Pow256(|p|);
    var i := 0;
    while i < |p|
      invariant 0 <= i <= |p| && v == Value(p[..i]) && limit == Pow256(|p|)
    {
      assert p[..i + 1][..i] == p[..i];
      ValueFits(p, i + 1);
      ModSmall(v * 256 + p[i], limit);
      v := (v * 256 + p[i]) % limit;
      i := i + 1;
    }
    assert p[..i] == p;
  }

  lemma ModSmall(x: nat, m: nat)
    requires x < m
    ensures x % m == x
  {
  }

  lemma ValueFits(p: seq<byte>, i: nat)
    requires i <= |p|
    ensures Value(p[..i]) < Pow256(|p|)
  {
    BigEndianValue(p[..i]);
    PowGrows(i, |p|);
  }

  lemma {:induction false} PowGrows(i: nat, n: nat)
    requires i <= n
    ensures Pow256(i) <= Pow256(n)
    decreases n - i
  {
    if i < n {
      PowGrows(i + 1, n);
    }
  }

  /** The bytes the server sends before the connection ends. */
  class Wire {
    var rest: seq<byte>

    constructor (rest: seq<byte>)
      ensures this.rest == rest
    {
      this.rest := rest;
    }

    /** read: some of what was asked for, or nothing at the end. */
    method Read(max: nat) returns (got: seq<byte>)
      requires max > 0
      modifies this
      ensures |got| <= max && got + rest == old(rest) && (got == [] ==> rest == [])
    {
      var n: nat :| n <= max && n <= |rest| && (n == 0 ==> rest == []);
      got, rest := rest[..n], rest[n..];
    }

    /** read_all: exactly `n` bytes, however they come. */
    method ReadAll(n: nat) returns (ok: bool, buf: seq<byte>)
      modifies this
      ensures ok <==> n <= |old(rest)|
      ensures ok ==> |buf| == n && buf + rest == old(rest)
    {
      buf := [];
      while |buf| < n
        invariant |buf| <= n && buf + rest == old(rest)
        decreases n - |buf|
      {
        ghost var before, left := buf, rest;
        var r := Read(n - |buf|);
        if r == [] {
          return false, buf;
        }
        buf := buf + r;
        assert before + r + rest == before + (r + rest);
      }
      ok := true;
    }

    method ReadByte() returns (b: Option<byte>)
      modifies this
      ensures b.None? <==> old(rest) == []
      ensures b.Some? ==> [b.value] + rest == old(rest)
    {
      var ok, buf := ReadAll(1);
      if !ok {
        return None;
      }
      assert buf == [buf[0]];
      return Some(buf[0]);
    }
  }
  /** A length in `n` bytes and as many characters, at most `cap` of them; `cut` says that the
      length was larger. */
  method ReadItem(w: Wire, n: nat, cap: nat, ghost item: seq<byte>, ghost more: seq<byte>)
      returns (r: Option<seq<byte>>, cut: bool)
    modifies w
    ensures r.Some? && !cut ==>
      |r.value| <= cap && |r.value| < Pow256(n) && Item(r.value, n) + w.rest == old(w.rest)
    ensures Pow256(n) == cap + 1 ==> !cut
    ensures |item| <= cap && |item| < Pow256(n) && Item(item, n) + more <= old(w.rest) ==>
      r == Some(item) && !cut && more <= w.rest
  {
    ghost var all := w.rest;
    cut := false;
    var ok, digits := w.ReadAll(n);
    if !ok {
      return None, false;
    }
    var len := ReadBig(digits);
    BigEndianValue(digits);
    ghost var fits := |item| <= cap && |item| < Pow256(n) && Item(item, n) + more <= all;
    if fits {
      ItemPrefix(all, digits, w.rest, item, more, n);
    }
    if len > cap {
      cut := true;
      len := cap;
    }
    ghost var tail := w.rest;
    var chars;
    ok, chars := w.ReadAll(len);
    if !ok {
      return None, cut;
    }
    r := Some(chars);
    if !cut {
      assert digits + chars + w.rest == digits + (chars + w.rest);
    }
    if fits {
      CharsPrefix(tail, chars, w.rest, item, more);
    }
  }

  lemma ItemPrefix(all: seq<byte>, digits: seq<byte>, tail: seq<byte>, item: seq<byte>, more: seq<byte>, n: nat)
    requires all == digits + tail && |digits| == n && |item| < Pow256(n) && Item(item, n) + more <= all
    ensures Value(digits) == |item| && item + more <= tail
  {
    var d := BigEndian(|item|, n);
    assert Item(item, n) + more == d + (item + more);
    assert d == all[..n] == digits;
    ValueBigEndian(|item|, n);
    assert tail == all[n..];
  }

  lemma CharsPrefix(tail: seq<byte>, chars: seq<byte>, rest: seq<byte>, item: seq<byte>, more: seq<byte>)
    requires tail == chars + rest && |chars| == |item| && item + more <= tail
    ensures chars == item && more <= rest
  {
    assert item == tail[..|item|] == chars;
    assert rest == tail[|item|..];
  }

  predicate AllWithin(items: seq<seq<byte>>, count: nat, cap: nat) {
    |items| == count && forall i :: 0 <= i < count ==> |items[i]| <= cap
  }

  /** The loop over `count` items. */
  method ReadItems(w: Wire, count: nat, n: nat, cap: nat, ghost items: seq<seq<byte>>)
      returns (r: Option<seq<seq<byte>>>, cut: bool)
    requires cap < Pow256(n)
    modifies w
    ensures r.Some? ==> |r.value| == count
    ensures r.Some? && !cut ==>
      Items(r.value, n) + w.rest == old(w.rest) && AllWithin(r.value, count, cap)
    ensures Pow256(n) == cap + 1 ==> !cut
    ensures AllWithin(items, count, cap) && Items(items, n) <= old(w.rest) ==> r == Some(items) && !cut
  {
    ghost var all := w.rest;
    ghost var fits := AllWithin(items, count, cap) && Items(items, n) <= all;
    var got: seq<seq<byte>> := [];
    cut := false;
    if fits {
      assert items[0..] == items;
    }
    var i := 0;
    while i < count
      invariant 0 <= i <= count && |got| == i
      invariant !cut ==> Items(got, n) + w.rest == all && AllWithin(got, i, cap)
      invariant Pow256(n) == cap + 1 ==> !cut
      invariant fits ==> !cut && got == items[..i] && Items(items[i..], n) <= w.rest
    {
      ghost var item, more := [], [];
      if fits {
        ItemsFromLeft(items[i..], n);
        item, more := items[i], Items(items[i + 1..], n);
        assert items[i..][1..] == items[i + 1..];
      }
      var one, c := ReadItem(w, n, cap, item, more);
      if one.None? {
        return None, cut;
      }
      cut := cut || c;
      if !cut {
        ItemsAppend(got, one.value, n, w.rest);
      }
      got := got + [one.value];
      i := i + 1;
    }
    r := Some(got);
    if fits {
      assert items[..i] == items;
    }
  }

  lemma ItemsAppend(got: seq<seq<byte>>, one: seq<byte>, n: nat, rest: seq<byte>)
    ensures Items(got + [one], n) + rest == Items(got, n) + (Item(one, n) + rest)
  {
    assert (got + [one])[..|got|] == got;
  }

  lemma ListPrefix(all: seq<byte>, digits: seq<byte>, tail: seq<byte>, items: seq<seq<byte>>, n: nat)
    requires all == [OK] + digits + tail && |digits| == n && |items| < Pow256(n)
    requires Listing(items, n) <= all
    ensures Value(digits) == |items| && Items(items, n) <= tail
  {
    hide Items, BigEndian, Value, Pow256;
    var d := BigEndian(|items|, n);
    assert d == all[1..1 + n] == digits;
    assert tail == all[1 + n..];
    ValueBigEndian(|items|, n);
    return;
  }

  /** What do_handshake makes of the server's answer. */
  datatype Verdict = Accepted | BadCredentials | VersionUnsupported | NotUnderstood | NoAnswer

  /** The second half of do_handshake: an answer of two bytes, however they come. */
  method ReadVerdict(w: Wire) returns (r: Verdict)
    modifies w
    ensures r.Accepted? <==> [1, 0] <= old(w.rest)
    ensures r.BadCredentials? <==> [1, 1] <= old(w.rest)
    ensures r.VersionUnsupported? <==> [1, 255] <= old(w.rest)
    ensures r.NoAnswer? <==> |old(w.rest)| < 2
    ensures !r.NoAnswer? ==> w.rest == old(w.rest)[2..]
  {
    ghost var all := w.rest;
    var ok, resp := w.ReadAll(2);
    if !ok {
      return NoAnswer;
    }
    assert resp == [resp[0], resp[1]] == all[..2] && w.rest == all[2..];
    if resp[0] != 1 {
      return NotUnderstood;
    }
    match resp[1] {
      case 0 => r := Accepted;
      case 1 => r := BadCredentials;
      case 255 => r := VersionUnsupported;
      case _ => r := NotUnderstood;
    }
  }

  /** A good status, and `n` more bytes. */
  method ReadHead(w: Wire, n: nat) returns (digits: Option<seq<byte>>)
    modifies w
    ensures digits.Some? ==> |digits.value| == n && [OK] + digits.value + w.rest == old(w.rest)
    ensures digits.None? ==> |old(w.rest)| < 1 + n || old(w.rest)[0] != OK
  {
    ghost var all := w.rest;
    var status := w.ReadByte();
    if status.None? || status.value != OK {
      return None;
    }
    assert all[0] == OK && |w.rest| == |all| - 1;
    var ok, d := w.ReadAll(n);
    if !ok {
      return None;
    }
    assert [OK] + (d + w.rest) == [OK] + d + w.rest;
    return Some(d);
  }

  lemma ListingHead(items: seq<seq<byte>>, n: nat, all: seq<byte>)
    requires Listing(items, n) <= all
    ensures |all| >= 1 + n && all[0] == OK
  {
    assert all[0] == Listing(items, n)[0];
  }

  lemma ListingJoin(all: seq<byte>, digits: seq<byte>, body: seq<byte>, items: seq<seq<byte>>, rest: seq<byte>, n: nat)
    requires all == [OK] + digits + body && digits == BigEndian(|items|, n) && body == Items(items, n) + rest
    ensures Listing(items, n) + rest == all
  {
  }

  /** A status, a count in `n` bytes and the items. */
  method ReadList(w: Wire, n: nat, cap: nat, ghost items: seq<seq<byte>>)
      returns (r: Option<seq<seq<byte>>>, cut: bool)
    requires cap < Pow256(n)
    modifies w
    ensures Pow256(n) == cap + 1 ==> !cut
    ensures r.Some? && !cut ==>
      && AllWithin(r.value, |r.value|, cap) && |r.value| < Pow256(n)
      && Listing(r.value, n) + w.rest == old(w.rest)
    ensures AllWithin(items, |items|, cap) && |items| < Pow256(n) && Listing(items, n) <= old(w.rest) ==>
      r == Some(items) && !cut
  {
    ghost var all := w.rest;
    ghost var sent := AllWithin(items, |items|, cap) && |items| < Pow256(n) && Listing(items, n) <= all;
    if sent {
      ListingHead(items, n, all);
    }
    var digits := ReadHead(w, n);
    if digits.None? {
      return None, false;
    }
    if sent {
      ListPrefix(all, digits.value, w.rest, items, n);
    }
    ghost var body := w.rest;
    var count := ReadBig(digits.value);
    BigEndianValue(digits.value);
    r, cut := ReadItems(w, count, n, cap, items);
    if r.Some? && !cut {
      ListingJoin(all, digits.value, body, r.value, w.rest, n);
    }
  }

  /** cmd_users: it reads back exactly the list that was sent. */
  method CmdUsers(w: Wire, ghost names: seq<seq<byte>>) returns (r: Option<seq<seq<byte>>>)
    modifies w
    ensures r.Some? ==> EncodeReply(UserList(r.value)) + w.rest == old(w.rest)
    ensures UserList(names).Fits() && EncodeReply(UserList(names)) <= old(w.rest) ==> r == Some(names)
  {
    assert Pow256(1) == 256;
    var cut;
    r, cut := ReadList(w, 1, 255, names);
  }

  /** cmd_log.  A longer entry would be cut off at 511 and the rest of it taken for the next
      entry; the server never sends one. */
  method CmdLog(w: Wire, ghost entries: seq<seq<byte>>) returns (r: Option<seq<seq<byte>>>, cut: bool)
    modifies w
    ensures r.Some? && !cut ==> EncodeReply(Entries(r.value)) + w.rest == old(w.rest)
    ensures Entries(entries).Fits() && EncodeReply(Entries(entries)) <= old(w.rest) ==> r == Some(entries) && !cut
  {
    assert Pow256(1) == 256 && Pow256(2) == 65536;
    r, cut := ReadList(w, 2, LOG_LINE_MAX - 1, entries);
  }

  /** cmd_stats. */
  method CmdStats(w: Wire, ghost s: Stats) returns (r: Option<Stats>)
    modifies w
    ensures r.Some? ==> r.value.Fits() && EncodeReply(Counters(r.value)) + w.rest == old(w.rest)
    ensures s.Fits() && EncodeReply(Counters(s)) <= old(w.rest) ==> r == Some(s)
  {
    ghost var all := w.rest;
    var ok, resp := w.ReadAll(29);
    if !ok || resp[0] != OK {
      return None;
    }
    var hist := ReadBig(resp[1..9]);
    var curr := ReadBig(resp[9..13]);
    var sent := ReadBig(resp[13..21]);
    var recv := ReadBig(resp[21..29]);
    r := Some(Stats(hist, curr, sent, recv));
    StatsBytes(resp);
    if s.Fits() && EncodeReply(Counters(s)) <= all {
      assert resp == all[..29] == EncodeReply(Counters(s));
      StatsRead(s);
    }
  }

  lemma StatsBytes(resp: seq<byte>)
    requires |resp| == 29 && resp[0] == OK
    ensures var s := Stats(Value(resp[1..9]), Value(resp[9..13]), Value(resp[13..21]), Value(resp[21..29]));
      s.Fits() && EncodeReply(Counters(s)) == resp
  {
    BigEndianValue(resp[1..9]);
    BigEndianValue(resp[9..13]);
    BigEndianValue(resp[13..21]);
    BigEndianValue(resp[21..29]);
    assert resp == [resp[0]] + (resp[1..9] + resp[9..13] + resp[13..21] + resp[21..29]);
  }

  lemma StatsRead(s: Stats)
    requires s.Fits()
    ensures var resp := EncodeReply(Counters(s));
      |resp| == 29 && resp[0] == OK &&
      s == Stats(Value(resp[1..9]), Value(resp[9..13]), Value(resp[13..21]), Value(resp[21..29]))
  {
    var resp := EncodeReply(Counters(s));
    assert resp[1..9] == BigEndian(s.hist, 8) && resp[9..13] == BigEndian(s.curr, 4);
    assert resp[13..21] == BigEndian(s.sent, 8) && resp[21..29] == BigEndian(s.recv, 8);
    ValueBigEndian(s.hist, 8);
    ValueBigEndian(s.curr, 4);
    ValueBigEndian(s.sent, 8);
    ValueBigEndian(s.recv, 8);
  }
}
