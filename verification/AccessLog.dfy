/**
  access_log.c: the ring of recent entries that GET_LOG reports.
*/
module AccessLog {
  import opened Options
  import opened ByteBuffer
  import Users

  const LOG_RECENT_MAX := 100
  const LOG_LINE_MAX := 512

  function Min(a: int, b: int): int { if a < b then a else b }

  /** snprintf into a line: what does not fit is cut off, and the last byte is kept for the NUL. */
  function Cut(s: seq<byte>): (c: seq<byte>)
    ensures c <= s && |c| == Min(|s|, 511)
  {
    s[..Min(|s|, LOG_LINE_MAX - 1)]
  }

  const SPACE: byte := 32
  const DASH: byte := 45
  const QUESTION: byte := 63

  /** A string argument, and what stands for one that is NULL. */
  function Text(s: Option<seq<byte>>, missing: byte): (t: seq<byte>)
    ensures 0 !in t || missing == 0
  {
    match s
    case None => [missing]
    case Some(chars) => Users.CStr(chars)
  }

  /** What is logged of one connection: the time, and three strings that may be NULL. */
  datatype Access = Access(
    stamp: seq<byte>, user: Option<seq<byte>>, dest: Option<seq<byte>>, result: Option<seq<byte>>)
  {
    /** Its line; an empty user is written like a missing one. */
    function Line(): (l: seq<byte>)
      ensures 0 !in l
    {
      var name := Text(user, DASH);
      Users.CStr(stamp) + [SPACE] + (if name == [] then [DASH] else name) + [SPACE] + Text(dest, DASH) + [SPACE]
        + Text(result, QUESTION)
    }
  }

  // ----- a line read back -----

  /** The fields between single blanks. */
  function Words(s: seq<byte>): (w: seq<seq<byte>>)
    ensures w != []
  {
    if s == [] then [[]]
    else if s[0] == 32 then [[]] + Words(s[1..])
    else var w := Words(s[1..]); [[s[0]] + w[0]] + w[1..]
  }

  lemma {:induction false} FirstWord(a: seq<byte>, rest: seq<byte>)
    requires 32 !in a
    ensures Words(a + [32] + rest) == [a] + Words(rest)
  {
    var s := a + [32] + rest;
    if a == [] {
      assert s[1..] == rest;
    } else {
      FirstWord(a[1..], rest);
      assert s[1..] == a[1..] + [32] + rest && s[0] == a[0] && a == [a[0]] + a[1..];
    }
  }

  /** The four fields of a line in their order: a missing or empty user and a missing destination
      are a dash, a missing result is a question mark. */
  lemma LineReads(a: Access)
    requires 32 !in a.stamp && (a.user.Some? ==> 32 !in a.user.value) && (a.dest.Some? ==> 32 !in a.dest.value)
    ensures var named := a.user.Some? && Users.CStr(a.user.value) != [];
      Words(a.Line()) ==
        [Users.CStr(a.stamp), if named then Users.CStr(a.user.value) else [45],
         if a.dest.Some? then Users.CStr(a.dest.value) else [45]]
        + Words(if a.result.Some? then Users.CStr(a.result.value) else [63])
  {
    var stamp, user, dest := Users.CStr(a.stamp), Text(a.user, DASH), Text(a.dest, DASH);
    var result := Text(a.result, QUESTION);
    var name := if user == [] then [DASH] else user;
    hide Words, Users.CStr;
    assert a.Line() == stamp + [32] + (name + [32] + (dest + [32] + result));
    FirstWord(stamp, name + [32] + (dest + [32] + result));
    FirstWord(name, dest + [32] + result);
    FirstWord(dest, result);
    return;
  }

  /** The entries the ring keeps: the last hundred ever logged, oldest first. */
  function Recent(all: seq<seq<byte>>): (r: seq<seq<byte>>)
    ensures |r| == Min(|all|, 100)
  {
    all[|all| - Min(|all|, LOG_RECENT_MAX)..]
  }

  /** An index into the ring that has gone round at most once. */
  function Wrap(x: nat): nat { if x >= LOG_RECENT_MAX then x - LOG_RECENT_MAX else x }

  lemma WrapIsMod(x: nat)
    requires x < 2 * LOG_RECENT_MAX
    ensures x % LOG_RECENT_MAX == Wrap(x)
  {
  }

  /** The place of the `j`-th entry kept, oldest first. */
  function Place(head: nat, count: nat, j: nat): (p: nat)
    requires head < LOG_RECENT_MAX && j < count <= LOG_RECENT_MAX
    ensures p < LOG_RECENT_MAX
  {
    Wrap(Wrap(head + LOG_RECENT_MAX - count) + j)
  }

  /** How many are kept after one more entry. */
  function Kept(n: nat): nat { if n < LOG_RECENT_MAX then n + 1 else n }

  /** The place of the oldest entry is the one that is given up; the others keep theirs. */
  lemma PlaceMoves(head: nat, n: nat, j: nat)
    requires head < LOG_RECENT_MAX && n <= LOG_RECENT_MAX && (n < LOG_RECENT_MAX ==> head == n) && j < Kept(n)
    ensures var p := Place(Wrap(head + 1), Kept(n), j);
      if j == Kept(n) - 1 then p == head
      else var i := j + n + 1 - Kept(n); i < n && p == Place(head, n, i) != head
  {
  }

  class Log {
    const recent: array<seq<byte>>
    /** recent_head: the next place to write. */
    var head: nat
    var count: nat
    /** Every entry ever logged. */
    ghost var all: seq<seq<byte>>

    ghost predicate Valid()
      reads this, recent
    {
      && recent.Length == LOG_RECENT_MAX && head < LOG_RECENT_MAX
      && count == Min(|all|, LOG_RECENT_MAX) && (count < LOG_RECENT_MAX ==> head == count)
      && (forall j: nat :: j < count ==> recent[Place(head, count, j)] == all[|all| - count + j])
      && (forall k :: 0 <= k < |all| ==> |all[k]| < LOG_LINE_MAX && 0 !in all[k])
    }

    constructor ()
      ensures Valid() && all == [] && fresh(recent)
    {
      recent := new seq<byte>[LOG_RECENT_MAX](_ => []);
      head, count, all := 0, 0, [];
    }

    /** access_log_entry.  No line holds a NUL, so strlen gives the whole length of it. */
    method Entry(a: Access)
      requires Valid()
      modifies this, recent
      ensures Valid() && all == old(all) + [Cut(a.Line())]
    {
      hide Cut, Access.Line, Place;
      var line := Cut(a.Line());
      ghost var h, n := head, count;
      recent[head] := line;
      all := all + [line];
      WrapIsMod(head + 1);
      head := (head + 1) % LOG_RECENT_MAX;
      if count < LOG_RECENT_MAX {
        count := count + 1;
      }
      forall j: nat | j < count
        ensures recent[Place(head, count, j)] == all[|all| - count + j]
      {
        PlaceMoves(h, n, j);
      }
      return;
    }

    /** access_log_get_recent: the caller's array decides how many of the entries kept it gets. */
    method GetRecent(max: nat) returns (entries: seq<seq<byte>>)
      requires Valid()
      ensures entries == Recent(all)[..Min(count, max)]
      ensures max >= LOG_RECENT_MAX ==> entries == Recent(all)
      ensures forall i :: 0 <= i < |entries| ==> |entries[i]| < LOG_LINE_MAX && Users.CStr(entries[i]) == entries[i]
    {
      var n := if count < max then count else max;
      WrapIsMod(head - count + LOG_RECENT_MAX);
      var start := (head - count + LOG_RECENT_MAX) % LOG_RECENT_MAX;
      ghost var kept := Recent(all);
      entries := [];
      for i := 0 to n
        invariant entries == kept[..i]
      {
        var p := (start + i) % LOG_RECENT_MAX;
        WrapIsMod(start + i);
        assert p == Place(head, count, i);
        assert recent[p] == kept[i];
        entries := entries + [recent[p]];
      }
    }
  }
}
