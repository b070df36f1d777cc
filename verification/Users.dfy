/**
  The user table of socks5.c: ten slots changed in place, by the administrator while connections
  are being authenticated against it.
*/
module Users {
  import opened ByteBuffer
  import opened CredsMachine

  const MAX_USERS := 10

  /** A runtime_user; name and pass are C strings. */
  datatype Slot = Slot(name: seq<byte>, pass: seq<byte>, inUse: bool)
  {
    /** char[256], with the NUL. */
    predicate Fits() { |name| <= 255 && |pass| <= 255 }
  }

  /** What strcmp and strncpy see of a field that may contain NULs. */
  function CStr(s: seq<byte>): (c: seq<byte>)
    ensures c <= s && 0 !in c
    ensures c == s <==> 0 !in s
    ensures |c| < |s| ==> s[|c|] == 0
  {
    if s == [] || s[0] == 0 then [] else [s[0]] + CStr(s[1..])
  }

  datatype Added = Ok | Full | Exists

  /** The names in use, in slot order. */
  function Names(slots: seq<Slot>): seq<seq<byte>> {
    if slots == [] then []
    else Names(slots[..|slots| - 1]) + if slots[|slots| - 1].inUse then [slots[|slots| - 1].name] else []
  }

  predicate Distinct(slots: seq<Slot>) {
    forall i, j :: 0 <= i < j < |slots| && slots[i].inUse && slots[j].inUse ==> slots[i].name != slots[j].name
  }

  function Accounts(slots: seq<Slot>): set<Creds> {
    set s | s in slots && s.inUse :: Creds(s.name, s.pass)
  }

  predicate Named(slots: seq<Slot>, name: seq<byte>) {
    exists s :: s in slots && s.inUse && s.name == name
  }

  /** The list names exactly the accounts, each once. */
  lemma {:induction false} NamesExact(slots: seq<Slot>, name: seq<byte>)
    ensures name in Names(slots) <==> Named(slots, name)
    ensures |Names(slots)| <= |slots|
    ensures Distinct(slots) ==> multiset(Names(slots))[name] <= 1
    decreases |slots|
  {
    if slots != [] {
      var front, last := slots[..|slots| - 1], slots[|slots| - 1];
      NamesExact(front, name);
      assert slots == front + [last];
      if Named(front, name) {
        var s :| s in front && s.inUse && s.name == name;
        assert s in slots;
      }
    }
  }

  /** With distinct names an account is looked up by its name alone. */
  lemma OnePassword(slots: seq<Slot>, a: Creds, b: Creds)
    requires Distinct(slots) && a in Accounts(slots) && b in Accounts(slots)
    ensures a.user == b.user ==> a == b
  {
    var i :| 0 <= i < |slots| && slots[i].inUse && Creds(slots[i].name, slots[i].pass) == a;
    var j :| 0 <= j < |slots| && slots[j].inUse && Creds(slots[j].name, slots[j].pass) == b;
  }

  /** Replacing one slot. */
  lemma Replaced(slots: seq<Slot>, k: nat, new': Slot)
    requires k < |slots| && Distinct(slots)
    requires new'.inUse ==> !Named(slots, new'.name) && !slots[k].inUse
    ensures Distinct(slots[k := new'])
    ensures new'.inUse ==> Accounts(slots[k := new']) == Accounts(slots) + {Creds(new'.name, new'.pass)}
    ensures !new'.inUse && slots[k].inUse ==>
      Accounts(slots[k := new']) == Accounts(slots) - {Creds(slots[k].name, slots[k].pass)}
    ensures !new'.inUse && slots[k].inUse ==> !Named(slots[k := new'], slots[k].name)
  {
    var after := slots[k := new'];
    assert after[k] == new';
    forall i | 0 <= i < |slots| && i != k
      ensures after[i] == slots[i] && slots[i] in slots && after[i] in after
    {
    }
    forall i, j | 0 <= i < j < |after| && after[i].inUse && after[j].inUse
      ensures after[i].name != after[j].name
    {
      assert slots[i] in slots && slots[j] in slots;
    }
    forall c
      ensures c in Accounts(after) <==>
        (c in Accounts(slots) && !(slots[k].inUse && c == Creds(slots[k].name, slots[k].pass))) ||
        (new'.inUse && c == Creds(new'.name, new'.pass))
    {
      if c in Accounts(after) {
        var i :| 0 <= i < |after| && after[i].inUse && Creds(after[i].name, after[i].pass) == c;
      }
      if c in Accounts(slots) {
        var i :| 0 <= i < |slots| && slots[i].inUse && Creds(slots[i].name, slots[i].pass) == c;
      }
    }
  }

  /** The first slot in use under the name from `i` on, or the end of the table. */
  function Find(slots: seq<Slot>, name: seq<byte>, i: nat): (k: nat)
    requires i <= |slots|
    ensures i <= k <= |slots|
    ensures k < |slots| ==> slots[k].inUse && slots[k].name == name
    ensures forall j :: i <= j < k ==> !(slots[j].inUse && slots[j].name == name)
    decreases |slots| - i
  {
    if i == |slots| || (slots[i].inUse && slots[i].name == name) then i else Find(slots, name, i + 1)
  }

  /** The first free slot from `i` on, or the end of the table. */
  function Free(slots: seq<Slot>, i: nat): (k: nat)
    requires i <= |slots|
    ensures i <= k <= |slots| && (k < |slots| ==> !slots[k].inUse)
    ensures forall j :: i <= j < k ==> slots[j].inUse
    decreases |slots| - i
  {
    if i == |slots| || !slots[i].inUse then i else Free(slots, i + 1)
  }

  function AddTo(slots: seq<Slot>, name: seq<byte>, pass: seq<byte>): (Added, seq<Slot>) {
    if Find(slots, name, 0) < |slots| then (Exists, slots)
    else if Free(slots, 0) < |slots| then (Ok, slots[Free(slots, 0) := Slot(name, pass, true)])
    else (Full, slots)
  }

  function DelFrom(slots: seq<Slot>, name: seq<byte>): (bool, seq<Slot>) {
    var k := Find(slots, name, 0);
    if k < |slots| then (true, slots[k := Slot([], [], false)]) else (false, slots)
  }

  lemma FindIsNamed(slots: seq<Slot>, name: seq<byte>)
    ensures Find(slots, name, 0) < |slots| <==> Named(slots, name)
  {
    if Find(slots, name, 0) < |slots| {
      assert slots[Find(slots, name, 0)] in slots;
    }
  }

  /** Adding: refused if the name is taken, and then if there is no room; otherwise exactly the
      one account is new. */
  lemma AddExact(slots: seq<Slot>, name: seq<byte>, pass: seq<byte>)
    requires Distinct(slots)
    ensures var (r, after) := AddTo(slots, name, pass);
      && Distinct(after) && |after| == |slots|
      && (r.Exists? <==> Named(slots, name))
      && (r.Full? <==> !Named(slots, name) && forall k :: 0 <= k < |slots| ==> slots[k].inUse)
      && Accounts(after) == Accounts(slots) + (if r.Ok? then {Creds(name, pass)} else {})
  {
    FindIsNamed(slots, name);
    if !Named(slots, name) && Free(slots, 0) < |slots| {
      Replaced(slots, Free(slots, 0), Slot(name, pass, true));
    }
  }

  /** Deleting: exactly the account of that name goes. */
  lemma DelExact(slots: seq<Slot>, name: seq<byte>)
    requires Distinct(slots)
    ensures var (found, after) := DelFrom(slots, name);
      && Distinct(after) && |after| == |slots|
      && (found <==> Named(slots, name)) && !Named(after, name)
      && Accounts(after) == set c | c in Accounts(slots) && c.user != name
  {
    FindIsNamed(slots, name);
    var k := Find(slots, name, 0);
    if k < |slots| {
      var gone := Creds(slots[k].name, slots[k].pass);
      assert slots[k] in slots && gone in Accounts(slots);
      Replaced(slots, k, Slot([], [], false));
      forall c | c in Accounts(slots) && c.user == name
        ensures c == gone
      {
        OnePassword(slots, c, gone);
      }
    }
  }

  class UserTable {
    const slots: array<Slot>

    ghost predicate Valid()
      reads slots
    {
      slots.Length == MAX_USERS && Distinct(slots[..]) && forall i :: 0 <= i < MAX_USERS ==> slots[i].Fits()
    }

    /** socks5_init; the command line gives at most ten users, and here distinct ones. */
    constructor (users: seq<Creds>)
      requires |users| <= MAX_USERS
      requires forall i :: 0 <= i < |users| ==> users[i].Fits()
      requires forall i, j :: 0 <= i < j < |users| ==> users[i].user != users[j].user
      ensures Valid() && fresh(slots) && Accounts(slots[..]) == set u | u in users
    {
      slots := new Slot[MAX_USERS](_ => Slot([], [], false));
      new;
      var i := 0;
      while i < |users|
        invariant 0 <= i <= |users|
        invariant forall k :: 0 <= k < i ==> slots[k] == Slot(users[k].user, users[k].pass, true)
        invariant forall k :: i <= k < MAX_USERS ==> slots[k] == Slot([], [], false)
      {
        slots[i] := Slot(users[i].user, users[i].pass, true);
        i := i + 1;
      }
      forall c
        ensures c in Accounts(slots[..]) <==> c in users
      {
        if c in users {
          var k :| 0 <= k < |users| && users[k] == c;
          assert slots[k] in slots[..];
        }
      }
    }

    /** socks5_validate_user. */
    method ValidateUser(name: seq<byte>, pass: seq<byte>) returns (ok: bool)
      requires Valid()
      ensures ok <==> Creds(name, pass) in Accounts(slots[..])
    {
      for i := 0 to MAX_USERS
        invariant forall k :: 0 <= k < i ==> !(slots[k].inUse && slots[k].name == name && slots[k].pass == pass)
      {
        if slots[i].inUse && slots[i].name == name && slots[i].pass == pass {
          assert slots[i] in slots[..];
          return true;
        }
      }
      return false;
    }

    /** socks5_has_users. */
    method HasUsers() returns (any: bool)
      requires Valid()
      ensures any <==> Accounts(slots[..]) != {}
    {
      for i := 0 to MAX_USERS
        invariant forall k :: 0 <= k < i ==> !slots[k].inUse
      {
        if slots[i].inUse {
          assert slots[i] in slots[..];
          assert Creds(slots[i].name, slots[i].pass) in Accounts(slots[..]);
          return true;
        }
      }
      return false;
    }

    /** socks5_add_user. */
    method AddUser(name: seq<byte>, pass: seq<byte>) returns (r: Added)
      requires Valid() && |name| <= 255 && |pass| <= 255
      modifies slots
      ensures Valid() && (r, slots[..]) == AddTo(old(slots[..]), name, pass)
    {
      ghost var before := slots[..];
      AddExact(before, name, pass);
      for i := 0 to MAX_USERS
        invariant Find(before, name, 0) == Find(before, name, i)
      {
        if slots[i].inUse && slots[i].name == name {
          return Exists;
        }
      }
      for i := 0 to MAX_USERS
        invariant slots[..] == before && Free(before, 0) == Free(before, i)
      {
        if !slots[i].inUse {
          slots[i] := Slot(name, pass, true);
          assert slots[..] == before[i := Slot(name, pass, true)];
          return Ok;
        }
      }
      return Full;
    }

    /** socks5_del_user. */
    method DelUser(name: seq<byte>) returns (found: bool)
      requires Valid()
      modifies slots
      ensures Valid() && (found, slots[..]) == DelFrom(old(slots[..]), name)
    {
      ghost var before := slots[..];
      DelExact(before, name);
      for i := 0 to MAX_USERS
        invariant slots[..] == before && Find(before, name, 0) == Find(before, name, i)
      {
        if slots[i].inUse && slots[i].name == name {
          slots[i] := Slot([], [], false);
          assert slots[..] == before[i := Slot([], [], false)];
          return true;
        }
      }
      return false;
    }

    /** socks5_list_users. */
    method ListUsers() returns (names: seq<seq<byte>>)
      requires Valid()
      ensures names == Names(slots[..])
    {
      names := [];
      for i := 0 to MAX_USERS
        invariant names == Names(slots[..i])
      {
        assert slots[..i + 1][..i] == slots[..i];
        if slots[i].inUse {
          names := names + [slots[i].name];
        }
      }
      assert slots[..MAX_USERS] == slots[..];
    }
  }
}
