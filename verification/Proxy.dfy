/**
  A proxied connection from its first byte to its last, over every schedule of events.
*/
module Proxy {
  import opened ByteBuffer
  import opened CredsMachine
  import opened HelloMachine
  import opened RequestMachine
  import opened Users
  import opened Connection
  import R = Relay

  predicate InTalk(s: State) { !s.Copy? && !s.Finished? && !s.Failed? }

  /** The selector offers an event, or the administrator adds or deletes an account. */
  datatype Turn = Offers(e: Event) | Adds(user: seq<byte>, pass: seq<byte>) | Deletes(user: seq<byte>)
  {
    /** The fields of an administrator's command have a length byte. */
    predicate Fits() { (Adds? ==> |user| <= 255 && |pass| <= 255) && (Deletes? ==> |user| <= 255) }
  }

  predicate AllFit(turns: seq<Turn>) { forall i :: 0 <= i < |turns| ==> turns[i].Fits() }

  /** What a turn does: an event is delivered if it is armed, and only the administrator changes the
      accounts. */
  ghost predicate Ticked(t: Turn, a: Scene, b: Scene) {
    match t
    case Offers(e) => if Armed(a.v, e) then exists did :: Turned(e, did, a, b) else b == a
    case Adds(user, pass) => b == a.(slots := AddTo(a.slots, CStr(user), CStr(pass)).1)
    case Deletes(user) => b == a.(slots := DelFrom(a.slots, CStr(user)).1)
  }

  /** A conversation: each scene comes from the one before by its turn. */
  ghost predicate Linked(turns: seq<Turn>, trail: seq<Scene>) {
    && 0 < |trail| <= |turns| + 1
    && var n := |trail| - 1;
      n > 0 ==> Linked(turns, trail[..n]) && Ticked(turns[n - 1], trail[n - 1], trail[n])
  }

  lemma LinkedStart(turns: seq<Turn>, a: Scene)
    requires SceneOk(a)
    ensures Linked(turns, [a]) && AllOk([a])
  {
  }

  lemma LinkedAdd(turns: seq<Turn>, trail: seq<Scene>, b: Scene)
    requires Linked(turns, trail) && |trail| <= |turns| && Ticked(turns[|trail| - 1], trail[|trail| - 1], b)
    requires AllOk(trail) && SceneOk(b)
    ensures Linked(turns, trail + [b]) && AllOk(trail + [b])
  {
    hide Ticked, SceneOk;
    assert (trail + [b])[..|trail|] == trail;
  }

  lemma {:induction false} LinkedAt(turns: seq<Turn>, trail: seq<Scene>, i: nat)
    requires Linked(turns, trail) && 0 < i < |trail|
    ensures i <= |turns| && Ticked(turns[i - 1], trail[i - 1], trail[i])
  {
    hide Ticked;
    if i < |trail| - 1 {
      LinkedAt(turns, trail[..|trail| - 1], i);
    }
    return;
  }

  // ----- what a client is judged by -----

  lemma TickTalks(t: Turn, a: Scene, b: Scene)
    requires Ticked(t, a, b) && Greeted(b.state)
    ensures TalkStep(a, b)
  {
    hide Turned;
    if t.Offers? && Armed(a.v, t.e) {
      var did :| Turned(t.e, did, a, b);
      TurnTalks(t.e, did, a, b);
    }
    return;
  }

  /** The accounts a client was judged by are those of the table when it was: `j` is the scene in
      which its greeting was complete, `k` the one in which its credentials were. */
  lemma {:induction false} JudgedByTable(turns: seq<Turn>, trail: seq<Scene>, i: nat) returns (j: nat, k: nat)
    requires Linked(turns, trail) && AllOk(trail) && !trail[0].started && i < |trail| && Greeted(trail[i].state)
    ensures j < i && trail[j].state.HelloRead? && trail[j + 1].state.HelloWrite?
    ensures trail[i].v.talk.atHello == Accounts(trail[j].slots)
    ensures trail[i].v.talk.creds.Some? ==>
      (k < i && trail[k].state.AuthRead? && trail[k + 1].state.AuthWrite? &&
       trail[i].v.talk.atAuth == Accounts(trail[k].slots))
  {
    hide Ticked, Accounts, SceneOk, Linked;
    assert SceneOk(trail[0]) && SceneOk(trail[i]);
    StartsAtHello(trail[0]);
    assert i > 0;
    var a, b := trail[i - 1], trail[i];
    LinkedAt(turns, trail, i);
    assert SceneOk(a);
    TickTalks(turns[i - 1], a, b);
    if a.state.AuthRead? {
      NoCredsYet(a);
    }
    if a.state.HelloRead? {
      j, k := i - 1, 0;
    } else {
      j, k := JudgedByTable(turns, trail, i - 1);
      if b.v.talk != a.v.talk {
        k := i - 1;
      }
    }
    return;
  }

  /** In any run a request is read only from a client that offered no authentication when there
      were no accounts, or whose credentials were those of an account when it gave them. */
  lemma Entitled(turns: seq<Turn>, trail: seq<Scene>, i: nat) returns (j: nat)
    requires Linked(turns, trail) && AllOk(trail) && !trail[0].started && i < |trail|
    requires var s := trail[i].state;
      s.RequestRead? || s.RequestResolv? || s.RequestConnecting? || s.RequestWrite? || s.Copy?
    ensures j < i
    ensures var t := trail[i].v.talk;
      if t.creds.None? then
        && trail[j].state.HelloRead? && trail[j + 1].state.HelloWrite?
        && 0 in t.methods && 2 !in t.methods && Accounts(trail[j].slots) == {}
      else
        && trail[j].state.AuthRead? && trail[j + 1].state.AuthWrite?
        && exists s :: s in trail[j].slots && s.inUse && s.name == CStr(t.creds.value.user) &&
             s.pass == CStr(t.creds.value.pass)
  {
    hide Ticked, Accounts, SceneOk, Linked, Matches;
    assert SceneOk(trail[i]);
    MayRequest(trail[i]);
    var k;
    j, k := JudgedByTable(turns, trail, i);
    if trail[i].v.talk.creds.Some? {
      j := k;
      MatchesMeans(trail[j].slots, trail[i].v.talk.creds.value);
    }
    return;
  }

  /** The answer to a greeting: user and password if the client offers it, nothing at all if it offers
      only that and there were no accounts then, and otherwise no method. */
  lemma GreetingAnswered(turns: seq<Turn>, trail: seq<Scene>, i: nat) returns (methods: seq<byte>)
    requires Linked(turns, trail) && AllOk(trail) && i + 1 < |trail|
    requires trail[i].state.HelloRead? && trail[i + 1].state.HelloWrite?
    ensures var w, free := trail[i + 1].v, forall s :: s in trail[i].slots ==> !s.inUse;
      && w.consumed == EncodeHello(methods) && |methods| <= 255
      && (w.replies == [5, 2] || w.replies == [5, 0] || w.replies == [5, 255])
      && (w.replies == [5, 2] <==> 2 in methods)
      && (w.replies == [5, 0] <==> 2 !in methods && 0 in methods && free)
  {
    hide Ticked, SceneOk, Linked, TalkStep, Select, Accounts;
    var a, b := trail[i], trail[i + 1];
    LinkedAt(turns, trail, i + 1);
    assert SceneOk(b);
    TickTalks(turns[i], a, b);
    HelloScene(a, b);
    methods := b.v.talk.methods;
    SelectMeans(methods, a.slots);
    return;
  }

  /** The answer to credentials: accepted exactly if an account of that moment has the name and the
      password given, each up to its first NUL. */
  lemma CredentialsAnswered(turns: seq<Turn>, trail: seq<Scene>, i: nat) returns (c: Creds)
    requires Linked(turns, trail) && AllOk(trail) && i + 1 < |trail|
    requires trail[i].state.AuthRead? && trail[i + 1].state.AuthWrite?
    ensures var v, w := trail[i].v, trail[i + 1].v;
      && w.consumed == v.talk.HelloIn() + EncodeCreds(c) && c.Fits()
      && (w.replies == [5, 2, 1, 0] || w.replies == [5, 2, 1, 1])
      && (w.replies == [5, 2, 1, 0] <==>
          exists s :: s in trail[i].slots && s.inUse && s.name == CStr(c.user) && s.pass == CStr(c.pass))
      && (0 !in c.user && 0 !in c.pass ==> (w.replies == [5, 2, 1, 0] <==> c in Accounts(trail[i].slots)))
  {
    hide Ticked, SceneOk, Linked, TalkStep, Matches, Accounts;
    var a, b := trail[i], trail[i + 1];
    LinkedAt(turns, trail, i + 1);
    assert SceneOk(a) && SceneOk(b);
    TickTalks(turns[i], a, b);
    AuthScene(a, b);
    c := b.v.talk.creds.value;
    MatchesMeans(a.slots, c);
    return;
  }

  /** A conversation that ends in order has turned the client down, and sent all of the answers of
      the writing state it ended from. */
  lemma ConversationEnds(turns: seq<Turn>, trail: seq<Scene>, i: nat) returns (code: byte)
    requires Linked(turns, trail) && AllOk(trail) && 0 < i < |trail|
    requires InTalk(trail[i - 1].state) && trail[i].state.Finished?
    ensures Writes(trail[i - 1].state) && trail[i].v.TurnedDown()
    ensures trail[i].v.sent == trail[i].v.replies == trail[i - 1].v.replies
    ensures var sent := trail[i].v.sent;
      || sent == [5, 255] || sent == [5, 2, 1, 1]
      || (code != 0 && sent == [5, 0] + [5, code, 0, 1, 0, 0, 0, 0, 0, 0])
      || (code != 0 && sent == [5, 2, 1, 0] + [5, code, 0, 1, 0, 0, 0, 0, 0, 0])
  {
    hide SceneOk, Turned, Linked, Snap.TurnedDown;
    var a, b := trail[i - 1], trail[i];
    LinkedAt(turns, trail, i);
    assert SceneOk(a) && SceneOk(b);
    var did :| Turned(turns[i - 1].e, did, a, b);
    EndsInFull(turns[i - 1].e, did, a, b);
    code := LastWords(b.v);
    return;
  }

  // ----- the addresses tried -----

  /** In any run the addresses to try are those the resolver gave, or the one in the request, at one
      scene `j`; from then on they and the request stay as they are. */
  lemma {:induction false} ListGiven(turns: seq<Turn>, trail: seq<Scene>, i: nat) returns (j: nat)
    requires Linked(turns, trail) && AllOk(trail) && !trail[0].started && i < |trail| && Decided(trail[i])
    ensures j < i && turns[j].Offers? && Decided(trail[j + 1])
    ensures trail[j].state.RequestRead? || trail[j].state.RequestResolv?
    ensures trail[i].v.request == trail[j + 1].v.request
    ensures trail[i].v.plan == Given(trail[j].state, turns[j].e, trail[i].v.request)
    ensures trail[j].state.RequestResolv? && turns[j].e.Resolved? && turns[j].e.addrs.Some? ==>
      trail[i].v.plan == turns[j].e.addrs.value
    ensures trail[j].state.RequestRead? && trail[i].v.request.Some? && trail[i].v.request.value.cmd == 1 ==>
      var r := trail[i].v.request.value; trail[i].v.plan == [r.addr + r.port]
  {
    hide Turned, SceneOk, Linked;
    assert SceneOk(trail[0]) && SceneOk(trail[i]);
    StartsAtHello(trail[0]);
    var a, b := trail[i - 1], trail[i];
    LinkedAt(turns, trail, i);
    assert SceneOk(a);
    if turns[i - 1].Offers? && Armed(a.v, turns[i - 1].e) {
      var did :| Turned(turns[i - 1].e, did, a, b);
      TurnGives(turns[i - 1].e, did, a, b);
    }
    if Decided(a) {
      j := ListGiven(turns, trail, i - 1);
    } else {
      j := i - 1;
    }
    return;
  }

  /** A failure reply, in any run: every address given was tried, in order and once, every socket was
      closed, and the code is the last failure's.  If none was given the code says why. */
  lemma FailureReply(turns: seq<Turn>, trail: seq<Scene>, i: nat) returns (j: nat)
    requires Linked(turns, trail) && AllOk(trail) && !trail[0].started && i < |trail| && Decided(trail[i])
    requires (trail[i].state.RequestWrite? || trail[i].state.Finished?) && trail[i].v.dial.reply != 0
    ensures j < i && turns[j].Offers? && (trail[j].state.RequestRead? || trail[j].state.RequestResolv?)
    ensures FailsOn(trail[i].v, Given(trail[j].state, turns[j].e, trail[i].v.request))
  {
    hide SceneOk, Linked, Decided, Given, FailsOn;
    j := ListGiven(turns, trail, i);
    assert SceneOk(trail[i]);
    SceneFails(trail[i]);
    return;
  }

  /** A success reply, in any run: the origin is the first of the addresses given that could be
      reached. */
  lemma SuccessReply(turns: seq<Turn>, trail: seq<Scene>, i: nat) returns (j: nat)
    requires Linked(turns, trail) && AllOk(trail) && !trail[0].started && i < |trail|
    requires trail[i].state.Copy? || (trail[i].state.RequestWrite? && trail[i].v.dial.reply == 0)
    ensures j < i && turns[j].Offers? && (trail[j].state.RequestRead? || trail[j].state.RequestResolv?)
    ensures SucceedsOn(trail[i].v, Given(trail[j].state, turns[j].e, trail[i].v.request))
  {
    hide SceneOk, Linked, Given, SucceedsOn;
    j := ListGiven(turns, trail, i);
    assert SceneOk(trail[i]);
    SceneSucceeds(trail[i]);
    return;
  }

  // ----- the runs -----

  /** An event: delivered if it is armed. */
  method Offer(c: Connection, e: Event, table: UserTable)
    requires c.Valid() && c.relay == null && InTalk(c.stm.State()) && table.Valid()
    modifies c, c.stm, c.io, c.io.cin, c.io.cout, c.io.rb, c.io.rb.data, c.io.wb, c.io.wb.data, c.dial
    ensures c.Valid() && (c.stm.State().Copy? <==> c.relay != null)
    ensures c.relay != null ==> fresh({c.relay, c.relay.up, c.relay.down, c.relay.up.sink, c.relay.down.src})
    ensures Ticked(Offers(e), old(c.Now(table)), c.Now(table)) && SceneOk(c.Now(table))
  {
    hide Turned, StateOk;
    c.ValidScene(table);
    var armed := c.IsArmed(e);
    if armed {
      var st;
      ghost var did;
      st, did := c.Deliver(e, table);
      assert Turned(e, did, old(c.Now(table)), c.Now(table));
    }
  }

  /** exec_command on the accounts. */
  method Administer(c: Connection, t: Turn, table: UserTable)
    requires table.Valid() && t.Fits() && !t.Offers?
    modifies table.slots
    ensures table.Valid() && Ticked(t, old(c.Now(table)), c.Now(table))
  {
    if t.Adds? {
      var r := table.AddUser(CStr(t.user), CStr(t.pass));
    } else {
      var found := table.DelUser(CStr(t.user));
    }
  }

  method Tick(c: Connection, t: Turn, table: UserTable)
    requires c.Valid() && c.relay == null && InTalk(c.stm.State()) && table.Valid() && t.Fits()
    modifies c, c.stm, c.io, c.io.cin, c.io.cout, c.io.rb, c.io.rb.data, c.io.wb, c.io.wb.data, c.dial, table.slots
    ensures c.Valid() && (c.stm.State().Copy? <==> c.relay != null) && table.Valid()
    ensures c.relay != null ==> fresh({c.relay, c.relay.up, c.relay.down, c.relay.up.sink, c.relay.down.src})
    ensures Ticked(t, old(c.Now(table)), c.Now(table)) && SceneOk(c.Now(table))
  {
    hide Ticked, SceneOk, Connection.Now, Connection.Valid;
    if t.Offers? {
      Offer(c, t.e, table);
    } else {
      assert c.RelayFootprint() == {};
      Administer(c, t, table);
      c.ValidScene(table);
    }
    return;
  }

  /** The turns of the conversation, up to the relay or the end. */
  method Converse(c: Connection, turns: seq<Turn>, table: UserTable) returns (ghost trail: seq<Scene>)
    requires c.Valid() && c.relay == null && InTalk(c.stm.State()) && table.Valid() && AllFit(turns)
    modifies c, c.stm, c.io, c.io.cin, c.io.cout, c.io.rb, c.io.rb.data, c.io.wb, c.io.wb.data, c.dial, table.slots
    ensures c.Valid() && (InTalk(c.stm.State()) ==> |trail| == |turns| + 1)
    ensures c.stm.State().Copy? <==> c.relay != null
    ensures c.relay != null ==> fresh({c.relay, c.relay.up, c.relay.down, c.relay.up.sink, c.relay.down.src})
    ensures 0 < |trail| && Linked(turns, trail) && AllOk(trail)
    ensures trail[0] == old(c.Now(table)) && trail[|trail| - 1] == c.Now(table)
  {
    hide Ticked, Linked, Connection.Now, Connection.Valid, SceneOk, AllOk;
    c.ValidScene(table);
    var n := 0;
    trail := [c.Now(table)];
    LinkedStart(turns, c.Now(table));
    while n < |turns| && InTalk(c.stm.State())
      invariant n <= |turns| && c.Valid() && table.Valid()
      invariant c.stm.State().Copy? <==> c.relay != null
      invariant c.relay != null ==> fresh({c.relay, c.relay.up, c.relay.down, c.relay.up.sink, c.relay.down.src})
      invariant |trail| == n + 1 && AllOk(trail)
      invariant Linked(turns, trail) && trail[0] == old(c.Now(table)) && trail[n] == c.Now(table)
    {
      Tick(c, turns[n], table);
      LinkedAdd(turns, trail, c.Now(table));
      trail := trail + [c.Now(table)];
      n := n + 1;
    }
    return;
  }

  /** Every byte the client sends is its part of the conversation or goes to the origin, and every
      byte it receives is an answer or comes from the origin; a client that gets this far was
      entitled to. */
  ghost predicate EndToEnd(c: Connection, up: R.Flow, down: R.Flow)
    reads c, c.io
  {
    && c.talk.Authorised() && c.request.Some? && c.request.value.cmd == 1
    && c.talk.In() + EncodeRequest(c.request.value) + (up.sent + up.pending + up.unread) == c.io.stream
    && down.sent + down.pending + down.unread == c.talk.Out() + ReplyBytes(0, c.sockname) + c.originStream
  }

  /** The conversation that a relay continues. */
  lemma HandedOver(v: Snap, up: R.Flow, down: R.Flow, stream: seq<byte>, fromOrigin: seq<byte>)
    requires v.HandedOver() && up.Conserves() && down.Conserves()
    requires v.consumed + up.stream == stream && down.stream == v.replies + fromOrigin
    ensures v.talk.Authorised() && v.request.Some? && v.request.value.cmd == 1
    ensures v.talk.In() + EncodeRequest(v.request.value) + (up.sent + up.pending + up.unread) == stream
    ensures down.sent + down.pending + down.unread == v.talk.Out() + ReplyBytes(0, v.sockname) + fromOrigin
  {
  }

  /** The COPY state, from the handover on. */
  method Relay(c: Connection, events: seq<R.Event>)
      returns (end: R.Outcome, ghost up: R.Flow, ghost down: R.Flow, ghost trail: seq<R.Scene>)
    requires c.relay != null && c.Relaying() && c.View().HandedOver()
    modifies c.relay, c.relay.up, c.relay.up.sink, c.relay.down, c.relay.down.src
    modifies c.io.cin, c.io.cout, c.io.rb, c.io.rb.data, c.io.wb, c.io.wb.data
    ensures up == c.relay.up.View() && down == c.relay.down.View() && EndToEnd(c, up, down)
    ensures end.Done? ==> Arrived(c, up, down)
    ensures R.Linked(events, trail, end) && trail[0] == old(c.relay.Now()) && trail[|trail| - 1] == c.relay.Now()
    ensures end.Copying? ==> |trail| == |events| + 1
    ensures R.AllGoOn(trail, R.Alive(trail, end))
  {
    hide R.Linked, R.AllGoOn;
    ghost var v := c.View();
    end, up, down, trail := R.Copy(c.relay, events);
    HandedOver(v, up, down, c.io.stream, c.originStream);
    if end.Done? {
      DeliveredAll(c, up, down);
    }
  }

  /** Everything arrived: at the origin the client's stream after its request, at the client the
      answers and then the origin's stream. */
  ghost predicate Arrived(c: Connection, up: R.Flow, down: R.Flow)
    reads c, c.io
  {
    && c.request.Some?
    && c.talk.In() + EncodeRequest(c.request.value) + up.sent == c.io.stream
    && down.sent == c.talk.Out() + ReplyBytes(0, c.sockname) + c.originStream
    && up.shutWr == 1 && down.shutWr == 1
  }

  lemma DeliveredAll(c: Connection, up: R.Flow, down: R.Flow)
    requires EndToEnd(c, up, down) && up.Delivered() && down.Delivered() && up.Conserves() && down.Conserves()
    ensures Arrived(c, up, down)
  {
    assert |up.unread| == 0 && |down.unread| == 0;
    assert up.sent + up.pending + up.unread == up.sent;
    assert down.sent + down.pending + down.unread == down.sent;
  }

  /** A connection over any schedule, any segmentation of what is received, any partial sends: first
      the conversation, then, if it gets that far, the relay. */
  method Serve(stream: seq<byte>, sockname: Bound, turns: seq<Turn>, relayed: seq<R.Event>, table: UserTable)
      returns (c: Connection, end: R.Outcome, ghost up: R.Flow, ghost down: R.Flow,
               ghost talk: seq<Scene>, ghost copy: seq<R.Scene>)
    requires table.Valid() && sockname.Fits() && AllFit(turns)
    modifies table.slots
    ensures c.io.stream == stream && c.sockname == sockname && (c.relay == null ==> c.Valid())
    ensures 0 < |talk| && Linked(turns, talk) && !talk[0].started && AllOk(talk)
    ensures talk[|talk| - 1].state.Copy? <==> c.relay != null
    ensures InTalk(talk[|talk| - 1].state) ==> |talk| == |turns| + 1
    ensures c.relay != null ==> up == c.relay.up.View() && down == c.relay.down.View() && EndToEnd(c, up, down)
    ensures c.relay != null ==> R.Linked(relayed, copy, end) && (end.Copying? ==> |copy| == |relayed| + 1)
    ensures c.relay != null ==> R.AllGoOn(copy, R.Alive(copy, end))
    ensures c.relay != null && end.Done? ==> Arrived(c, up, down)
  {
    hide Linked, R.Linked, R.AllGoOn, AllOk, Connection.Valid, Connection.Relaying, Connection.View, Snap.HandedOver,
      EndToEnd, Arrived;
    c, talk := Start(stream, sockname, turns, table);
    end, up, down, copy := R.Copying, R.NOTHING, R.NOTHING, [];
    if c.relay != null {
      end, up, down, copy := Relay(c, relayed);
    }
    return;
  }

  method Start(stream: seq<byte>, sockname: Bound, turns: seq<Turn>, table: UserTable)
      returns (c: Connection, ghost talk: seq<Scene>)
    requires table.Valid() && sockname.Fits() && AllFit(turns)
    modifies table.slots
    ensures c.io.stream == stream && c.sockname == sockname && fresh(c.io.Footprint())
    ensures if c.relay == null then c.Valid() else c.Relaying() && c.View().HandedOver()
    ensures c.relay != null ==> fresh({c.relay, c.relay.up, c.relay.down, c.relay.up.sink, c.relay.down.src})
    ensures 0 < |talk| && Linked(turns, talk) && !talk[0].started && talk[|talk| - 1] == c.Now(table) && AllOk(talk)
    ensures c.stm.State().Copy? <==> c.relay != null
    ensures InTalk(c.stm.State()) ==> |talk| == |turns| + 1
  {
    hide Linked, AllOk, Connection.Valid, Connection.Now;
    c := Accept(stream, sockname, table);
    talk := Converse(c, turns, table);
    if c.relay != null {
      c.ValidRelays();
    }
    return;
  }

  /** A connection that has been accepted and registered for reading. */
  method Accept(stream: seq<byte>, sockname: Bound, table: UserTable) returns (c: Connection)
    requires sockname.Fits()
    ensures c.Valid() && c.relay == null && c.stm.State().HelloRead? && !c.Now(table).started
    ensures c.io.stream == stream && c.sockname == sockname
    ensures fresh(c) && fresh(c.io.Footprint()) && fresh(c.stm) && fresh(c.dial)
  {
    c := new Connection(stream, sockname);
  }
}
