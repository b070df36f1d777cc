/**
  relay.c: the COPY state.  A Channel is one direction of the relay, from the socket it reads to
  the socket it writes; the relay owns two of them, on disjoint halves of the two sockets.
*/
module Relay {
  import opened ByteBuffer
  import opened Sockets

  /** One direction as values: what the source has yet to deliver, what is buffered, what the
      sink was sent, and everything the direction carries from the first byte ever sent. */
  datatype Flow = Flow(
    unread: seq<byte>, pending: seq<byte>, sent: seq<byte>, closed: bool, shutRd: bool, shutWr: nat,
    stream: seq<byte>)
  {
    /** No byte is lost, duplicated or reordered, however often the system calls come up short. */
    predicate Conserves() { sent + pending + unread == stream }

    predicate Drained() { closed && pending == [] }

    /** The half-close is exact: SHUT_WR has been issued once if the source has ended and the
        buffer in transit is empty, and not at all otherwise. */
    predicate Valid() {
      && Conserves() && (closed ==> unread == []) && (shutRd <==> closed)
      && shutWr == (if Drained() then 1 else 0)
    }

    /** All delivered, nothing left in transit, the sink closed exactly once. */
    predicate Delivered() { sent == stream && pending == [] && shutWr == 1 }

    /** What is still to be done in this direction. */
    function Measure(): nat { 2 * |unread| + |pending| + if closed then 0 else 1 }

    /** `n` bytes received, `n` bytes sent, and the end of stream noted. */
    function Take(n: nat): Flow
      requires n <= |unread|
    {
      this.(unread := unread[n..], pending := pending + unread[..n])
    }

    function Push(n: nat): Flow
      requires n <= |pending|
    {
      this.(pending := pending[n..], sent := sent + pending[..n])
    }

    function Close(): Flow {
      this.(closed := true, shutRd := true, shutWr := if pending == [] then shutWr + 1 else shutWr)
    }
  }

  const NOTHING := Flow([], [], [], false, false, 0, [])

  lemma TakeKeeps(f: Flow, n: nat)
    requires f.Conserves() && n <= |f.unread|
    ensures f.Take(n).Conserves() && f.Take(n).Measure() == f.Measure() - n
    ensures n == 0 ==> f.Take(n) == f
  {
    assert f.unread == f.unread[..n] + f.unread[n..];
    assert f.sent + (f.pending + f.unread[..n]) + f.unread[n..] == f.sent + f.pending + f.unread;
    if n == 0 {
      assert f.pending + f.unread[..n] == f.pending;
    }
  }

  lemma PushKeeps(f: Flow, n: nat)
    requires f.Conserves() && n <= |f.pending|
    ensures f.Push(n).Conserves() && f.Push(n).Measure() == f.Measure() - n
    ensures n == 0 ==> f.Push(n) == f
  {
    assert f.pending == f.pending[..n] + f.pending[n..];
    assert (f.sent + f.pending[..n]) + f.pending[n..] == f.sent + f.pending;
    if n == 0 {
      assert f.sent + f.pending[..n] == f.sent;
    }
  }

  lemma CloseKeeps(f: Flow)
    requires f.Valid() && !f.closed && f.unread == []
    ensures f.Close().Valid() && f.Close().Measure() == f.Measure() - 1
  {
  }

  lemma DrainedIsDelivered(f: Flow)
    requires f.Valid() && f.Drained()
    ensures f.Delivered()
  {
    assert f.sent == f.sent + f.pending + f.unread;
  }

  /** What the recv loop was answered: data until the buffer was full, or until the answer that
      ended it. */
  predicate Filled(got: seq<IoResult>, room: bool, gotEof: bool, ok: bool) {
    && (forall i :: 0 <= i < |got| - 1 ==> got[i].Moved?)
    && if got == [] || got[|got| - 1].Moved? then !room && ok && !gotEof
       else ok == !got[|got| - 1].Failed? && gotEof == got[|got| - 1].Eof?
  }

  lemma FilledMeans(got: seq<IoResult>, room: bool, gotEof: bool, ok: bool)
    requires Filled(got, room, gotEof, ok)
    ensures (Failed in got <==> !ok) && (Eof in got <==> gotEof)
  {
    if got != [] {
      assert got[|got| - 1] in got;
    }
  }

  /** The bytes that came with these answers. */
  function Total(got: seq<IoResult>): nat {
    var n := |got| - 1;
    if n < 0 then 0 else Total(got[..n]) + got[n].Count()
  }

  /** A readable source: what came is appended, one send follows if anything is pending, and the end
      of stream is noted; a call that fails ends it there. */
  predicate ReadStep(f: Flow, got: seq<IoResult>, put: seq<IoResult>, g: Flow) {
    && Total(got) <= |f.unread| && (Eof in got ==> Total(got) == |f.unread|)
    && var t := f.Take(Total(got));
      if Failed in got then g == t && put == []
      else if t.pending == [] then put == [] && g == (if Eof in got then t.Close() else t)
      else
        && |put| == 1 && put[0].Count() <= |t.pending|
        && var s := t.Push(put[0].Count());
          g == if Eof in got && put[0] != Failed then s.Close() else s
  }

  /** A writable sink: what it takes is gone, and the last byte of a closed source closes it. */
  predicate WriteStep(f: Flow, answer: IoResult, g: Flow) {
    && answer.Count() <= |f.pending|
    && var s := f.Push(answer.Count());
      g == if answer.Count() > 0 && s.Drained() then s.(shutWr := s.shutWr + 1) else s
  }

  /** Whatever the answers, nothing is lost; and as long as no call fails the half-close is exact. */
  lemma ReadStepKeeps(f: Flow, got: seq<IoResult>, put: seq<IoResult>, g: Flow)
    requires f.Conserves() && ReadStep(f, got, put, g)
    ensures g.Conserves() && g.stream == f.stream
    ensures f.Valid() && !f.closed && Failed !in got && Failed !in put ==> g.Valid()
  {
    TakeKeeps(f, Total(got));
    if put != [] {
      PushKeeps(f.Take(Total(got)), put[0].Count());
    }
  }

  lemma WriteStepKeeps(f: Flow, answer: IoResult, g: Flow)
    requires f.Conserves() && WriteStep(f, answer, g)
    ensures g.Conserves() && g.stream == f.stream
    ensures f.Valid() && f.pending != [] ==> g.Valid()
  {
    PushKeeps(f, answer.Count());
  }

  /** A direction between two events, with the system's answers so far. */
  datatype Line = Line(f: Flow, gets: seq<IoResult>, puts: seq<IoResult>, room: bool)

  predicate ReadLine(a: Line, got: seq<IoResult>, put: seq<IoResult>, b: Line) {
    && ReadStep(a.f, got, put, b.f) && (got == [] ==> !a.room)
    && b.gets == a.gets + got && b.puts == a.puts + put
  }

  predicate WriteLine(a: Line, answer: IoResult, b: Line) {
    WriteStep(a.f, answer, b.f) && b.gets == a.gets && b.puts == a.puts + [answer]
  }

  class Channel {
    const src: InPort
    const buf: Buffer
    const sink: OutPort
    /** client_closed or origin_closed: the source has sent its end of stream. */
    var closed: bool
    ghost const stream: seq<byte>

    ghost function Footprint(): set<object> {
      {this, src, buf, buf.data, sink}
    }

    ghost function View(): Flow
      reads this, src, buf, buf.data, sink
    {
      Flow(src.unread, if buf.Valid() then buf.Contents() else [], sink.sent, closed, src.shutRd, sink.shutWr, stream)
    }

    ghost function Now(): Line
      reads this, src, buf, buf.data, sink
    {
      Line(View(), src.log, sink.log, buf.CanWrite())
    }

    ghost predicate Conserves()
      reads this, src, buf, buf.data, sink
    {
      buf.Valid() && View().Conserves()
    }

    ghost predicate Valid()
      reads this, src, buf, buf.data, sink
    {
      buf.Valid() && buf.limit > 0 && View().Valid()
    }

    predicate Drained()
      reads this, buf
    {
      closed && !buf.CanRead()
    }

    constructor (src: InPort, buf: Buffer, sink: OutPort)
      requires buf.Valid() && buf.limit > 0 && !src.shutRd && sink.shutWr == 0
      ensures Valid() && !closed
      ensures this.src == src && this.buf == buf && this.sink == sink
      ensures stream == sink.sent + buf.Contents() + src.unread
    {
      this.src, this.buf, this.sink := src, buf, sink;
      closed := false;
      stream := sink.sent + buf.Contents() + src.unread;
    }

    /** The recv loop: what it takes goes to the end of the buffer, in order. */
    method Fill() returns (gotEof: bool, ok: bool, ghost taken: nat, ghost got: seq<IoResult>)
      requires buf.Valid()
      modifies src`unread, src`log, buf, buf.data
      ensures buf.Valid() && taken <= |old(src.unread)| && View() == old(View()).Take(taken)
      ensures src.log == old(src.log) + got && Filled(got, buf.CanWrite(), gotEof, ok)
      ensures gotEof ==> src.unread == [] && taken == |old(src.unread)|
      ensures taken == Total(got) && (got == [] ==> !old(buf.CanWrite()))
    {
      gotEof, ok, taken, got := false, true, 0, [];
      ghost var start, all := buf.Contents(), src.unread;
      while buf.CanWrite()
        invariant buf.Valid() && ok && !gotEof && taken <= |all|
        invariant src.log == old(src.log) + got && forall i :: 0 <= i < |got| ==> got[i].Moved?
        invariant taken == Total(got)
        invariant got == [] ==> buf.CanWrite() == old(buf.CanWrite())
        invariant src.unread == all[taken..]
        invariant buf.Contents() == start + all[..taken]
        decreases buf.limit - buf.write
      {
        var n := RecvInto(src, buf);
        assert (got + [n])[..|got|] == got;
        got := got + [n];
        match n {
          case Moved(k) =>
            TakeMore(start, all, taken, k);
            taken := taken + k;
          case Eof =>
            gotEof := true;
            break;
          case WouldBlock => break;
          case Failed =>
            ok := false;
            break;
        }
      }
    }

    static lemma TakeMore(start: seq<byte>, all: seq<byte>, taken: nat, k: nat)
      requires taken + k <= |all|
      ensures start + all[..taken] + all[taken..][..k] == start + all[..taken + k]
      ensures all[taken..][k..] == all[taken + k..]
    {
    }

    /** One send of what is pending. */
    method Flush() returns (ok: bool, moved: nat, ghost answer: IoResult)
      requires buf.Valid()
      modifies sink`sent, sink`log, buf, buf.data
      ensures buf.Valid() && moved <= |old(buf.Contents())| && View() == old(View()).Push(moved)
      ensures sink.log == old(sink.log) + [answer] && ok == !answer.Failed?
      ensures moved == answer.Count()
    {
      ghost var before, pending := sink.sent, buf.Contents();
      ok, moved := true, 0;
      assert pending[0..] == pending && before + pending[..0] == before;
      var n := sink.Send(buf);
      if n.Moved? && n.n > 0 {
        buf.ReadAdv(n.n);
        moved := n.n;
      } else if n.Moved? {
        assert before + pending[..n.n] == before;
      } else if n.Failed? {
        ok := false;
      }
      answer := n;
    }

    /** relay_on_read_ready for this direction: fill, send on at once, note the end of stream.  It
        fails only if the system does, and sends on whatever it has. */
    method OnReadable() returns (ok: bool, ghost got: seq<IoResult>, ghost put: seq<IoResult>)
      requires Valid() && !closed
      modifies src, buf, buf.data, sink, `closed
      ensures Conserves() && (ok ==> Valid())
      ensures Progress(old(View()), View())
      ensures ReadLine(old(Now()), got, put, Now())
      ensures ok <==> Failed !in got && Failed !in put
    {
      hide Total, Filled, Flow.Take, Flow.Push, Flow.Close, Flow.Measure;
      ghost var f := View();
      var gotEof, filled;
      ghost var taken;
      put := [];
      gotEof, filled, taken, got := Fill();
      TakeKeeps(f, taken);
      FilledMeans(got, buf.CanWrite(), gotEof, filled);
      if !filled {
        return false, got, put;
      }
      f := View();
      if buf.CanRead() {
        var flushed, moved;
        ghost var answer;
        flushed, moved, answer := Flush();
        put := [answer];
        PushKeeps(f, moved);
        if !flushed {
          return false, got, put;
        }
      }
      f := View();
      if gotEof {
        Shut();
        CloseKeeps(f);
      }
      return true, got, put;
    }

    /** The end of stream: no more reading, and no more writing once the buffer is empty. */
    method Shut()
      requires buf.Valid()
      modifies src`shutRd, sink`shutWr, `closed
      ensures buf.Valid() && View() == old(View()).Close()
    {
      closed := true;
      src.ShutRd();
      if !buf.CanRead() {
        sink.ShutWr();
      }
    }

    /** relay_on_write_ready for this direction. */
    method OnWritable() returns (ok: bool, ghost answer: IoResult)
      requires Valid() && buf.CanRead()
      modifies buf, buf.data, sink
      ensures Conserves() && (ok ==> Valid())
      ensures Progress(old(View()), View())
      ensures WriteLine(old(Now()), answer, Now()) && ok == !answer.Failed?
    {
      ghost var f := View();
      var moved;
      ok, moved, answer := Flush();
      PushKeeps(f, moved);
      if ok && moved > 0 && !buf.CanRead() && closed {
        sink.ShutWr();
      }
    }
  }

  /** Something moved, and there is less left to do, or nothing changed. */
  predicate Progress(before: Flow, after: Flow) { after.Measure() < before.Measure() || after == before }

  /** No buffer or socket half in common. */
  ghost predicate Separate(c: Channel, d: Channel) {
    c != d && c.src != d.src && c.buf != d.buf && c.buf.data != d.buf.data && c.sink != d.sink
  }

  datatype Outcome = Copying | Done | Error

  /** An interest is armed only for an event its handler has something to do with. */
  predicate Armed(up: Flow, down: Flow, client: Interest, origin: Interest) {
    && (client.read ==> !up.closed) && (origin.read ==> !down.closed)
    && (client.write ==> down.pending != []) && (origin.write ==> up.pending != [])
  }

  /** Pending bytes always have their sink armed, and an unfinished direction waits for its source
      with room to spare or for its sink with bytes to send. */
  predicate Flowing(f: Flow, room: bool, source: Interest, sink: Interest) {
    && (f.pending != [] ==> sink.write)
    && (!f.Drained() ==> (source.read && room) || (sink.write && f.pending != []))
  }

  /** A byte left over from before the relay, with only reading armed, waits for another event. */
  lemma LeftoverStalls()
    ensures var f := Flow([], [7], [], false, false, 0, [7]);
      f.Valid() && !Flowing(f, true, READ, READ)
  {
    assert [] + [7] + [] == [7];
  }

  class Relay {
    /** client to origin through read_buffer, origin to client through write_buffer. */
    const up: Channel
    const down: Channel
    var client: Interest
    var origin: Interest

    ghost function Footprint(): set<object> {
      {this} + up.Footprint() + down.Footprint()
    }

    ghost predicate Valid()
      reads this, up, up.src, up.buf, up.buf.data, up.sink, down, down.src, down.buf, down.buf.data, down.sink
    {
      Separate(up, down) && up.Valid() && down.Valid() && Armed(up.View(), down.View(), client, origin)
    }

    ghost predicate NoStall()
      reads this, up, up.src, up.buf, up.buf.data, up.sink, down, down.src, down.buf, down.buf.data, down.sink
    {
      Flowing(up.View(), up.buf.CanWrite(), client, origin) && Flowing(down.View(), down.buf.CanWrite(), origin, client)
    }

    /** relay_finished. */
    predicate Finished()
      reads up, up.buf, down, down.buf
    {
      up.Drained() && down.Drained()
    }

    ghost function Now(): Scene
      reads this, up, up.src, up.buf, up.buf.data, up.sink, down, down.src, down.buf, down.buf.data, down.sink
    {
      Scene(up.Now(), down.Now(), client, origin)
    }

    ghost function Measure(): nat
      reads this, up, up.src, up.buf, up.buf.data, up.sink, down, down.src, down.buf, down.buf.data, down.sink
    {
      up.View().Measure() + down.View().Measure()
    }

    /** relay_on_arrival.  It arms reading only, so bytes the client sent ahead of COPY wait for
        some other event: nothing stalls exactly when both buffers arrive empty. */
    constructor (up: Channel, down: Channel)
      requires up.Valid() && down.Valid() && !up.closed && !down.closed && Separate(up, down)
      ensures Valid() && this.up == up && this.down == down && !up.closed && !down.closed
      ensures NoStall() <==> !up.buf.CanRead() && !down.buf.CanRead()
    {
      this.up, this.down := up, down;
      client, origin := READ, READ;
    }

    /** relay_compute_interests. */
    method ComputeInterests()
      requires Separate(up, down) && up.Valid() && down.Valid()
      modifies this
      ensures Valid() && NoStall()
    {
      client := Interest(!up.closed && up.buf.CanWrite(), down.buf.CanRead());
      origin := Interest(!down.closed && down.buf.CanWrite(), up.buf.CanRead());
    }

    /** Both directions carry their whole stream, in order, and nothing else. */
    ghost predicate Conserves()
      reads this, up, up.src, up.buf, up.buf.data, up.sink, down, down.src, down.buf, down.buf.data, down.sink
    {
      up.Conserves() && down.Conserves()
    }

    /** What a handler's result promises. */
    ghost predicate After(st: Outcome)
      reads this, up, up.src, up.buf, up.buf.data, up.sink, down, down.src, down.buf, down.buf.data, down.sink
    {
      match st
      case Copying => Valid() && NoStall() && !Finished()
      case Done => Conserves() && up.View().Delivered() && down.View().Delivered()
      case Error => true
    }

    /** The common end of both handlers. */
    method Conclude() returns (st: Outcome)
      requires Separate(up, down) && up.Valid() && down.Valid()
      modifies this
      ensures !st.Error? && After(st)
      ensures up.Now() == old(up.Now()) && down.Now() == old(down.Now())
    {
      if Finished() {
        DrainedIsDelivered(up.View());
        DrainedIsDelivered(down.View());
        return Done;
      }
      ComputeInterests();
      return Copying;
    }

    /** relay_on_read_ready, called by the selector for an armed descriptor.  It fails only if one
        of its system calls does. */
    method OnReadReady(fromClient: bool) returns (st: Outcome, ghost got: seq<IoResult>, ghost put: seq<IoResult>)
      requires Valid() && (if fromClient then client.read else origin.read)
      modifies this, up, up.src, up.buf, up.buf.data, up.sink, down, down.src, down.buf, down.buf.data, down.sink
      ensures Conserves() && After(st) && (st.Error? <==> IoResult.Failed in got || IoResult.Failed in put)
      ensures if fromClient then ReadLine(old(up.Now()), got, put, up.Now()) && down.Now() == old(down.Now())
        else ReadLine(old(down.Now()), got, put, down.Now()) && up.Now() == old(up.Now())
      ensures Progress(old(up.View()), up.View()) && Progress(old(down.View()), down.View())
    {
      ghost var u, d := up.View(), down.View();
      var ok;
      if fromClient {
        ok, got, put := up.OnReadable();
        assert down.Valid() && down.View() == d;
      } else {
        ok, got, put := down.OnReadable();
        assert up.Valid() && up.View() == u;
      }
      if !ok {
        return Error, got, put;
      }
      st := Conclude();
    }

    /** relay_on_write_ready: writing to the client drains the downward direction. */
    method OnWriteReady(toClient: bool) returns (st: Outcome, ghost answer: IoResult)
      requires Valid() && (if toClient then client.write else origin.write)
      modifies this, up, up.src, up.buf, up.buf.data, up.sink, down, down.src, down.buf, down.buf.data, down.sink
      ensures Conserves() && After(st) && (st.Error? <==> answer.Failed?)
      ensures if toClient then WriteLine(old(down.Now()), answer, down.Now()) && up.Now() == old(up.Now())
        else WriteLine(old(up.Now()), answer, up.Now()) && down.Now() == old(down.Now())
      ensures Progress(old(up.View()), up.View()) && Progress(old(down.View()), down.View())
    {
      ghost var u, d := up.View(), down.View();
      var ok;
      if toClient {
        ok, answer := down.OnWritable();
        assert up.Valid() && up.View() == u;
      } else {
        ok, answer := up.OnWritable();
        assert down.Valid() && down.View() == d;
      }
      if !ok {
        return Error, answer;
      }
      st := Conclude();
    }
  }

  /** relay_on_arrival: what is left in the client's buffer and what the client still sends go to
      the origin; the origin's stream follows what is left for the client. */
  method Start(cin: InPort, rb: Buffer, fromOrigin: seq<byte>, wb: Buffer, cout: OutPort) returns (r: Relay)
    requires rb != wb && rb.data != wb.data && rb.Valid() && wb.Valid() && rb.limit > 0 && wb.limit > 0
    requires !cin.shutRd && cout.shutWr == 0
    ensures r.Valid() && fresh({r, r.up, r.down, r.up.sink, r.down.src})
    ensures r.up.src == cin && r.up.buf == rb && r.down.buf == wb && r.down.sink == cout
    ensures r.up.stream == rb.Contents() + cin.unread
    ensures r.down.stream == cout.sent + wb.Contents() + fromOrigin
    ensures r.NoStall() <==> !rb.CanRead() && !wb.CanRead()
    ensures !r.up.closed && !r.down.closed
  {
    var toOrigin := new OutPort();
    var originIn := new InPort(fromOrigin);
    var up := new Channel(cin, rb, toOrigin);
    var down := new Channel(originIn, wb, cout);
    r := new Relay(up, down);
  }

  /** A descriptor reported ready by select. */
  datatype Event = Event(onClient: bool, readable: bool)

  /** The relay between two events. */
  datatype Scene = Scene(up: Line, down: Line, client: Interest, origin: Interest)
  {
    function Measure(): nat { up.f.Measure() + down.f.Measure() }

    /** Both streams are conserved, each half-close is exact, and no interest is armed in vain. */
    predicate Sound() { up.f.Valid() && down.f.Valid() && Armed(up.f, down.f, client, origin) }

    /** Neither direction stalls. */
    predicate Flows() { Flowing(up.f, up.room, client, origin) && Flowing(down.f, down.room, origin, client) }
  }

  /** At this point of a run the relay is sound, and it flows unless nothing has been handled since
      the point before. */
  predicate GoesOn(trail: seq<Scene>, i: nat)
    requires i < |trail|
  {
    trail[i].Sound() && (i > 0 ==> trail[i].Flows() || trail[i] == trail[i - 1])
  }

  /** The relay goes on at each of the first `n` points. */
  predicate AllGoOn(trail: seq<Scene>, n: nat)
    requires n <= |trail|
  {
    forall i :: 0 <= i < n ==> GoesOn(trail, i)
  }

  /** The points of a run at which the relay is not over. */
  function Alive(trail: seq<Scene>, st: Outcome): nat
    requires trail != []
  {
    if st.Copying? then |trail| else |trail| - 1
  }

  /** A relay that flows once flows for as long as it goes on. */
  lemma {:induction false} KeepsFlowing(trail: seq<Scene>, n: nat, i: nat, j: nat)
    requires n <= |trail| && AllGoOn(trail, n) && i <= j < n && trail[i].Flows()
    ensures trail[j].Flows()
  {
    if i < j {
      KeepsFlowing(trail, n, i, j - 1);
      assert GoesOn(trail, j);
    }
  }

  lemma GoOnStart(a: Scene)
    requires a.Sound()
    ensures AllGoOn([a], 1)
  {
  }

  lemma GoOnEnds(trail: seq<Scene>, b: Scene)
    requires AllGoOn(trail, |trail|)
    ensures AllGoOn(trail + [b], |trail|)
  {
    var t := trail + [b];
    forall i | 0 <= i < |trail|
      ensures GoesOn(t, i)
    {
      assert GoesOn(trail, i) && t[i] == trail[i] && (i > 0 ==> t[i - 1] == trail[i - 1]);
    }
  }

  lemma GoOnAdd(trail: seq<Scene>, b: Scene)
    requires trail != [] && AllGoOn(trail, |trail|) && b.Sound() && (b.Flows() || b == trail[|trail| - 1])
    ensures AllGoOn(trail + [b], |trail| + 1)
  {
    var t := trail + [b];
    forall i | 0 <= i < |t|
      ensures GoesOn(t, i)
    {
      if i < |trail| {
        assert GoesOn(trail, i) && t[i] == trail[i] && (i > 0 ==> t[i - 1] == trail[i - 1]);
      }
    }
  }

  /** What a readable descriptor makes of one direction and of the run. */
  ghost predicate ReadBy(a: Line, b: Line, st: Outcome) {
    exists got, put :: ReadLine(a, got, put, b) && (st.Error? <==> Failed in got || Failed in put)
  }

  ghost predicate WrittenBy(a: Line, b: Line, st: Outcome) {
    exists answer :: WriteLine(a, answer, b) && (st.Error? <==> answer.Failed?)
  }

  /** An event: handled if it is armed, and the other direction is left alone. */
  ghost predicate Relayed(e: Event, a: Scene, b: Scene, st: Outcome) {
    var armed := if e.onClient then a.client else a.origin;
    if e.readable && armed.read then
      if e.onClient then ReadBy(a.up, b.up, st) && b.down == a.down else ReadBy(a.down, b.down, st) && b.up == a.up
    else if !e.readable && armed.write then
      if e.onClient then WrittenBy(a.down, b.down, st) && b.up == a.up
      else WrittenBy(a.up, b.up, st) && b.down == a.down
    else b == a && st.Copying?
  }

  /** A run: each scene comes from the one before by its event, and the relay goes on until `st`. */
  ghost predicate Linked(events: seq<Event>, trail: seq<Scene>, st: Outcome) {
    && 0 < |trail| <= |events| + 1
    && var n := |trail| - 1;
      if n == 0 then st.Copying?
      else Linked(events, trail[..n], Copying) && Relayed(events[n - 1], trail[n - 1], trail[n], st)
  }

  /** No byte is lost, duplicated or reordered at any point of a run. */
  lemma {:induction false} RunConserves(events: seq<Event>, trail: seq<Scene>, st: Outcome)
    requires Linked(events, trail, st) && trail[0].up.f.Conserves() && trail[0].down.f.Conserves()
    ensures forall i :: 0 <= i < |trail| ==> trail[i].up.f.Conserves() && trail[i].down.f.Conserves()
    ensures var b := trail[|trail| - 1];
      b.up.f.stream == trail[0].up.f.stream && b.down.f.stream == trail[0].down.f.stream
  {
    var n := |trail| - 1;
    if n > 0 {
      RunConserves(events, trail[..n], Copying);
      RelayedConserves(events[n - 1], trail[n - 1], trail[n], st);
    }
  }

  lemma RelayedConserves(e: Event, a: Scene, b: Scene, st: Outcome)
    requires Relayed(e, a, b, st) && a.up.f.Conserves() && a.down.f.Conserves()
    ensures b.up.f.Conserves() && b.down.f.Conserves()
    ensures b.up.f.stream == a.up.f.stream && b.down.f.stream == a.down.f.stream
  {
    var armed := if e.onClient then a.client else a.origin;
    if e.readable && armed.read {
      var (x, y) := if e.onClient then (a.up, b.up) else (a.down, b.down);
      var got, put :| ReadLine(x, got, put, y);
      ReadStepKeeps(x.f, got, put, y.f);
    } else if !e.readable && armed.write {
      var (x, y) := if e.onClient then (a.down, b.down) else (a.up, b.up);
      var answer :| WriteLine(x, answer, y);
      WriteStepKeeps(x.f, answer, y.f);
    }
  }

  /** The events of a run after which there was less left to do. */
  function Falls(trail: seq<Scene>): nat {
    var n := |trail| - 1;
    if n < 1 then 0 else Falls(trail[..n]) + if trail[n].Measure() < trail[n - 1].Measure() then 1 else 0
  }

  lemma RunAdd(events: seq<Event>, trail: seq<Scene>, b: Scene, st: Outcome)
    requires Linked(events, trail, Copying) && |trail| <= |events|
    requires Relayed(events[|trail| - 1], trail[|trail| - 1], b, st)
    ensures Linked(events, trail + [b], st)
    ensures Falls(trail + [b]) == Falls(trail) + if b.Measure() < trail[|trail| - 1].Measure() then 1 else 0
  {
    hide Relayed;
    assert (trail + [b])[..|trail|] == trail;
    return;
  }

  /** One event of the selector. */
  method Tick(r: Relay, e: Event) returns (st: Outcome)
    requires r.Valid() && !r.Finished()
    modifies r, r.up, r.up.src, r.up.buf, r.up.buf.data, r.up.sink
    modifies r.down, r.down.src, r.down.buf, r.down.buf.data, r.down.sink
    ensures r.Conserves() && (if st.Copying? then r.Valid() && !r.Finished() else r.After(st))
    ensures Relayed(e, old(r.Now()), r.Now(), st)
    ensures st.Copying? ==> r.Now().Sound() && (r.Now().Flows() || r.Now() == old(r.Now()))
    ensures r.Measure() < old(r.Measure()) || r.Measure() == old(r.Measure())
  {
    st := Copying;
    var armed := if e.onClient then r.client else r.origin;
    if e.readable && armed.read {
      ghost var got, put;
      st, got, put := r.OnReadReady(e.onClient);
    } else if !e.readable && armed.write {
      ghost var answer;
      st, answer := r.OnWriteReady(e.onClient);
    }
  }

  /** The COPY state over any schedule of readiness events, ready or not for the handlers.
      Conservation, the exact half-close and, once an event has been handled, the flow of both
      directions hold for as long as the relay goes on; at most Measure() events make progress, and
      a run that has made that many has finished. */
  method Serve(r: Relay, events: seq<Event>) returns (st: Outcome, ghost trail: seq<Scene>)
    requires r.Valid() && !r.Finished()
    modifies r, r.up, r.up.src, r.up.buf, r.up.buf.data, r.up.sink
    modifies r.down, r.down.src, r.down.buf, r.down.buf.data, r.down.sink
    ensures r.Conserves() && (if st.Copying? then r.Valid() && !r.Finished() else r.After(st))
    ensures Linked(events, trail, st) && trail[0] == old(r.Now()) && trail[|trail| - 1] == r.Now()
    ensures st.Copying? ==> |trail| == |events| + 1
    ensures AllGoOn(trail, Alive(trail, st))
    ensures Falls(trail) + r.Measure() <= old(r.Measure())
    ensures Falls(trail) == old(r.Measure()) ==> !st.Copying?
  {
    hide Relayed, AllGoOn;
    st, trail := Copying, [r.Now()];
    GoOnStart(r.Now());
    var i := 0;
    while i < |events| && st.Copying?
      invariant 0 <= i <= |events| && |trail| == i + 1
      invariant r.Conserves() && if st.Copying? then r.Valid() && !r.Finished() else r.After(st)
      invariant Linked(events, trail, st) && trail[0] == old(r.Now()) && trail[i] == r.Now()
      invariant Falls(trail) + r.Measure() <= old(r.Measure()) && AllGoOn(trail, Alive(trail, st))
    {
      hide Linked, Falls, Flow.Valid, Flow.Measure;
      st := Tick(r, events[i]);
      RunAdd(events, trail, r.Now(), st);
      if st.Copying? {
        GoOnAdd(trail, r.Now());
      } else {
        GoOnEnds(trail, r.Now());
      }
      trail := trail + [r.Now()];
      i := i + 1;
    }
    return;
  }

  /** The same, in terms of what each direction has carried. */
  method Copy(r: Relay, events: seq<Event>)
      returns (end: Outcome, ghost up: Flow, ghost down: Flow, ghost trail: seq<Scene>)
    requires r.Valid() && !r.Finished()
    modifies r, r.up, r.up.src, r.up.buf, r.up.buf.data, r.up.sink
    modifies r.down, r.down.src, r.down.buf, r.down.buf.data, r.down.sink
    ensures up == r.up.View() && down == r.down.View() && up.Conserves() && down.Conserves()
    ensures up.stream == r.up.stream && down.stream == r.down.stream
    ensures end.Done? ==> up.Delivered() && down.Delivered()
    ensures Linked(events, trail, end) && trail[0] == old(r.Now()) && trail[|trail| - 1] == r.Now()
    ensures end.Copying? ==> |trail| == |events| + 1
    ensures AllGoOn(trail, Alive(trail, end))
  {
    end, trail := Serve(r, events);
    up, down := r.up.View(), r.down.View();
  }
}
