/**
  The client's side of a connection before the relay: its two buffers and socket halves, the
  parser union, and socks_recv and socks_send of states_common.c.
*/
module Client {
  import opened ByteBuffer
  import opened ByteMachine
  import opened Sockets
  import opened HelloMachine
  import opened CredsMachine
  import opened RequestMachine

  const BUFFER_SIZE := 4096

  /** The parsers share one union. */
  datatype Parser = HelloP(hello: HelloState) | CredsP(creds: CredsState) | RequestP(request: RequestState)
  {
    function Status(): Status {
      match this
      case HelloP(s) => HelloStatus(s)
      case CredsP(s) => CredsStatus(s)
      case RequestP(s) => RequestStatus(s)
    }

    function Feed(b: byte): Parser {
      match this
      case HelloP(s) => HelloP(HelloFeed(s, b))
      case CredsP(s) => CredsP(CredsFeed(s, b))
      case RequestP(s) => RequestP(RequestFeed(s, b))
    }

    /** The bytes of the message so far; once done, the encoding of what was parsed. */
    function Written(): seq<byte> {
      match this
      case HelloP(s) => HelloWritten(s)
      case CredsP(s) => CredsWritten(s)
      case RequestP(s) => RequestWritten(s)
    }

    /** The parser after these bytes. */
    function FeedAll(bytes: seq<byte>): Parser {
      if bytes == [] then this else FeedAll(bytes[..|bytes| - 1]).Feed(bytes[|bytes| - 1])
    }

    predicate Ok() {
      match this
      case HelloP(s) => HelloOk(s)
      case CredsP(s) => CredsOk(s)
      case RequestP(s) => RequestOk(s)
    }
  }

  predicate SameKind(p: Parser, q: Parser) { p.HelloP? == q.HelloP? && p.CredsP? == q.CredsP? }

  lemma ParserStep(p: Parser, b: byte)
    requires p.Ok() && p.Status().Live?
    ensures var n := p.Feed(b);
      SameKind(p, n) && n.Ok() && (n.Status().Error? || n.Written() == p.Written() + [b])
  {
    HelloMachineExact();
    CredsMachineExact();
    RequestMachineExact();
    match p
    case HelloP(s) => assert HELLO.feed(s, b) == HelloFeed(s, b);
    case CredsP(s) => assert CREDS.feed(s, b) == CredsFeed(s, b);
    case RequestP(s) => assert REQUEST.feed(s, b) == RequestFeed(s, b);
  }

  /** How far a read got with the message at hand. */
  datatype ReadResult = Again | Lost | Malformed | Complete

  /** The system's answer to a read, and the bytes parsed after it. */
  datatype Taken = Taken(answer: IoResult, fed: seq<byte>)

  datatype SendResult = Broken | Pending | Flushed

  /** What a read comes to: the system's answer, and what the parser makes of the bytes. */
  function ReadOf(n: IoResult, status: Status): ReadResult {
    match n
    case Moved(_) => (match status case Error => Malformed case Live => Again case Done => Complete)
    case WouldBlock => Again
    case _ => Lost
  }

  function SendOf(n: IoResult, empty: bool): SendResult {
    match n
    case Moved(_) => if empty then Flushed else Pending
    case WouldBlock => Pending
    case _ => Broken
  }

  lemma FeedAllSnoc(p: Parser, bytes: seq<byte>, b: byte)
    ensures p.FeedAll(bytes + [b]) == p.FeedAll(bytes).Feed(b)
  {
    assert (bytes + [b])[..|bytes|] == bytes;
  }

  /** What has been parsed, what is held unparsed, the parser, the system's answers to the reads,
      and whether there is room for more. */
  datatype Intake = Intake(consumed: seq<byte>, held: seq<byte>, parser: Parser, gets: seq<IoResult>, room: bool)

  /** One read was made, if there was room for one, and `r` is what it came to.  What is parsed and
      held grows by what was received.  A read that brought nothing parses nothing; one that did
      leaves nothing if the message goes on. */
  predicate Received(x: Intake, t: Taken, r: ReadResult, y: Intake) {
    && (if x.room then y.gets == x.gets + [t.answer]
        else y.gets == x.gets && (t.answer.WouldBlock? || t.answer.Failed?))
    && y.consumed == x.consumed + t.fed && y.parser == x.parser.FeedAll(t.fed)
    && r == ReadOf(t.answer, y.parser.Status())
    && x.consumed + x.held <= y.consumed + y.held
    && |y.consumed + y.held| == |x.consumed + x.held| + t.answer.Count()
    && (!t.answer.Moved? ==> t.fed == [] && y.held == x.held)
    && (t.answer.Moved? && r.Again? ==> y.held == [])
  }

  /** What has been sent, whether nothing is left to send, and the system's answers to the writes. */
  datatype Outlet = Outlet(sent: seq<byte>, empty: bool, puts: seq<IoResult>)

  /** One send was made, if there was anything to send, and `r` is what it came to. */
  predicate Sent(x: Outlet, n: IoResult, r: SendResult, y: Outlet) {
    && x.sent <= y.sent && |y.sent| == |x.sent| + n.Count()
    && if x.empty then y.puts == x.puts && !n.Moved? && r.Flushed?
       else y.puts == x.puts + [n] && r == SendOf(n, y.empty)
  }

  /** Something may have been answered, and nothing sent. */
  predicate Answers(x: Outlet, y: Outlet) { y == x.(empty := y.empty) }

  /** Of one stream, what has been taken grows as what is left shrinks. */
  lemma BeginningGrows(a: seq<byte>, left: seq<byte>, b: seq<byte>, rest: seq<byte>)
    requires a + left == b + rest && |rest| <= |left|
    ensures a <= b && |b| == |a| + |left| - |rest|
  {
    assert a == (a + left)[..|a|] == (b + rest)[..|a|];
  }

  class Client {
    const cin: InPort
    const cout: OutPort
    /** read_buffer and write_buffer. */
    const rb: Buffer
    const wb: Buffer
    var parser: Parser
    /** The bytes parsed so far, and the bytes answered so far. */
    ghost var consumed: seq<byte>
    ghost var replies: seq<byte>
    /** All the client will ever send. */
    ghost const stream: seq<byte>

    ghost function Footprint(): set<object> {
      {this, cin, cout, rb, rb.data, wb, wb.data}
    }

    /** Every byte the client sent is parsed, buffered or still to come, and every byte of an
        answer is sent or buffered, in order. */
    ghost predicate Valid()
      reads this, cin, cout, rb, rb.data, wb, wb.data
    {
      && rb != wb && rb.data != wb.data && rb.limit == wb.limit == BUFFER_SIZE
      && rb.Valid() && wb.Valid() && !cin.shutRd && cout.shutWr == 0
      && consumed + rb.Contents() + cin.unread == stream
      && cout.sent + wb.Contents() == replies
    }

    /** What parsing has got to: `base` are the messages before the current one. */
    ghost predicate Parsed(base: seq<byte>)
      reads this
    {
      parser.Ok() && (parser.Status().Error? || consumed == base + parser.Written())
    }

    constructor (stream: seq<byte>)
      ensures Valid() && fresh(Footprint()) && this.stream == stream
      ensures consumed == [] && replies == [] && wb.Contents() == []
    {
      cin := new InPort(stream);
      cout := new OutPort();
      var raw := new byte[BUFFER_SIZE];
      rb := new Buffer(raw, BUFFER_SIZE);
      raw := new byte[BUFFER_SIZE];
      wb := new Buffer(raw, BUFFER_SIZE);
      parser := HelloP(HelloError);
      consumed, replies, this.stream := [], [], stream;
    }

    /** What has been received and not parsed. */
    ghost function Held(): seq<byte>
      reads rb, rb.data
    {
      if rb.Valid() then rb.Contents() else []
    }

    /** What has been read, as values. */
    ghost function Inbox(): Intake
      reads `consumed, `parser, cin`log, rb, rb.data
    {
      Intake(consumed, Held(), parser, cin.log, rb.CanWrite())
    }

    /** What has been sent, as values. */
    ghost function Outbox(): Outlet
      reads cout, wb
    {
      Outlet(cout.sent, !wb.CanRead(), cout.log)
    }

    /** socks_recv.  With a full buffer it returns -1 and leaves errno to an earlier call. */
    method Recv() returns (r: IoResult)
      requires Valid()
      modifies cin`unread, cin`log, rb, rb.data
      ensures Valid()
      ensures if old(rb.CanWrite()) then cin.log == old(cin.log) + [r]
        else cin.log == old(cin.log) && (r.WouldBlock? || r.Failed?)
      ensures !r.Moved? ==> Held() == old(Held())
      ensures |cin.unread| + r.Count() == |old(cin.unread)|
    {
      if !rb.CanWrite() {
        var stale := *;
        return if stale then WouldBlock else Failed;
      }
      ghost var held, all := rb.Contents(), cin.unread;
      r := RecvInto(cin, rb);
      if r.Moved? {
        assert consumed + (held + all[..r.n]) + all[r.n..] == consumed + held + all;
      }
    }

    /** One byte from the buffer to the parser. */
    method ParseOne(ghost base: seq<byte>) returns (ghost b: byte)
      requires Valid() && Parsed(base) && parser.Status().Live? && rb.CanRead()
      modifies `parser, `consumed, rb, rb.data
      ensures Valid() && Parsed(base) && |rb.Contents()| < |old(rb.Contents())|
      ensures parser == old(parser).Feed(b) && consumed == old(consumed) + [b] && SameKind(old(parser), parser)
    {
      ghost var before, left := consumed, parser;
      var c := rb.ReadByte();
      b := c;
      ParserStep(parser, c);
      parser := parser.Feed(c);
      consumed := consumed + [c];
      assert before + [c] + rb.Contents() == before + ([c] + rb.Contents());
      assert base + left.Written() + [c] == base + (left.Written() + [c]);
    }

    /** The parse loop of the on_read_ready handlers: up to the end of a message or of the buffer. */
    method ParseAll(ghost base: seq<byte>) returns (ghost fed: seq<byte>)
      requires Valid() && Parsed(base) && parser.Status().Live?
      modifies `parser, `consumed, rb, rb.data
      ensures Valid() && Parsed(base)
      ensures SameKind(old(parser), parser) && (parser.Status().Live? ==> !rb.CanRead())
      ensures consumed == old(consumed) + fed && parser == old(parser).FeedAll(fed)
    {
      fed := [];
      while rb.CanRead() && parser.Status().Live?
        invariant Valid() && Parsed(base)
        invariant SameKind(old(parser), parser)
        invariant consumed == old(consumed) + fed && parser == old(parser).FeedAll(fed)
        decreases |rb.Contents()|
      {
        ghost var b := ParseOne(base);
        FeedAllSnoc(old(parser), fed, b);
        fed := fed + [b];
      }
    }

    /** The common start of the on_read_ready handlers. */
    method ReadMessage(ghost base: seq<byte>) returns (r: ReadResult, ghost t: Taken)
      requires Valid() && Parsed(base) && parser.Status().Live?
      modifies `parser, `consumed, cin`unread, cin`log, rb, rb.data
      ensures Valid() && SameKind(old(parser), parser) && Received(old(Inbox()), t, r, Inbox())
      ensures r.Again? ==> parser.Status().Live? && Parsed(base)
      ensures r.Complete? ==> parser.Status().Done? && parser.Ok() && consumed == base + parser.Written()
    {
      ghost var before, left := consumed + Held(), cin.unread;
      var got := Recv();
      t := Taken(got, []);
      if !got.Moved? {
        r := if got.WouldBlock? then Again else Lost;
        return;
      }
      ghost var fed := ParseAll(base);
      BeginningGrows(before, left, consumed + Held(), cin.unread);
      t := Taken(got, fed);
      r := match parser.Status() case Error => Malformed case Live => Again case Done => Complete;
    }

    /** buffer_write to the answer, when there is room. */
    method Put(b: byte)
      requires Valid() && wb.CanWrite()
      modifies `replies, wb, wb.data
      ensures Valid() && replies == old(replies) + [b] && wb.write == old(wb.write) + 1
      ensures Inbox() == old(Inbox()) && Answers(old(Outbox()), Outbox())
    {
      wb.WriteByte(b);
      replies := replies + [b];
    }

    method PutAll(bytes: seq<byte>)
      requires Valid() && wb.write + |bytes| <= BUFFER_SIZE
      modifies `replies, wb, wb.data
      ensures Valid() && replies == old(replies) + bytes && wb.write == old(wb.write) + |bytes|
      ensures Inbox() == old(Inbox()) && Answers(old(Outbox()), Outbox())
    {
      var i := 0;
      while i < |bytes|
        invariant 0 <= i <= |bytes| && Valid() && Inbox() == old(Inbox()) && Answers(old(Outbox()), Outbox())
        invariant replies == old(replies) + bytes[..i] && wb.write == old(wb.write) + i
      {
        assert bytes[..i + 1] == bytes[..i] + [bytes[i]];
        Put(bytes[i]);
        i := i + 1;
      }
      assert bytes[..i] == bytes;
    }

    /** socks_send. */
    method Send() returns (r: SendResult, ghost n: IoResult)
      requires Valid()
      modifies cout`sent, cout`log, wb, wb.data
      ensures Valid() && (r.Flushed? ==> wb.Contents() == [] && !wb.CanRead()) && Sent(old(Outbox()), n, r, Outbox())
      ensures Inbox() == old(Inbox())
    {
      n := WouldBlock;
      if !wb.CanRead() {
        r := Flushed;
        return;
      }
      ghost var pending := wb.Contents();
      var put := cout.Send(wb);
      n := put;
      if !put.Moved? {
        r := if put.WouldBlock? then Pending else Broken;
        return;
      }
      wb.ReadAdv(put.n);
      assert pending == pending[..put.n] + pending[put.n..];
      r := if wb.CanRead() then Pending else Flushed;
    }
  }
}
