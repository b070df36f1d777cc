/**
  One proxied connection up to the relay: the state table of socks5.c driven by stm.c, and the
  handlers of hello.c, auth.c and request.c.
*/
module Connection {
  import opened Options
  import opened ByteBuffer
  import opened ByteMachine
  import opened Sockets
  import opened HelloMachine
  import opened CredsMachine
  import opened RequestMachine
  import opened Users
  import opened Client
  import opened Stm
  import D = Dialer
  import R = Relay

  datatype State =
    | HelloRead | HelloWrite | AuthRead | AuthWrite | RequestRead | RequestResolv | RequestConnecting | RequestWrite
    | Copy | Finished | Failed

  datatype Event =
    | Ready(onClient: bool, readable: bool)
    /** The resolver's job is over; getaddrinfo gave a list of addresses or failed. */
    | Resolved(addrs: Option<seq<D.Addr>>)

  /** The state table: the callbacks each state defines.  stm.c aborts on any other event. */
  predicate Handles(s: State, e: Event) {
    match s
    case HelloRead => e.Ready? && e.readable
    case HelloWrite => e.Ready? && !e.readable
    case AuthRead => e.Ready? && e.readable
    case AuthWrite => e.Ready? && !e.readable
    case RequestRead => e.Ready? && e.readable
    case RequestResolv => e.Resolved?
    case RequestConnecting => e.Ready? && !e.readable
    case RequestWrite => e.Ready? && !e.readable
    case Copy => e.Ready?
    case Finished => false
    case Failed => false
  }

  predicate HasArrival(s: State) {
    s.HelloRead? || s.AuthRead? || s.RequestRead? || s.RequestResolv? || s.Copy?
  }

  /** The bound address the origin's socket reports; without one the reply says 0.0.0.0:0. */
  datatype Bound = NoBound | Bound4(ip4: seq<byte>, port4: seq<byte>) | Bound6(ip6: seq<byte>, port6: seq<byte>)
  {
    predicate Fits() {
      match this
      case NoBound => true
      case Bound4(a, p) => |a| == 4 && |p| == 2
      case Bound6(a, p) => |a| == 16 && |p| == 2
    }

    function Atyp(): byte { if Bound6? then IPV6 else IPV4 }

    function Addr(): seq<byte> {
      match this
      case NoBound => [0, 0, 0, 0]
      case Bound4(a, _) => a
      case Bound6(a, _) => a
    }

    function Port(): seq<byte> {
      match this
      case NoBound => [0, 0]
      case Bound4(_, p) => p
      case Bound6(_, p) => p
    }
  }

  /** Section 6 of RFC 1928. */
  function ReplyBytes(reply: byte, b: Bound): seq<byte> { [5, reply, 0, b.Atyp()] + b.Addr() + b.Port() }

  lemma ReplyAppended(said: seq<byte>, reply: byte, b: Bound)
    ensures said + [5] + [reply] + [0] + [b.Atyp()] + b.Addr() + b.Port() == said + ReplyBytes(reply, b)
  {
  }

  /** A reply has the form of a request, with the code for the command: it is read back as the code
      and the bound address, 16 bytes behind a type of 4 or else 4 bytes behind a type of 1. */
  lemma ReplyReads(reply: byte, b: Bound)
    requires b.Fits()
    ensures Run(REQUEST, ReqVersion, ReplyBytes(reply, b)) == ReqDone(match b
      case NoBound => Request(reply, 1, [0, 0, 0, 0], [0, 0])
      case Bound4(ip, port) => Request(reply, 1, ip, port)
      case Bound6(ip, port) => Request(reply, 4, ip, port))
    ensures ReplyBytes(reply, NoBound) == [5, reply, 0, 1, 0, 0, 0, 0, 0, 0]
  {
    hide Run;
    var r := Request(reply, b.Atyp(), b.Addr(), b.Port());
    assert EncodeRequest(r) == ReplyBytes(reply, b);
    RequestAccepts(r);
    return;
  }

  const GENERAL_FAILURE: byte := 1
  const HOST_UNREACHABLE: byte := 4
  const NOT_SUPPORTED: byte := 7
  const NO_ACCEPTABLE: byte := 255

  /** The method chosen: user and password whenever it is offered, else none at all if there
      are no accounts. */
  function Select(methods: seq<byte>, accounts: set<Creds>): byte {
    if 2 in methods then 2 else if 0 in methods && accounts == {} then 0 else NO_ACCEPTABLE
  }

  /** strcmp on both fields. */
  predicate Matches(accounts: set<Creds>, c: Creds) {
    Creds(CStr(c.user), CStr(c.pass)) in accounts
  }

  /** What has been agreed with the client so far, and what the accounts were when it was. */
  datatype Talk = Talk(methods: seq<byte>, atHello: set<Creds>, creds: Option<Creds>, atAuth: set<Creds>)
  {
    function Selected(): byte { Select(methods, atHello) }

    predicate Passed() { creds.Some? && Matches(atAuth, creds.value) }

    /** The client may make a request. */
    predicate Authorised() {
      if creds.None? then Selected() == 0 else Selected() == 2 && Passed()
    }

    function HelloIn(): seq<byte> { EncodeHello(methods) }

    function HelloOut(): seq<byte> { [5, Selected()] }

    /** The messages up to the request, and the answers to them. */
    function In(): seq<byte> { HelloIn() + if creds.None? then [] else EncodeCreds(creds.value) }

    function Out(): seq<byte> { HelloOut() + if creds.None? then [] else [1, if Passed() then 0 else 1] }
  }

  /** A connection before the relay, as values.  `replies` are the answers given, `sent` what has
      gone out of them, `plan` the addresses there were to try. */
  datatype Snap = Snap(
    client: Interest, origin: Interest, job: bool, selected: byte, authOk: bool, dial: D.Dial, parser: Parser,
    consumed: seq<byte>, replies: seq<byte>, sent: seq<byte>, drained: bool, talk: Talk, request: Option<Request>,
    bound: Bound, sockname: Bound, plan: seq<D.Addr>)
  {
    /** Nothing is going on but the conversation with the client. */
    predicate Quiet(i: Interest) { client == i && !job && dial.Idle() && plan == [] }

    predicate Parsing(base: seq<byte>) {
      drained && parser.Ok() && parser.Status().Live? && consumed == base + parser.Written()
    }

    /** The client, if it had to, has shown who it is, and asks for a connection. */
    predicate Requested() {
      && talk.Authorised() && request.Some? && request.value.cmd == 1
      && consumed == talk.In() + EncodeRequest(request.value)
    }

    /** The addresses are tried in order, each once. */
    predicate Dialing() {
      && dial.attempts + dial.rest == plan && request.Some?
      && (request.value.atyp != FQDN ==> plan == [request.value.addr + request.value.port])
    }

    /** A failure reply means a malformed request, an unsupported command, a name that does not
        resolve, or that every address was tried; in the last case it carries the code of the
        last failure. */
    predicate Refused() {
      if dial.attempts == [] then
        && dial.Idle() && plan == []
        && match request
           case None => dial.reply == GENERAL_FAILURE
           case Some(r) =>
             && consumed == talk.In() + EncodeRequest(r)
             && dial.reply == if r.cmd == 1 then HOST_UNREACHABLE else NOT_SUPPORTED
      else
        Requested() && dial.Answered() && Dialing()
    }

    predicate HandsOver() { Granted() && drained && HandedOver() && !job }

    /** What the client has been answered, or is being answered, is the beginning of one of these. */
    predicate Says() {
      || replies == []
      || replies == talk.HelloOut()
      || replies == talk.Out()
      || (talk.Authorised() && replies == talk.Out() + ReplyBytes(dial.reply, bound))
    }

    /** The client has been turned down: no method, no account, or no connection. */
    predicate TurnedDown() {
      || (replies == talk.HelloOut() && talk.creds.None? && talk.Selected() == NO_ACCEPTABLE && plan == [])
      || (replies == talk.Out() && talk.creds.Some? && talk.Selected() == 2 && !talk.Passed() && plan == [])
      || (replies == talk.Out() + ReplyBytes(dial.reply, NoBound) && talk.Authorised() && dial.reply != 0 && Refused())
    }

    /** What goes out is what was answered, in order. */
    predicate SendsInOrder() { sent <= replies && (drained <==> sent == replies) }

    /** The conversation that a relay continues. */
    predicate HandedOver() { Requested() && replies == talk.Out() + ReplyBytes(0, sockname) }

    predicate Granted() { Requested() && dial.Answered() && dial.reply == 0 && Dialing() }
  }

  /** What holds between events in each state before the relay. */
  predicate StateOk(s: State, v: Snap) {
    match s
    case HelloRead => v.Quiet(READ) && v.parser.HelloP? && v.Parsing([]) && v.replies == [] && v.request.None?
    case HelloWrite =>
      && v.Quiet(WRITE) && v.consumed == v.talk.HelloIn() && v.replies == v.talk.HelloOut()
      && |v.talk.methods| <= 255 && v.talk.creds.None? && v.request.None? && v.selected == v.talk.Selected()
    case AuthRead =>
      && v.Quiet(READ) && v.parser.CredsP? && v.Parsing(v.talk.HelloIn()) && v.replies == v.talk.HelloOut()
      && v.talk.creds.None? && v.request.None? && v.talk.Selected() == 2
    case AuthWrite =>
      && v.Quiet(WRITE) && v.consumed == v.talk.In() && v.replies == v.talk.Out()
      && v.talk.creds.Some? && v.talk.creds.value.Fits() && v.request.None? && v.talk.Selected() == 2
      && v.authOk == v.talk.Passed()
    case RequestRead =>
      && v.Quiet(READ) && v.parser.RequestP? && v.Parsing(v.talk.In()) && v.replies == v.talk.Out()
      && v.talk.Authorised() && v.request.None?
    case RequestResolv =>
      && v.client == NOOP && v.job && v.dial.Idle() && v.plan == [] && v.drained && v.Requested()
      && v.request.value.atyp == FQDN && v.replies == v.talk.Out()
    case RequestConnecting =>
      && v.client == NOOP && v.origin == WRITE && !v.job && v.drained && v.Requested() && v.replies == v.talk.Out()
      && v.dial.Valid() && v.dial.fd.Registered? && v.dial.Last().InProgress? && v.Dialing()
    case RequestWrite =>
      && v.client == WRITE && (v.dial.fd.Registered? ==> v.origin == NOOP) && !v.job && v.talk.Authorised()
      && v.replies == v.talk.Out() + ReplyBytes(v.dial.reply, v.bound)
      && v.bound == (if v.dial.reply == 0 then v.sockname else NoBound)
      && if v.dial.reply == 0 then v.Granted() else v.Refused()
    case Copy => v.HandsOver()
    case Finished => v.drained && v.TurnedDown()
    case Failed => v.Says()
  }

  /** What must hold for the arrival callback of a state to run. */
  predicate Arriving(s: State, v: Snap) {
    match s
    case HelloRead => v.Quiet(READ) && v.drained && v.consumed == [] && v.replies == [] && v.request.None?
    case AuthRead =>
      && v.Quiet(READ) && v.drained && v.consumed == v.talk.HelloIn() && v.replies == v.talk.HelloOut()
      && v.talk.creds.None? && v.request.None? && v.talk.Selected() == 2
    case RequestRead =>
      && v.Quiet(READ) && v.drained && v.consumed == v.talk.In() && v.replies == v.talk.Out()
      && v.talk.Authorised() && v.request.None?
    case RequestResolv =>
      && !v.job && v.dial.Idle() && v.plan == [] && v.drained && v.Requested()
      && v.request.value.atyp == FQDN && v.replies == v.talk.Out()
    case _ => StateOk(s, v)
  }

  /** What a handler of `from` that returns `to` must leave behind. */
  predicate Leaves(from: State, to: State, v: Snap) {
    if to == from then StateOk(to, v) else Arriving(to, v)
  }

  /** A state that is entered has its arrival callback to run, or needs none. */
  lemma LeavesEnters(from: State, to: State, v: Snap)
    requires Leaves(from, to, v)
    ensures if to != from && HasArrival(to) && !to.Copy? then Arriving(to, v) else StateOk(to, v)
  {
  }

  /** The selector calls a handler only for an armed interest or a job's completion. */
  predicate Armed(v: Snap, e: Event) {
    match e
    case Ready(onClient, readable) =>
      var i := if onClient then v.client else v.origin;
      (onClient || v.dial.fd.Registered?) && if readable then i.read else i.write
    case Resolved(_) => v.job
  }

  /** Every event that can be delivered has a callback: abort is unreachable. */
  lemma ArmedIsHandled(s: State, v: Snap, e: Event)
    requires StateOk(s, v) && Armed(v, e) && !s.Finished? && !s.Failed?
    ensures Handles(s, e)
  {
  }

  /** Where a complete request leads. */
  predicate Routed(r: Request, ret: State, v: Snap) {
    && v.request == Some(r)
    && if r.cmd != 1 then ret == RequestWrite && v.dial.reply == NOT_SUPPORTED && v.dial.attempts == []
       else if r.atyp == FQDN then ret == RequestResolv
       else (ret.RequestConnecting? || ret.RequestWrite?) && v.plan == [r.addr + r.port] && v.dial.attempts != []
  }

  /** The arrival callbacks before the relay. */
  function Arrived(s: State, v: Snap): Snap {
    match s
    case HelloRead => v.(parser := HelloP(HelloVersion), selected := NO_ACCEPTABLE)
    case AuthRead => v.(parser := CredsP(CredsVersion), authOk := false)
    case RequestRead => v.(parser := RequestP(ReqVersion))
    case RequestResolv => v.(client := NOOP, job := true)
    case _ => v
  }

  /** A jump, before the relay. */
  function Entered(from: State, to: State, v: Snap): Snap {
    if to != from && HasArrival(to) && !to.Copy? then Arrived(to, v) else v
  }

  lemma ArriveKeeps(s: State, v: Snap)
    requires HasArrival(s) && !s.Copy? && Arriving(s, v)
    ensures StateOk(s, Arrived(s, v))
  {
  }

  /** A connection between two events: whether the engine has started, the state and the values, what
      has been read and sent, and the table of accounts. */
  datatype Scene = Scene(started: bool, state: State, v: Snap, inbox: Intake, outbox: Outlet, slots: seq<Slot>)
  {
    /** As the callback finds it: the first event runs the arrival at the initial state. */
    function Begun(): Snap { if started then v else Arrived(HelloRead, v) }
  }

  /** What the callback of an event did: one read and the bytes parsed, one write, the end of the
      resolver's job, or a look at the socket's pending error. */
  datatype Did = Read(t: Taken) | Wrote(n: IoResult) | Resumed | Probed(soError: Option<D.Errno>)

  /** Where a read leads, given what it came to and the parser afterwards. */
  predicate ReadLeads(s: State, r: ReadResult, p: Parser, ret: State, w: Snap) {
    match r
    case Again => ret == s
    case Lost => ret.Failed?
    case Malformed =>
      if s.RequestRead? then ret.RequestWrite? && w.dial.reply == GENERAL_FAILURE && w.dial.attempts == []
      else ret.Failed?
    case Complete =>
      match s
      case HelloRead => ret.HelloWrite? && p.HelloP? && p.hello.HelloDone?
      case AuthRead => ret.AuthWrite? && p.CredsP? && p.creds.CredsDone?
      case RequestRead => p.RequestP? && p.request.ReqDone? && Routed(p.request.req, ret, w)
      case _ => false
  }

  /** A read that completes a message judges it by the accounts of that moment; any other leaves
      the talk as it was. */
  function Judged(s: State, r: ReadResult, p: Parser, accounts: set<Creds>, t: Talk): Talk {
    if r.Complete? && s.HelloRead? && p.HelloP? && p.hello.HelloDone? then Talk(p.hello.methods, accounts, None, {})
    else if r.Complete? && s.AuthRead? && p.CredsP? && p.creds.CredsDone? then
      t.(creds := Some(p.creds.creds), atAuth := accounts)
    else t
  }

  /** Where a write leads. */
  function WriteLeads(s: State, r: SendResult, v: Snap): State {
    match r
    case Broken => State.Failed
    case Pending => s
    case Flushed =>
      match s
      case HelloWrite =>
        if v.talk.Selected() == 2 then AuthRead else if v.talk.Selected() == 0 then RequestRead else Finished
      case AuthWrite => if v.talk.Passed() then RequestRead else Finished
      case _ => if v.dial.reply == 0 then Copy else Finished
  }

  /** Where the end of a resolution leads. */
  predicate ResolvedLeads(addrs: Option<seq<D.Addr>>, ret: State, w: Snap) {
    if addrs.None? || addrs.value == [] then
      ret == RequestWrite && w.dial.reply == HOST_UNREACHABLE && w.dial.attempts == [] && w.plan == []
    else
      (ret.RequestConnecting? || ret.RequestWrite?) && w.plan == addrs.value && w.dial.attempts != []
  }

  /** Where a writable socket leads whose connection was under way. */
  predicate ProbeLeads(soError: Option<D.Errno>, ret: State, v: D.Dial, w: D.Dial) {
    match soError
    case None => ret == RequestWrite && w.reply == 0 && w.attempts == v.attempts
    case Some(e) =>
      && (ret.RequestConnecting? || ret.RequestWrite?)
      && |w.errors| > |v.errors| && w.errors[|v.errors|] == e && (v.rest != [] ==> v.attempts < w.attempts)
  }

  predicate Reads(s: State) { s.HelloRead? || s.AuthRead? || s.RequestRead? }

  predicate Writes(s: State) { s.HelloWrite? || s.AuthWrite? || s.RequestWrite? }

  /** The messages before the one being read. */
  function Base(s: State, t: Talk): seq<byte> {
    if s.HelloRead? then [] else if s.AuthRead? then t.HelloIn() else t.In()
  }

  /** A read changes what is parsed and nothing else. */
  predicate Advanced(v: Snap, w: Snap) { w == v.(parser := w.parser, consumed := w.consumed) }

  lemma ReadKeeps(s: State, v: Snap, w: Snap)
    requires Reads(s) && StateOk(s, v) && Advanced(v, w) && SameKind(v.parser, w.parser)
    ensures StateOk(State.Failed, w)
    ensures w.Parsing(Base(s, v.talk)) ==> StateOk(s, w)
  {
  }

  lemma ReadsParse(s: State, v: Snap)
    requires Reads(s) && StateOk(s, v)
    ensures v.drained && v.Quiet(READ) && v.Parsing(Base(s, v.talk)) && v.request.None?
    ensures if s.HelloRead? then v.parser.HelloP? else if s.AuthRead? then v.parser.CredsP? else v.parser.RequestP?
    ensures s.RequestRead? ==> v.talk.Authorised() && v.replies == v.talk.Out()
  {
  }

  lemma CredsComplete(p: Parser)
    requires p.CredsP? && p.Status().Done? && p.Ok()
    ensures p.creds.CredsDone? && p.Written() == EncodeCreds(p.creds.creds) && p.creds.creds.Fits()
  {
  }

  lemma ReceivedParsed(x: Intake, t: Taken, r: ReadResult, y: Intake)
    requires Received(x, t, r, y)
    ensures y.parser == x.parser.FeedAll(t.fed) && r == ReadOf(t.answer, y.parser.Status())
  {
  }

  lemma PassedIsKept(v: Snap)
    requires StateOk(AuthWrite, v)
    ensures v.authOk == v.talk.Passed()
  {
  }

  lemma HelloAnswered(v: Snap, w: Snap)
    requires StateOk(HelloRead, v)
    requires w.talk == Talk(w.talk.methods, w.talk.atHello, None, {}) && |w.talk.methods| <= 255
    requires w == v.(
      parser := w.parser, selected := w.talk.Selected(), client := WRITE, drained := false, talk := w.talk,
      consumed := EncodeHello(w.talk.methods), replies := v.replies + [5, w.talk.Selected()])
    ensures Leaves(HelloRead, HelloWrite, w)
  {
  }

  lemma AuthAnswered(v: Snap, w: Snap)
    requires StateOk(AuthRead, v) && w.talk.creds.Some? && w.talk.creds.value.Fits()
    requires w == v.(
      parser := w.parser, authOk := w.talk.Passed(), client := WRITE, drained := false, talk := w.talk,
      consumed := v.talk.HelloIn() + EncodeCreds(w.talk.creds.value),
      replies := v.replies + [1, if w.talk.Passed() then 0 else 1])
    requires w.talk == v.talk.(creds := w.talk.creds, atAuth := w.talk.atAuth)
    ensures Leaves(AuthRead, AuthWrite, w)
  {
  }

  /** What is left behind by an attempt to connect that is under way. */
  lemma Connects(v: Snap, w: Snap)
    requires v.drained && !v.job && v.dial.After(D.Connecting) && v.Requested() && v.Dialing()
    requires v.replies == v.talk.Out() && w == v.(client := NOOP, origin := WRITE)
    ensures StateOk(RequestConnecting, w)
  {
  }

  /** And by the reply to one that has been decided. */
  lemma Replies(v: Snap, w: Snap)
    requires !v.job && v.dial.After(D.Replying) && v.Requested() && v.Dialing() && v.replies == v.talk.Out()
    requires w == v.(
      client := WRITE, origin := if v.dial.fd.Absent? then v.origin else NOOP, drained := false, bound := w.bound,
      replies := v.replies + ReplyBytes(v.dial.reply, w.bound))
    requires w.bound == if v.dial.reply == 0 && !v.dial.fd.Absent? then v.sockname else NoBound
    ensures StateOk(RequestWrite, w)
  {
  }

  /** By a name that is to be resolved. */
  lemma AsksResolver(v: Snap, r: Request)
    requires v.drained && v.Quiet(READ) && v.talk.Authorised() && v.replies == v.talk.Out() && r.atyp == FQDN
    requires v.consumed == v.talk.In() + EncodeRequest(r) && r.cmd == 1
    ensures Arriving(RequestResolv, v.(request := Some(r)))
  {
  }

  /** Neither connecting nor replying has an arrival callback. */
  lemma NoArrival(s: State, v: Snap)
    requires StateOk(s, v) && (s.RequestConnecting? || s.RequestWrite?)
    ensures Arriving(s, v)
  {
  }

  /** What a write leaves behind, where it leads. */
  lemma WriteLeaves(s: State, r: SendResult, v: Snap, w: Snap)
    requires Writes(s) && StateOk(s, v) && (r.Flushed? ==> w.drained)
    requires w == v.(sent := w.sent, drained := w.drained, client := w.client)
    requires w.client == if HasArrival(WriteLeads(s, r, v)) && !s.RequestWrite? then READ else v.client
    ensures Leaves(s, WriteLeads(s, r, v), w)
  {
  }

  /** What the client has asked for, and how far reaching it has got, stay as they are. */
  predicate SameGoal(v: Snap, w: Snap) {
    w.dial == v.dial && w.plan == v.plan && w.request == v.request && w.bound == v.bound && w.origin == v.origin
  }

  /** A read that does not end a request changes nothing of that; one that does not complete a
      message answers nothing. */
  predicate ReadKeepsGoal(s: State, r: ReadResult, ret: State, p: Parser, v: Snap, w: Snap) {
    && ((s.RequestRead? && (r.Complete? || r.Malformed?)) || SameGoal(v, w))
    && (r.Malformed? ==> w.request == v.request && w.plan == v.plan)
    && (ret == s || ret.Failed? ==> w.replies == v.replies)
    && (ret == s ==> w.parser == p)
  }

  /** Nothing is read from the client, and nothing sent to it. */
  predicate Silent(a: Scene, v: Snap, b: Scene) {
    && b.inbox == a.inbox.(parser := v.parser) && Answers(a.outbox, b.outbox)
    && b.v.talk == v.talk && b.v.request == v.request
  }

  /** The callback of state `s`, called for `e` with the connection at `v`, did `did` and returned
      `ret`, with the connection at `b`. */
  predicate Acted(s: State, e: Event, a: Scene, v: Snap, did: Did, ret: State, b: Scene) {
    && b.slots == a.slots && b.v.sockname == v.sockname
    && match did
       case Read(t) =>
         var p := v.parser.FeedAll(t.fed);
         var r := ReadOf(t.answer, p.Status());
         && Reads(s) && Answers(a.outbox, b.outbox)
         && Received(a.inbox.(parser := v.parser), t, r, b.inbox.(parser := p))
         && ReadLeads(s, r, p, ret, b.v) && ReadKeepsGoal(s, r, ret, p, v, b.v)
         && b.v.talk == Judged(s, r, p, Accounts(a.slots), v.talk)
       case Wrote(n) =>
         var r := if a.outbox.empty then Flushed else SendOf(n, b.outbox.empty);
         && Writes(s) && b.inbox == a.inbox.(parser := b.inbox.parser) && Sent(a.outbox, n, r, b.outbox)
         && b.v.replies == v.replies && b.v.talk == v.talk && SameGoal(v, b.v)
         && ret == WriteLeads(s, r, v)
       case Resumed =>
         && s.RequestResolv? && e.Resolved? && Silent(a, v, b) && ResolvedLeads(e.addrs, ret, b.v)
       case Probed(soError) =>
         && s.RequestConnecting? && Silent(a, v, b) && b.v.plan == v.plan && b.v.dial.Continues(v.dial)
         && ProbeLeads(soError, ret, v.dial, b.v.dial)
  }

  /** An event: the callback acts, and the state it returns is entered. */
  predicate Turned(e: Event, did: Did, a: Scene, b: Scene) {
    b.started && Acted(a.state, e, a, a.Begun(), did, b.state, b)
  }

  /** The invariant between events. */
  predicate SceneOk(a: Scene) {
    && a.v.SendsInOrder() && a.v.sent == a.outbox.sent && a.v.drained == a.outbox.empty
    && a.v.consumed == a.inbox.consumed && a.v.parser == a.inbox.parser
    && if a.started then StateOk(a.state, a.v) else a.state.HelloRead? && Arriving(HelloRead, a.v)
  }

  predicate AllOk(trail: seq<Scene>) { forall i :: 0 <= i < |trail| ==> SceneOk(trail[i]) }

  // ----- the addresses that are tried -----

  /** What there is to try is known, or it is known that there is nothing. */
  predicate Decided(a: Scene) {
    || a.state.RequestConnecting? || a.state.RequestWrite? || a.state.Copy?
    || (a.state.Finished? && a.v.talk.Authorised())
  }

  /** The addresses to try that event `e` in state `s` gives: those the resolver found, or the one in
      the request it completes. */
  function Given(s: State, e: Event, request: Option<Request>): seq<D.Addr> {
    if s.RequestResolv? then
      if e.Resolved? && e.addrs.Some? then e.addrs.value else []
    else match request
      case None => []
      case Some(r) => if r.cmd == 1 then [r.addr + r.port] else []
  }

  /** An event gives the addresses, or leaves them and the request as they were. */
  lemma TurnGives(e: Event, did: Did, a: Scene, b: Scene)
    requires SceneOk(a) && SceneOk(b) && Turned(e, did, a, b) && Decided(b)
    ensures if Decided(a) then b.v.plan == a.v.plan && b.v.request == a.v.request
      else (a.state.RequestRead? || a.state.RequestResolv?) && b.v.plan == Given(a.state, e, b.v.request)
  {
    hide Received, Sent, Accounts, Parser.FeedAll, EncodeRequest, EncodeCreds, EncodeHello, ReplyBytes;
    return;
  }

  /** A failure reply: nothing was tried, for one of three reasons, or every address was, and failed. */
  predicate FailsOn(v: Snap, list: seq<D.Addr>) {
    && v.dial.attempts == list && v.dial.fd.Absent? && v.dial.opens == v.dial.closes
    && |v.dial.answers| == |v.dial.errors| == |list|
    && (forall k :: 0 <= k < |list| ==> D.Blames(v.dial.answers[k], v.dial.errors[k]))
    && (v.request.Some? ==> v.consumed == v.talk.In() + EncodeRequest(v.request.value))
    && v.replies == v.talk.Out() + [5, v.dial.reply, 0, 1, 0, 0, 0, 0, 0, 0]
    && if list == [] then
         v.dial.reply == if v.request.None? then 1 else if v.request.value.cmd == 1 then 4 else 7
       else
         var r, e := v.dial.reply, v.dial.errors[|list| - 1];
         && (r == 5 <==> e.ConnRefused?) && (r == 3 <==> e.NetUnreachable?) && (r == 4 <==> e.HostUnreachable?)
         && (r == 6 <==> e.TimedOut?) && (r == 1 <==> e.OtherErrno?)
  }

  lemma SceneFails(a: Scene)
    requires SceneOk(a) && (a.state.RequestWrite? || a.state.Finished?) && Decided(a) && a.v.dial.reply != 0
    ensures FailsOn(a.v, a.v.plan)
  {
    hide SceneOk, ReplyBytes, Decided;
    FailureSaid(a);
    ReplyReads(a.v.dial.reply, NoBound);
    if a.v.dial.attempts == [] {
      NothingTried(a);
    } else {
      AllTried(a);
      D.Exhausted(a.v.dial, a.v.plan);
    }
    return;
  }

  lemma NothingTried(a: Scene)
    requires SceneOk(a) && (a.state.RequestWrite? || a.state.Finished?) && Decided(a) && a.v.dial.reply != 0
    requires a.v.dial.attempts == []
    ensures var v := a.v;
      && v.dial.Idle() && v.plan == []
      && (v.request.Some? ==> v.consumed == v.talk.In() + EncodeRequest(v.request.value))
      && v.dial.reply == if v.request.None? then 1 else if v.request.value.cmd == 1 then 4 else 7
  {
    hide ReplyBytes, EncodeRequest, EncodeCreds, EncodeHello, D.Dial.Answered;
    return;
  }

  lemma AllTried(a: Scene)
    requires SceneOk(a) && (a.state.RequestWrite? || a.state.Finished?) && Decided(a) && a.v.dial.reply != 0
    requires a.v.dial.attempts != []
    ensures var v := a.v;
      && v.dial.Answered() && v.dial.attempts + v.dial.rest == v.plan
      && v.request.Some? && v.consumed == v.talk.In() + EncodeRequest(v.request.value)
  {
    hide ReplyBytes, EncodeRequest, EncodeCreds, EncodeHello, D.Dial.Answered, D.Dial.Idle;
    return;
  }

  lemma FailureSaid(a: Scene)
    requires SceneOk(a) && (a.state.RequestWrite? || a.state.Finished?) && Decided(a) && a.v.dial.reply != 0
    ensures a.v.replies == a.v.talk.Out() + ReplyBytes(a.v.dial.reply, NoBound)
  {
    hide ReplyBytes, EncodeRequest, EncodeCreds, EncodeHello, Snap.Refused;
    return;
  }

  /** A success reply: the request was for a connection, the origin is registered, it is the first
      address of the list that did not fail, and no other socket is open. */
  predicate SucceedsOn(v: Snap, list: seq<D.Addr>) {
    && v.dial.fd.Registered? && v.dial.opens == v.dial.closes + 1
    && v.dial.attempts != [] && v.dial.attempts <= list && v.dial.addr == list[|v.dial.attempts| - 1]
    && |v.dial.errors| == |v.dial.attempts| - 1 && |v.dial.answers| == |v.dial.attempts|
    && (forall k :: 0 <= k < |v.dial.errors| ==> D.Blames(v.dial.answers[k], v.dial.errors[k]))
    && v.replies == v.talk.Out() + ReplyBytes(0, v.sockname)
    && (v.dial.Last().Connected? || v.dial.Last().InProgress?)
    && v.request.Some? && v.request.value.cmd == 1 && v.consumed == v.talk.In() + EncodeRequest(v.request.value)
  }

  lemma SceneSucceeds(a: Scene)
    requires SceneOk(a) && (a.state.Copy? || (a.state.RequestWrite? && a.v.dial.reply == 0))
    ensures SucceedsOn(a.v, a.v.plan)
  {
    D.Reached(a.v.dial, a.v.plan);
  }

  // ----- what waits in the read buffer -----

  /** Bytes have been received, and the state reads, but only a readable socket makes it look. */
  predicate Waits(a: Scene) { a.started && Reads(a.state) && a.inbox.held != [] }

  /** On arrival at a reading state something waits exactly if the read buffer is not empty. */
  lemma ArrivalWaits(e: Event, did: Did, a: Scene, b: Scene)
    requires Turned(e, did, a, b) && Reads(b.state) && b.state != a.state
    ensures Waits(b) <==> a.inbox.held != []
  {
  }

  /** What waits is parsed only by an event that brings more: any other leaves it, or fails. */
  lemma WaitsForMore(e: Event, did: Did, a: Scene, b: Scene)
    requires Turned(e, did, a, b) && Waits(a)
    ensures did.Read?
    ensures !did.t.answer.Moved? ==> b.inbox.held == a.inbox.held && (b.state == a.state || b.state.Failed?)
    ensures did.t.answer.Moved? && b.state == a.state ==> !Waits(b)
  {
  }

  /** The answer to a greeting, while the credentials that came with it are held. */
  function Greeting(c: Creds): Scene {
    var v := Snap(
      WRITE, NOOP, false, 2, false, D.Dial(D.Absent, [], [], 0, [], [], [], 0, 0), HelloP(HelloDone([2])),
      EncodeHello([2]), [5, 2], [], false, Talk([2], {}, None, {}), None, NoBound, NoBound, []);
    Scene(true, HelloWrite, v, Intake(v.consumed, EncodeCreds(c), v.parser, [], true), Outlet([], false, []), [])
  }

  /** And after it. */
  function Greetings(c: Creds): Scene {
    var a := Greeting(c);
    var w := Arrived(AuthRead, a.v.(client := READ, sent := [5, 2], drained := true));
    Scene(true, AuthRead, w, a.inbox.(parser := w.parser), Outlet([5, 2], true, [Moved(2)]), [])
  }

  lemma GreetingsOk(c: Creds)
    ensures SceneOk(Greeting(c)) && SceneOk(Greetings(c))
  {
    assert Greeting(c).v.talk.Selected() == 2;
  }

  /** A client that sends its credentials along with its greeting, in one piece, waits for an answer
      that only more bytes of its own would bring. */
  lemma EarlyCredentialsWait(c: Creds) returns (a: Scene, b: Scene)
    ensures SceneOk(a) && SceneOk(b) && Turned(Ready(true, false), Wrote(Moved(2)), a, b)
    ensures b.state.AuthRead? && b.inbox.held == EncodeCreds(c) && Waits(b)
  {
    a, b := Greeting(c), Greetings(c);
    GreetingsOk(c);
    hide SceneOk;
    assert a.v.talk.Selected() == 2;
    return;
  }

  /** Nothing has been chosen before the first event. */
  lemma StartsAtHello(a: Scene)
    requires SceneOk(a) && !a.started
    ensures a.state.HelloRead?
  {
  }

  /** In these states the client has passed, by the accounts it was judged by. */
  lemma MayRequest(a: Scene)
    requires SceneOk(a)
    requires var s := a.state;
      s.RequestRead? || s.RequestResolv? || s.RequestConnecting? || s.RequestWrite? || s.Copy?
    ensures var t := a.v.talk;
      if t.creds.None? then 0 in t.methods && 2 !in t.methods && t.atHello == {} else Matches(t.atAuth, t.creds.value)
  {
  }

  /** An event ends a conversation in order only when the last of an answer has gone out, and that
      answer turns the client down. */
  lemma EndsInFull(e: Event, did: Did, a: Scene, b: Scene)
    requires SceneOk(a) && SceneOk(b) && Turned(e, did, a, b) && b.state.Finished? && !a.state.Finished?
    ensures Writes(a.state) && b.v.sent == b.v.replies == a.v.replies && b.v.TurnedDown()
  {
    LastWrite(e, did, a, b);
    hide Turned;
    return;
  }

  /** The bytes that turn a client down, from the first to the last. */
  lemma LastWords(v: Snap) returns (code: byte)
    requires v.TurnedDown()
    ensures
      || v.replies == [5, 255] || v.replies == [5, 2, 1, 1]
      || (code != 0 && v.replies == [5, 0] + [5, code, 0, 1, 0, 0, 0, 0, 0, 0])
      || (code != 0 && v.replies == [5, 2, 1, 0] + [5, code, 0, 1, 0, 0, 0, 0, 0, 0])
  {
    code := v.dial.reply;
    ReplyReads(code, NoBound);
    TalkSaid(v.talk);
    hide Snap.Refused, ReplyBytes, Talk.Out, Talk.HelloOut, Talk.Selected, Talk.Passed;
    return;
  }

  lemma TalkSaid(t: Talk)
    ensures t.HelloOut() == [5, t.Selected()]
    ensures t.Out() == if t.creds.None? then [5, t.Selected()] else [5, t.Selected(), 1, if t.Passed() then 0 else 1]
  {
    hide Talk.Selected, Talk.Passed;
    return;
  }

  /** What the system answers decides where an event leads. */
  lemma AnswerDecides(e: Event, did: Did, a: Scene, b: Scene)
    requires SceneOk(a) && Turned(e, did, a, b)
    ensures did.Read? ==>
      && (did.t.answer.Eof? || did.t.answer.Failed? ==> b.state.Failed?)
      && (did.t.answer.WouldBlock? ==> b.state == a.state && b.inbox.held == a.inbox.held)
    ensures did.Wrote? && !a.outbox.empty ==>
      && (did.n.Eof? || did.n.Failed? ==> b.state.Failed?)
      && (did.n.WouldBlock? ==> b.state == a.state)
      && (did.n.Moved? ==> !b.state.Failed? && (b.state == a.state <==> !b.outbox.empty))
  {
    hide SceneOk, Judged, Accounts, Parser.FeedAll, SameGoal;
    return;
  }

  lemma LastWrite(e: Event, did: Did, a: Scene, b: Scene)
    requires Turned(e, did, a, b) && b.state.Finished? && !a.state.Finished?
    ensures Writes(a.state) && b.v.replies == a.v.replies
  {
  }

  /** The method has been chosen. */
  predicate Greeted(s: State) { !s.HelloRead? && !s.Failed? }

  /** How an event changes the talk: not at all, or by the answer to a greeting or to credentials,
      given by the accounts of that moment. */
  predicate TalkStep(a: Scene, b: Scene) {
    || (Greeted(a.state) && b.v.talk == a.v.talk)
    || (a.state.HelloRead? && b.state.HelloWrite? &&
        b.v.talk == Talk(b.v.talk.methods, Accounts(a.slots), None, {}))
    || (a.state.AuthRead? && b.state.AuthWrite? && b.v.talk.creds.Some? &&
        b.v.talk == a.v.talk.(creds := b.v.talk.creds, atAuth := Accounts(a.slots)))
  }

  lemma TurnTalks(e: Event, did: Did, a: Scene, b: Scene)
    requires Turned(e, did, a, b) && Greeted(b.state)
    ensures TalkStep(a, b)
  {
  }

  /** The answer to a greeting, and to credentials. */
  lemma HelloScene(a: Scene, b: Scene)
    requires SceneOk(b) && TalkStep(a, b) && a.state.HelloRead? && b.state.HelloWrite?
    ensures b.v.consumed == EncodeHello(b.v.talk.methods) && |b.v.talk.methods| <= 255
    ensures b.v.replies == [5, Select(b.v.talk.methods, Accounts(a.slots))]
  {
    hide EncodeHello, Select, Accounts;
    return;
  }

  /** The three choices. */
  lemma SelectMeans(methods: seq<byte>, slots: seq<Slot>)
    ensures var m, free := Select(methods, Accounts(slots)), forall s :: s in slots ==> !s.inUse;
      && (m == 2 || m == 0 || m == 255)
      && (m == 2 <==> 2 in methods) && (m == 0 <==> 2 !in methods && 0 in methods && free)
  {
    if s :| s in slots && s.inUse {
      assert Creds(s.name, s.pass) in Accounts(slots);
    }
  }

  /** Both fields are those of an account, as far as strcmp looks. */
  ghost predicate Right(slots: seq<Slot>, c: Creds) {
    exists s :: s in slots && s.inUse && s.name == CStr(c.user) && s.pass == CStr(c.pass)
  }

  lemma MatchesMeans(slots: seq<Slot>, c: Creds)
    ensures Matches(Accounts(slots), c) <==> Right(slots, c)
    ensures 0 !in c.user && 0 !in c.pass ==> (Right(slots, c) <==> c in Accounts(slots))
  {
    if Right(slots, c) {
      var s :| s in slots && s.inUse && s.name == CStr(c.user) && s.pass == CStr(c.pass);
      assert Creds(s.name, s.pass) in Accounts(slots);
    }
  }

  lemma AuthScene(a: Scene, b: Scene)
    requires SceneOk(a) && SceneOk(b) && TalkStep(a, b) && a.state.AuthRead? && b.state.AuthWrite?
    ensures b.v.talk.creds.Some? && b.v.consumed == a.v.talk.HelloIn() + EncodeCreds(b.v.talk.creds.value)
    ensures b.v.talk.creds.value.Fits() && a.v.talk.HelloOut() == [5, 2]
    ensures b.v.replies ==
      a.v.talk.HelloOut() + [1, if Matches(Accounts(a.slots), b.v.talk.creds.value) then 0 else 1]
  {
    hide EncodeHello, EncodeCreds, Select, Matches, Accounts;
    return;
  }

  lemma NoCredsYet(a: Scene)
    requires SceneOk(a) && a.state.AuthRead?
    ensures a.v.talk.creds.None?
  {
  }

  /** The first arrival callback changes nothing but what the callback of the event finds. */
  lemma ActedFrom(e: Event, a: Scene, seen: Scene, v: Snap, did: Did, ret: State, b: Scene)
    requires Acted(a.state, e, seen, v, did, ret, b)
    requires seen.inbox == a.inbox.(parser := v.parser) && seen.outbox == a.outbox && seen.slots == a.slots
    ensures Acted(a.state, e, a, v, did, ret, b)
  {
    hide Received, Sent, Judged, Accounts, SendOf, ReadOf, Parser.FeedAll, D.Dial.Continues;
    return;
  }

  lemma EnteredKeeps(from: State, to: State, v: Snap)
    ensures var w := Entered(from, to, v);
      && SameGoal(v, w) && w.talk == v.talk && w.replies == v.replies && w.sockname == v.sockname
      && (to == from || !HasArrival(to) ==> w == v)
  {
  }

  /** The next one changes nothing a callback is judged by. */
  lemma ActedEnters(e: Event, did: Did, a: Scene, b: Scene, c: Scene)
    requires Acted(a.state, e, a, a.Begun(), did, c.state, b) && c.started
    requires c.inbox == b.inbox.(parser := c.v.parser) && b.inbox.parser == b.v.parser && c.outbox == b.outbox
    requires c.slots == b.slots && c.v == Entered(a.state, c.state, b.v)
    ensures Turned(e, did, a, c)
  {
    EnteredKeeps(a.state, c.state, b.v);
    hide Entered, Scene.Begun, WriteLeads, Received, Sent, Judged, Accounts, SendOf, ReadOf, Parser.FeedAll,
      D.Dial.Continues;
    return;
  }

  class Connection {
    const stm: StateMachine<State>
    const io: Client
    const dial: D.Dialer
    var client: Interest
    var origin: Interest
    /** parser.hello.selected and parser.auth.ok, which outlive their parsing. */
    var selected: byte
    var authOk: bool
    /** dns_active. */
    var job: bool
    var relay: R.Relay?
    ghost var talk: Talk
    ghost var request: Option<Request>
    ghost var bound: Bound
    /** What getsockname says of the origin's socket, if it can. */
    const sockname: Bound
    ghost var plan: seq<D.Addr>
    /** What the origin will send. */
    ghost var originStream: seq<byte>

    ghost function View(): Snap
      reads this, io, io.cout, io.wb, dial
    {
      Snap(client, origin, job, selected, authOk, dial.View(), io.parser, io.consumed, io.replies, io.cout.sent,
        !io.wb.CanRead(), talk, request, bound, sockname, plan)
    }

    ghost function Now(table: UserTable): Scene
      reads this, stm, io, io.cin, io.cout, io.rb, io.rb.data, io.wb, dial, table.slots
    {
      Scene(stm.current.Some?, stm.State(), View(), io.Inbox(), io.Outbox(), table.slots[..])
    }

    /** The state is a conversation with the client, not yet a relay. */
    ghost predicate Talking()
      reads `relay, io, io.cin, io.cout, io.rb, io.rb.data, io.wb, io.wb.data
    {
      relay == null && io.Valid() && sockname.Fits()
    }

    /** The relay takes over both buffers as they are: what the client sent after its request goes
        to the origin, and the origin's stream follows the last answer. */
    ghost predicate Relaying()
      reads this, io, relay, RelayFootprint()
    {
      && relay != null && relay.Valid() && !relay.Finished()
      && relay.up.src == io.cin && relay.up.buf == io.rb && relay.down.buf == io.wb && relay.down.sink == io.cout
      && io.consumed + relay.up.stream == io.stream && relay.down.stream == io.replies + originStream
    }

    ghost function RelayFootprint(): set<object>
      reads this
    {
      if relay == null then {} else relay.Footprint()
    }

    /** socks5_new, and the registration of the client for reading. */
    constructor (stream: seq<byte>, sockname: Bound)
      requires sockname.Fits()
      ensures Talking() && Arriving(HelloRead, View()) && stm.current.None? && this.sockname == sockname
      ensures stm.Valid() && stm.initial == HelloRead && stm.arrives == HasArrival
      ensures io.stream == stream && fresh(this) && fresh(io.Footprint()) && fresh(dial) && fresh(stm)
    {
      this.sockname := sockname;
      stm := new StateMachine(HelloRead, HasArrival);
      io := new Client(stream);
      dial := new D.Dialer();
      client, origin, relay := READ, NOOP, null;
      selected, authOk, job := 0, false, false;
      talk, request, bound, plan, originStream := Talk([], {}, None, {}), None, NoBound, [], [];
    }

    method Arrive(s: State)
      requires Talking() && HasArrival(s) && !s.Copy?
      modifies this, io`parser
      ensures Talking() && View() == Arrived(s, old(View()))
    {
      if s.HelloRead? {
        io.parser, selected := HelloP(HelloVersion), NO_ACCEPTABLE;
      } else if s.AuthRead? {
        io.parser, authOk := CredsP(CredsVersion), false;
      } else if s.RequestRead? {
        io.parser := RequestP(ReqVersion);
      } else {
        client, job := NOOP, true;
      }
    }

    /** relay_on_arrival. */
    method ArriveCopy()
      requires Talking() && !io.wb.CanRead()
      modifies this`relay, this`originStream
      ensures Relaying() && (relay.NoStall() <==> !io.rb.CanRead())
      ensures fresh({relay, relay.up, relay.down, relay.up.sink, relay.down.src})
    {
      var fromOrigin: seq<byte> := *;
      originStream := fromOrigin;
      relay := R.Start(io.cin, io.rb, fromOrigin, io.wb, io.cout);
      assert io.consumed + (io.rb.Contents() + io.cin.unread) == io.consumed + io.rb.Contents() + io.cin.unread;
    }

    /** The common start of the on_read_ready handlers: what has been received is parsed. */
    method Take(s: State) returns (r: ReadResult, ghost t: Taken)
      requires Talking() && Reads(s) && StateOk(s, View())
      modifies io`parser, io`consumed, io.cin`unread, io.cin`log, io.rb, io.rb.data
      ensures Talking() && Received(old(io.Inbox()), t, r, io.Inbox()) && Advanced(old(View()), View())
      ensures SameKind(old(io.parser), io.parser)
      ensures r.Again? ==> StateOk(s, View())
      ensures Arriving(State.Failed, View())
      ensures r.Complete? ==>
        && io.parser == View().parser && io.parser.Status().Done? && io.parser.Ok()
        && View().consumed == Base(s, View().talk) + io.parser.Written()
    {
      ghost var v := View();
      ReadsParse(s, v);
      hide StateOk, Received, Client.Inbox, Client.Outbox;
      r, t := io.ReadMessage(Base(s, talk));
      ReadKeeps(s, v, View());
      return;
    }

    /** hello_on_read_ready. */
    method OnHelloRead(table: UserTable) returns (ret: State, ghost r: ReadResult, ghost t: Taken)
      requires Talking() && StateOk(HelloRead, View()) && table.Valid()
      modifies this, io, io.cin, io.rb, io.rb.data, io.wb, io.wb.data
      ensures Talking() && Leaves(HelloRead, ret, View())
      ensures Received(old(io.Inbox()), t, r, io.Inbox()) && Answers(old(io.Outbox()), io.Outbox())
      ensures ret == match r case Complete => HelloWrite case Again => HelloRead case _ => State.Failed
      ensures var v, w, p := old(View()), View(), io.Inbox().parser;
        && SameGoal(v, w)
        && if r.Complete? then
             p.HelloP? && p.hello.HelloDone? &&
             w.talk == Talk(p.hello.methods, old(Accounts(table.slots[..])), None, {})
           else
             w.talk == v.talk && w.replies == v.replies
      ensures r.Complete? ==>
        var m, offered := selected, io.Inbox().parser.hello.methods;
        && View().replies == old(View()).replies + [5, m] && (m == 2 || m == 0 || m == 255)
        && (m == 2 <==> 2 in offered)
        && (m == 0 <==> 2 !in offered && 0 in offered && old(Accounts(table.slots[..])) == {})
    {
      ghost var v := View();
      ReadsParse(HelloRead, v);
      hide StateOk, Arriving, Talking, View, Accounts, Received, CStr, UserTable.Valid, Client.Inbox, Client.Outbox;
      var got;
      got, t := Take(HelloRead);
      r := got;
      if got.Complete? {
        var m := Choose(io.parser.hello.methods, table);
        Offer(m, Accounts(table.slots[..]));
        Mirrored();
        HelloAnswered(v, View());
        return HelloWrite, r, t;
      }
      return if got.Again? then HelloRead else State.Failed, r, t;
    }

    /** The method selected, and the answer that says so. */
    method Offer(m: byte, ghost accounts: set<Creds>)
      requires Talking() && View().drained && io.parser.HelloP? && io.parser.hello.HelloDone?
      requires m == Select(io.parser.hello.methods, accounts)
      modifies this`talk, this`selected, this`client, io`replies, io.wb, io.wb.data
      ensures Talking()
      ensures var v, t := old(View()), Talk(old(io.parser).hello.methods, accounts, None, {});
        View() == v.(
          selected := t.Selected(), talk := t, client := WRITE, drained := false,
          replies := v.replies + [5, t.Selected()])
      ensures selected == m && View().replies == old(View()).replies + [5, m]
      ensures io.Inbox() == old(io.Inbox()) && Answers(old(io.Outbox()), io.Outbox())
    {
      hide Talking, Select, Client.Inbox, Client.Outbox;
      selected := m;
      talk := Talk(io.parser.hello.methods, accounts, None, {});
      client := WRITE;
      Answer(5, selected);
      return;
    }

    static method Choose(methods: seq<byte>, table: UserTable) returns (m: byte)
      requires table.Valid()
      ensures m == Select(methods, Accounts(table.slots[..])) && (m == 2 || m == 0 || m == 255)
      ensures m == 2 <==> 2 in methods
      ensures m == 0 <==> 2 !in methods && 0 in methods && Accounts(table.slots[..]) == {}
    {
      var any := table.HasUsers();
      if 2 in methods {
        m := 2;
      } else if 0 in methods && !any {
        m := 0;
      } else {
        m := NO_ACCEPTABLE;
      }
    }

    /** Two bytes for the client. */
    method Answer(a: byte, b: byte)
      requires Talking() && !io.wb.CanRead()
      modifies io`replies, io.wb, io.wb.data
      ensures Talking() && View() == old(View()).(replies := old(io.replies) + [a, b], drained := false)
      ensures io.Inbox() == old(io.Inbox()) && Answers(old(io.Outbox()), io.Outbox())
    {
      hide Client.Inbox, Client.Outbox;
      io.Put(a);
      io.Put(b);
      return;
    }

    /** The common start of the on_write_ready handlers. */
    method Flush() returns (r: SendResult, ghost n: IoResult)
      requires Talking()
      modifies io.cout`sent, io.cout`log, io.wb, io.wb.data
      ensures Talking() && Sent(old(io.Outbox()), n, r, io.Outbox()) && io.Inbox() == old(io.Inbox())
      ensures r.Flushed? ==> View().drained
      ensures View() == old(View()).(sent := View().sent, drained := View().drained)
    {
      r, n := io.Send();
    }

    /** selector_set_interest on the client, for its next message. */
    method Listen()
      requires Talking()
      modifies this`client
      ensures Talking() && View() == old(View()).(client := READ)
    {
      client := READ;
    }

    /** hello_on_write_ready. */
    method OnHelloWrite() returns (ret: State, ghost r: SendResult, ghost n: IoResult)
      requires Talking() && StateOk(HelloWrite, View())
      modifies this`client, io.cout`sent, io.cout`log, io.wb, io.wb.data
      ensures Talking() && Leaves(HelloWrite, ret, View())
      ensures Sent(old(io.Outbox()), n, r, io.Outbox()) && io.Inbox() == old(io.Inbox())
      ensures View() == old(View()).(sent := View().sent, drained := View().drained, client := client)
      ensures ret == WriteLeads(HelloWrite, r, old(View()))
    {
      ghost var v := View();
      assert selected == talk.Selected() && v.talk == talk;
      hide StateOk, Arriving, Leaves, Sent, Talking, View, Matches, Client.Inbox, Client.Outbox;
      var st;
      st, n := Flush();
      r := st;
      if !st.Flushed? {
        ret := if st.Pending? then HelloWrite else State.Failed;
      } else if selected == 2 {
        Listen();
        ret := AuthRead;
      } else if selected == 0 {
        Listen();
        ret := RequestRead;
      } else {
        ret := Finished;
      }
      WriteLeaves(HelloWrite, r, v, View());
      return;
    }

    /** auth_on_read_ready. */
    method OnAuthRead(table: UserTable) returns (ret: State, ghost r: ReadResult, ghost t: Taken)
      requires Talking() && StateOk(AuthRead, View()) && table.Valid()
      modifies this, io, io.cin, io.rb, io.rb.data, io.wb, io.wb.data
      ensures Talking() && Leaves(AuthRead, ret, View())
      ensures Received(old(io.Inbox()), t, r, io.Inbox()) && Answers(old(io.Outbox()), io.Outbox())
      ensures ret == match r case Complete => AuthWrite case Again => AuthRead case _ => State.Failed
      ensures var v, w, p := old(View()), View(), io.Inbox().parser;
        && SameGoal(v, w)
        && if r.Complete? then
             p.CredsP? && p.creds.CredsDone? &&
             w.talk == v.talk.(creds := Some(p.creds.creds), atAuth := old(Accounts(table.slots[..])))
           else
             w.talk == v.talk && w.replies == v.replies
      ensures r.Complete? ==>
        var c := io.Inbox().parser.creds.creds;
        var ok := Creds(CStr(c.user), CStr(c.pass)) in old(Accounts(table.slots[..]));
        View().replies == old(View()).replies + [1, if ok then 0 else 1]
    {
      ghost var v := View();
      ReadsParse(AuthRead, v);
      hide StateOk, Arriving, Talking, View, Accounts, Received, CStr, UserTable.Valid, Client.Inbox, Client.Outbox,
        Matches, EncodeCreds, Parser.Ok, Parser.Status, Parser.Written;
      var got;
      got, t := Take(AuthRead);
      r := got;
      if got.Complete? {
        CredsComplete(io.parser);
        var c := io.parser.creds.creds;
        var ok := table.ValidateUser(CStr(c.user), CStr(c.pass));
        Check(ok, Accounts(table.slots[..]));
        Mirrored();
        AuthAnswered(v, View());
        return AuthWrite, r, t;
      }
      return if got.Again? then AuthRead else State.Failed, r, t;
    }

    /** The credentials checked, and the answer that says so. */
    method Check(ok: bool, ghost accounts: set<Creds>)
      requires Talking() && View().drained && io.parser.CredsP? && io.parser.creds.CredsDone?
      requires ok <==> Matches(accounts, io.parser.creds.creds)
      modifies this`talk, this`authOk, this`client, io`replies, io.wb, io.wb.data
      ensures Talking()
      ensures var v := old(View());
        var t := v.talk.(creds := Some(old(io.parser).creds.creds), atAuth := accounts);
        View() == v.(
          authOk := t.Passed(), talk := t, client := WRITE, drained := false,
          replies := v.replies + [1, if t.Passed() then 0 else 1])
      ensures View().replies == old(View()).replies + [1, if ok then 0 else 1]
      ensures io.Inbox() == old(io.Inbox()) && Answers(old(io.Outbox()), io.Outbox())
    {
      hide Talking, Matches, Client.Inbox, Client.Outbox;
      authOk := ok;
      talk := talk.(creds := Some(io.parser.creds.creds), atAuth := accounts);
      client := WRITE;
      Answer(1, if authOk then 0 else 1);
      return;
    }

    /** auth_on_write_ready. */
    method OnAuthWrite() returns (ret: State, ghost r: SendResult, ghost n: IoResult)
      requires Talking() && StateOk(AuthWrite, View())
      modifies this`client, io.cout`sent, io.cout`log, io.wb, io.wb.data
      ensures Talking() && Leaves(AuthWrite, ret, View())
      ensures Sent(old(io.Outbox()), n, r, io.Outbox()) && io.Inbox() == old(io.Inbox())
      ensures View() == old(View()).(sent := View().sent, drained := View().drained, client := client)
      ensures ret == WriteLeads(AuthWrite, r, old(View()))
    {
      ghost var v := View();
      hide StateOk, Arriving, Leaves, Sent, Talking, Talk.Passed, Client.Inbox, Client.Outbox;
      PassedIsKept(v);
      assert v.authOk == authOk && v.talk == talk;
      hide View;
      var st;
      st, n := Flush();
      r := st;
      if !st.Flushed? {
        ret := if st.Pending? then AuthWrite else State.Failed;
      } else if !authOk {
        ret := Finished;
      } else {
        Listen();
        ret := RequestRead;
      }
      WriteLeaves(AuthWrite, r, v, View());
      return;
    }

    /** request_build_reply. */
    method BuildReply(bound: Bound)
      requires Talking() && !io.wb.CanRead() && bound.Fits()
      modifies io`replies, io.wb, io.wb.data
      ensures Talking() && io.replies == old(io.replies) + ReplyBytes(dial.reply, bound) && io.wb.CanRead()
      ensures io.Inbox() == old(io.Inbox()) && Answers(old(io.Outbox()), io.Outbox())
    {
      hide Client.Inbox, Client.Outbox;
      ghost var said := io.replies;
      io.Put(5);
      io.Put(dial.reply);
      io.Put(0);
      io.Put(bound.Atyp());
      io.PutAll(bound.Addr());
      io.PutAll(bound.Port());
      ReplyAppended(said, dial.reply, bound);
      return;
    }

    /** request_reply. */
    method Reply()
      requires Talking() && !io.wb.CanRead()
      modifies this`client, this`origin, this`bound, io`replies, io.wb, io.wb.data
      ensures Talking() && View() == old(View()).(
        client := WRITE, origin := if dial.fd.Absent? then old(origin) else NOOP, drained := false, bound := bound,
        replies := old(io.replies) + ReplyBytes(dial.reply, bound))
      ensures bound == if dial.reply == 0 && !dial.fd.Absent? then sockname else NoBound
      ensures io.Inbox() == old(io.Inbox()) && Answers(old(io.Outbox()), io.Outbox())
    {
      hide Client.Inbox, Client.Outbox;
      var name := if dial.reply == 0 && !dial.fd.Absent? then sockname else NoBound;
      bound := name;
      BuildReply(name);
      if !dial.fd.Absent? {
        origin := NOOP;
      }
      client := WRITE;
      return;
    }

    /** A failure reply without an attempt to connect. */
    method Refuse(code: byte)
      requires Talking() && var v := View();
        v.drained && !v.job && v.dial.Idle() && v.plan == [] && v.talk.Authorised() && v.replies == v.talk.Out()
      requires match request
        case None => code == GENERAL_FAILURE
        case Some(r) =>
          && View().consumed == View().talk.In() + EncodeRequest(r)
          && code == if r.cmd == 1 then HOST_UNREACHABLE else NOT_SUPPORTED
      modifies this`client, this`origin, this`bound, io`replies, io.wb, io.wb.data, dial`reply
      ensures Talking() && StateOk(RequestWrite, View()) && dial.reply == code
      ensures io.Inbox() == old(io.Inbox()) && Answers(old(io.Outbox()), io.Outbox())
    {
      hide Talking, Client.Inbox, Client.Outbox;
      dial.reply := code;
      Reply();
      return;
    }

    /** What follows an attempt to connect: waiting for it, or the reply. */
    method AfterDial(st: D.Dialed) returns (ret: State)
      requires Talking() && var v := View();
        v.drained && !v.job && v.dial.After(st) && v.Requested() && v.Dialing() && v.replies == v.talk.Out()
      modifies this`client, this`origin, this`bound, io`replies, io.wb, io.wb.data
      ensures Talking() && StateOk(ret, View()) && ret == if st.Connecting? then RequestConnecting else RequestWrite
      ensures io.Inbox() == old(io.Inbox()) && Answers(old(io.Outbox()), io.Outbox())
    {
      ghost var v := View();
      hide StateOk, Talking, Client.Inbox, Client.Outbox;
      if st.Connecting? {
        client, origin := NOOP, WRITE;
        Connects(v, View());
        return RequestConnecting;
      }
      Reply();
      Replies(v, View());
      return RequestWrite;
    }

    /** The first attempt to connect. */
    method DialFirst(addrs: seq<D.Addr>) returns (ret: State)
      requires Talking() && var v := View();
        v.drained && !v.job && v.Requested() && v.replies == v.talk.Out()
      requires request.value.atyp != FQDN ==> addrs == [request.value.addr + request.value.port]
      requires dial.View().Between() && dial.attempts == []
      requires [dial.addr] + dial.rest == addrs
      modifies this`client, this`origin, this`bound, this`plan, io`replies, io.wb, io.wb.data, dial
      ensures Talking() && StateOk(ret, View()) && (ret.RequestConnecting? || ret.RequestWrite?)
      ensures plan == addrs && dial.attempts != []
      ensures io.Inbox() == old(io.Inbox()) && Answers(old(io.Outbox()), io.Outbox())
    {
      hide Talking, StateOk, Client.Inbox, Client.Outbox, D.Dial.Between, D.Dial.After, Talk.In, Talk.Out,
        Talk.Authorised, EncodeRequest;
      plan := addrs;
      assert dial.attempts + [dial.addr] + dial.rest == addrs;
      var st := dial.Connect();
      ret := AfterDial(st);
      return;
    }

    /** request_on_read_ready. */
    method OnRequestRead() returns (ret: State, ghost r: ReadResult, ghost t: Taken)
      requires Talking() && StateOk(RequestRead, View())
      modifies this, io, io.cin, io.rb, io.rb.data, io.wb, io.wb.data, dial
      ensures Talking() && Leaves(RequestRead, ret, View())
      ensures Received(old(io.Inbox()), t, r, io.Inbox()) && Answers(old(io.Outbox()), io.Outbox())
      ensures var v, w := old(View()), View();
        && w.talk == v.talk
        && (r.Again? || r.Lost? ==> SameGoal(v, w) && w.replies == v.replies)
        && (r.Malformed? ==> w.request == v.request && w.plan == v.plan)
        && (r.Malformed? || r.Complete? ==> !ret.RequestRead? && !ret.Failed?)
      ensures match r
        case Again => ret == RequestRead
        case Lost => ret == State.Failed
        case Malformed => ret == RequestWrite && View().dial.reply == GENERAL_FAILURE && View().dial.attempts == []
        case Complete =>
          var p := io.Inbox().parser;
          p.RequestP? && p.request.ReqDone? && Routed(p.request.req, ret, View())
    {
      ReadsParse(RequestRead, View());
      hide StateOk, Arriving, Routed, Talking, View, Received, Client.Inbox, Client.Outbox;
      var got;
      got, t := Take(RequestRead);
      r := got;
      if got.Again? || got.Lost? {
        return if got.Again? then RequestRead else State.Failed, r, t;
      }
      ret := AfterRequest(got);
      Mirrored();
      return;
    }

    /** The request is over: it is malformed, or complete. */
    method AfterRequest(r: ReadResult) returns (ret: State)
      requires Talking() && (r.Malformed? || r.Complete?) && var v := View();
        v.drained && v.Quiet(READ) && v.talk.Authorised() && v.replies == v.talk.Out() && v.request.None?
      requires r.Complete? ==>
        && io.parser.RequestP? && io.parser.request.ReqDone? && io.parser.Ok()
        && View().consumed == View().talk.In() + io.parser.Written()
      modifies this`client, this`origin, this`request, this`bound, this`plan, io`replies, io.wb, io.wb.data, dial
      ensures Talking() && Arriving(ret, View()) && !ret.RequestRead? && !ret.Failed?
      ensures var v, w := old(View()), View();
        && w.talk == v.talk
        && (r.Complete? ==> Routed(old(io.parser).request.req, ret, w))
        && (r.Malformed? ==>
          && ret == RequestWrite && w.dial.reply == GENERAL_FAILURE && w.dial.attempts == []
          && w.request == v.request && w.plan == v.plan)
      ensures io.Inbox() == old(io.Inbox()) && Answers(old(io.Outbox()), io.Outbox())
    {
      hide StateOk, Arriving, Routed, Talking;
      if r.Malformed? {
        Refuse(GENERAL_FAILURE);
        NoArrival(RequestWrite, View());
        return RequestWrite;
      }
      ret := Dispatch(io.parser.request.req);
      return;
    }

    /** The request is complete. */
    method Dispatch(r: Request) returns (ret: State)
      requires Talking() && var v := View();
        v.drained && v.Quiet(READ) && v.talk.Authorised() && v.replies == v.talk.Out() && r.Fits() &&
        v.consumed == v.talk.In() + EncodeRequest(r) && v.request.None?
      modifies this`client, this`origin, this`request, this`bound, this`plan, io`replies, io.wb, io.wb.data, dial
      ensures Talking() && Arriving(ret, View()) && Routed(r, ret, View())
      ensures !ret.RequestRead? && !ret.Failed?
      ensures io.Inbox() == old(io.Inbox()) && Answers(old(io.Outbox()), io.Outbox())
    {
      ghost var v := View();
      hide StateOk, Arriving, Talking, Client.Inbox, Client.Outbox;
      request := Some(r);
      if r.cmd != 1 {
        Refuse(NOT_SUPPORTED);
        NoArrival(RequestWrite, View());
        return RequestWrite;
      }
      if r.atyp == FQDN {
        AsksResolver(v, r);
        return RequestResolv;
      }
      ret := DialNow(r);
      return;
    }

    /** An address is given, so it is tried at once. */
    method DialNow(r: Request) returns (ret: State)
      requires Talking() && var v := View();
        v.drained && !v.job && v.Requested() && v.replies == v.talk.Out() && v.dial.Idle() && v.request == Some(r)
      requires r.atyp != FQDN
      modifies this`client, this`origin, this`bound, this`plan, io`replies, io.wb, io.wb.data, dial
      ensures Talking() && Arriving(ret, View()) && (ret.RequestConnecting? || ret.RequestWrite?)
      ensures plan == [r.addr + r.port] && dial.attempts != []
      ensures io.Inbox() == old(io.Inbox()) && Answers(old(io.Outbox()), io.Outbox())
    {
      ghost var d := dial.View();
      hide StateOk, Arriving, Talking, Client.Inbox, Client.Outbox, D.Dial.Between;
      dial.addr := r.addr + r.port;
      D.Picked(d, dial.View());
      ret := DialFirst([r.addr + r.port]);
      NoArrival(ret, View());
      return;
    }

    /** request_resolv_on_block_ready; the job is over and gives up its reference. */
    method OnResolved(addrs: Option<seq<D.Addr>>) returns (ret: State)
      requires Talking() && StateOk(RequestResolv, View())
      modifies this`job, this`client, this`origin, this`bound, this`plan, io`replies, io.wb, io.wb.data, dial
      ensures Talking() && !job && StateOk(ret, View())
      ensures if addrs.None? || addrs.value == [] then
          ret == RequestWrite && dial.reply == HOST_UNREACHABLE && dial.attempts == [] && plan == []
        else
          (ret.RequestConnecting? || ret.RequestWrite?) && plan == addrs.value && dial.attempts != []
      ensures io.Inbox() == old(io.Inbox()) && Answers(old(io.Outbox()), io.Outbox())
    {
      job := false;
      if addrs.None? || addrs.value == [] {
        Refuse(HOST_UNREACHABLE);
        hide StateOk;
        return RequestWrite;
      }
      ret := DialResolved(addrs.value);
      hide StateOk;
      return;
    }

    method DialResolved(addrs: seq<D.Addr>) returns (ret: State)
      requires Talking() && addrs != [] && var v := View();
        v.drained && !v.job && v.Requested() && v.replies == v.talk.Out() && v.dial.Idle()
      requires request.value.atyp == FQDN
      modifies this`client, this`origin, this`bound, this`plan, io`replies, io.wb, io.wb.data, dial
      ensures Talking() && StateOk(ret, View()) && (ret.RequestConnecting? || ret.RequestWrite?)
      ensures plan == addrs && dial.attempts != []
      ensures io.Inbox() == old(io.Inbox()) && Answers(old(io.Outbox()), io.Outbox())
    {
      ghost var d := dial.View();
      hide StateOk, Talking, Client.Inbox, Client.Outbox, D.Dial.Idle, D.Dial.Between;
      dial.rest := addrs;
      var picked := dial.PickNext();
      D.Picked(d, dial.View());
      ret := DialFirst(addrs);
      return;
    }

    /** request_connecting_on_write_ready. */
    method OnConnecting() returns (ret: State, ghost soError: Option<D.Errno>)
      requires Talking() && StateOk(RequestConnecting, View())
      modifies this`client, this`origin, this`bound, io`replies, io.wb, io.wb.data, dial
      ensures Talking() && StateOk(ret, View()) && (ret.RequestConnecting? || ret.RequestWrite?)
      ensures dial.View().Continues(old(dial.View()))
      ensures soError.None? ==> ret == RequestWrite && dial.reply == 0 && dial.attempts == old(dial.attempts)
      ensures soError.Some? ==>
        && |dial.errors| > |old(dial.errors)| && dial.errors[|old(dial.errors)|] == soError.value
        && (old(dial.rest) != [] ==> old(dial.attempts) < dial.attempts)
      ensures io.Inbox() == old(io.Inbox()) && Answers(old(io.Outbox()), io.Outbox())
    {
      assert var v := View(); v.drained && !v.job && v.Requested() && v.Dialing() && v.replies == v.talk.Out();
      hide StateOk;
      var st;
      st, soError := dial.OnWritable();
      ret := AfterDial(st);
      return;
    }

    /** request_write_on_write_ready. */
    method OnRequestWrite() returns (ret: State, ghost r: SendResult, ghost n: IoResult)
      requires Talking() && StateOk(RequestWrite, View())
      modifies io.cout`sent, io.cout`log, io.wb, io.wb.data
      ensures Talking() && Leaves(RequestWrite, ret, View())
      ensures Sent(old(io.Outbox()), n, r, io.Outbox()) && io.Inbox() == old(io.Inbox())
      ensures View() == old(View()).(sent := View().sent, drained := View().drained, client := client)
      ensures ret == WriteLeads(RequestWrite, r, old(View()))
    {
      ghost var v := View();
      assert v.dial.reply == dial.reply;
      hide StateOk, Arriving, Leaves, Sent, Talking, View, Matches, Client.Inbox, Client.Outbox;
      var st;
      st, n := Flush();
      r := st;
      if !st.Flushed? {
        ret := if st.Pending? then RequestWrite else State.Failed;
      } else {
        ret := if dial.reply == 0 then Copy else Finished;
      }
      WriteLeaves(RequestWrite, r, v, View());
      return;
    }

    ghost predicate Engine()
      reads stm
    {
      stm.Valid() && stm.initial == HelloRead && stm.arrives == HasArrival
    }

    /** Between events, once the engine has started and before the relay. */
    ghost predicate Settled(s: State)
      reads this, io, io.cin, io.cout, io.rb, io.rb.data, io.wb, io.wb.data, dial
    {
      Talking() && StateOk(s, View())
    }

    ghost predicate Valid()
      reads this, stm, RelayFootprint(), io, io.cin, io.cout, io.rb, io.rb.data, io.wb, io.wb.data, dial
    {
      && Engine()
      && if stm.current.None? then Talking() && Arriving(HelloRead, View())
         else if stm.current.value.Copy? then Relaying() && View().HandedOver()
         else Settled(stm.current.value)
    }

    /** The handler of the current state, for an event it handles. */
    method Handle(e: Event, table: UserTable) returns (ret: State, ghost did: Did)
      requires Talking() && StateOk(stm.State(), View()) && Handles(stm.State(), e) && table.Valid()
      requires !stm.State().Copy?
      modifies this, io, io.cin, io.cout, io.rb, io.rb.data, io.wb, io.wb.data, dial
      ensures Talking() && Leaves(stm.State(), ret, View())
      ensures Acted(stm.State(), e, old(Now(table)), old(View()), did, ret, Now(table))
    {
      hide StateOk, Leaves, Acted;
      var s := stm.State();
      if Reads(s) {
        ret, did := HandleRead(s, e, table);
      } else if Writes(s) {
        ret, did := HandleWrite(s, e, table);
      } else {
        ret, did := HandleOrigin(s, e, table);
      }
    }

    method HandleOrigin(s: State, e: Event, ghost table: UserTable) returns (ret: State, ghost did: Did)
      requires Talking() && StateOk(s, View()) && Handles(s, e) && !Reads(s) && !Writes(s) && !s.Copy?
      modifies this`job, this`client, this`origin, this`bound, this`plan, io`replies, io.wb, io.wb.data, dial
      ensures Talking() && Leaves(s, ret, View())
      ensures (did.Resumed? || did.Probed?) && Acted(s, e, old(Now(table)), old(View()), did, ret, Now(table))
    {
      Mirrored();
      hide StateOk, Talking, Client.Inbox, Client.Outbox;
      if s.RequestResolv? {
        ret := OnResolved(e.addrs);
        did := Resumed;
      } else {
        ghost var soError;
        ret, soError := OnConnecting();
        did := Probed(soError);
      }
      NoArrival(ret, View());
      Mirrored();
      return;
    }

    method HandleRead(s: State, ghost e: Event, table: UserTable) returns (ret: State, ghost did: Did)
      requires Talking() && StateOk(s, View()) && Reads(s) && table.Valid()
      modifies this, io, io.cin, io.rb, io.rb.data, io.wb, io.wb.data, dial
      ensures Talking() && Leaves(s, ret, View())
      ensures did.Read? && Acted(s, e, old(Now(table)), old(View()), did, ret, Now(table))
    {
      Mirrored();
      hide StateOk, Arriving, Leaves, Accounts, Talking, Routed, View, Received, Client.Inbox, Client.Outbox, ReadOf,
        CStr, Answers, Parser.FeedAll;
      ghost var x := io.Inbox();
      ghost var r, t;
      if s.HelloRead? {
        ret, r, t := OnHelloRead(table);
      } else if s.AuthRead? {
        ret, r, t := OnAuthRead(table);
      } else {
        ret, r, t := OnRequestRead();
      }
      Mirrored();
      ReceivedParsed(x, t, r, io.Inbox());
      did := Did.Read(t);
      return;
    }

    method HandleWrite(s: State, ghost e: Event, ghost table: UserTable) returns (ret: State, ghost did: Did)
      requires Talking() && StateOk(s, View()) && Writes(s)
      modifies this`client, io.cout`sent, io.cout`log, io.wb, io.wb.data
      ensures Talking() && Leaves(s, ret, View())
      ensures did.Wrote? && Acted(s, e, old(Now(table)), old(View()), did, ret, Now(table))
    {
      Mirrored();
      hide StateOk, Arriving, Leaves, Talking, Client.Inbox, Client.Outbox;
      ghost var w, n;
      if s.HelloWrite? {
        ret, w, n := OnHelloWrite();
      } else if s.AuthWrite? {
        ret, w, n := OnAuthWrite();
      } else {
        ret, w, n := OnRequestWrite();
      }
      did := Wrote(n);
      return;
    }

    /** handle_iteration and handle_block_notifications look at the interests of the moment. */
    method IsArmed(e: Event) returns (armed: bool)
      ensures armed == Armed(View(), e)
    {
      match e {
        case Ready(onClient, readable) =>
          var i := if onClient then client else origin;
          armed := (onClient || dial.fd.Registered?) && if readable then i.read else i.write;
        case Resolved(_) => armed := job;
      }
    }

    /** The arrival callback of the state just entered. */
    method Arrival(s: State)
      requires Talking() && stm.Due(true) && stm.current == Some(s) && HasArrival(s) && !s.Copy? &&
        Arriving(s, View())
      modifies this, stm`arrived, io`parser
      ensures stm.Valid() && Talking() && View() == Arrived(s, old(View())) && StateOk(s, View())
    {
      stm.Arrived();
      ArriveKeeps(s, View());
      Arrive(s);
    }

    /** handle_first. */
    method First(ghost e: Event, ghost table: UserTable)
      requires Engine() && Talking() && Armed(View(), e)
      requires if stm.current.None? then Arriving(HelloRead, View()) else StateOk(stm.current.value, View())
      modifies this, stm, io`parser
      ensures Engine() && stm.current == Some(old(stm.State())) && Settled(stm.State()) && Armed(View(), e)
      ensures View() == old(Now(table)).Begun() && io.Inbox() == old(io.Inbox()).(parser := View().parser)
    {
      var due := stm.HandleFirst();
      if due {
        Arrival(HelloRead);
      }
    }

    /** The engine finds the callback for the event and runs it. */
    method Run(e: Event, table: UserTable) returns (ret: State, ghost did: Did)
      requires Settled(stm.State()) && table.Valid() && Armed(View(), e)
      requires !stm.State().Copy? && !stm.State().Finished? && !stm.State().Failed?
      modifies this, io, io.cin, io.cout, io.rb, io.rb.data, io.wb, io.wb.data, dial
      ensures Talking() && Leaves(stm.State(), ret, View())
      ensures Acted(stm.State(), e, old(Now(table)), old(View()), did, ret, Now(table))
    {
      ArmedIsHandled(stm.State(), View(), e);
      ret, did := Handle(e, table);
    }

    /** jump, up to the arrival at COPY. */
    method Next(ret: State)
      requires Talking() && Engine() && stm.current.Some? && !stm.State().Copy? && Leaves(stm.State(), ret, View())
      modifies this, stm, io`parser
      ensures stm.current == Some(ret) && stm.initial == HelloRead && stm.arrives == HasArrival
      ensures Settled(ret) && if ret.Copy? then stm.Due(true) else stm.Valid()
      ensures View() == Entered(old(stm.State()), ret, old(View()))
      ensures io.Inbox() == old(io.Inbox()).(parser := View().parser)
    {
      hide StateOk, Arriving, Leaves, Arrived;
      LeavesEnters(stm.State(), ret, View());
      var due := stm.Jump(ret);
      if due && !ret.Copy? {
        Arrival(ret);
      }
      return;
    }

    /** An event up to the jump. */
    method Respond(e: Event, table: UserTable) returns (ret: State, ghost did: Did)
      requires Valid() && table.Valid() && Armed(View(), e)
      requires !stm.State().Copy? && !stm.State().Finished? && !stm.State().Failed?
      modifies this, stm, io, io.cin, io.cout, io.rb, io.rb.data, io.wb, io.wb.data, dial
      ensures Engine() && Talking() && stm.current == Some(old(stm.State())) && Leaves(stm.State(), ret, View())
      ensures Acted(stm.State(), e, old(Now(table)), old(Now(table)).Begun(), did, ret, Now(table))
    {
      hide StateOk, Arriving, Leaves, Arrived, Acted, View, Client.Inbox, Client.Outbox;
      ghost var a := Now(table);
      First(e, table);
      ghost var v, seen := View(), Now(table);
      ret, did := Run(e, table);
      ActedFrom(e, a, seen, v, did, ret, Now(table));
      return;
    }

    /** stm_handler_read, stm_handler_write and stm_handler_block before the relay. */
    method OnEvent(e: Event, table: UserTable) returns (ret: State, ghost did: Did)
      requires Valid() && table.Valid() && Armed(View(), e)
      requires !stm.State().Copy? && !stm.State().Finished? && !stm.State().Failed?
      modifies this, stm, io, io.cin, io.cout, io.rb, io.rb.data, io.wb, io.wb.data, dial
      ensures stm.current == Some(ret) && stm.initial == HelloRead && stm.arrives == HasArrival
      ensures Settled(ret) && if ret.Copy? then stm.Due(true) else stm.Valid()
      ensures Turned(e, did, old(Now(table)), Now(table))
    {
      hide StateOk, Arriving, Leaves, Entered, Acted, Turned, View, Client.Inbox, Client.Outbox;
      ghost var a := Now(table);
      ret, did := Respond(e, table);
      ghost var b := Now(table);
      Mirrored();
      Next(ret);
      ActedEnters(e, did, a, b, Now(table));
      return;
    }

    lemma Mirrored()
      ensures View().parser == io.Inbox().parser && View().consumed == io.Inbox().consumed
      ensures View().sent == io.Outbox().sent && View().drained == io.Outbox().empty && View().sockname == sockname
    {
    }

    lemma Ordered()
      requires Talking()
      ensures View().SendsInOrder()
    {
    }

    lemma ValidScene(table: UserTable)
      requires Valid() && !stm.State().Copy?
      ensures SceneOk(Now(table))
    {
    }

    lemma ValidRelays()
      requires Valid() && relay != null
      ensures Relaying() && View().HandedOver()
    {
    }

    /** The arrival at COPY. */
    method EnterCopy(ghost table: UserTable)
      requires Settled(Copy) && stm.Due(true) && stm.current == Some(Copy)
      modifies this`relay, this`originStream, stm`arrived
      ensures stm.Valid() && Relaying() && View().HandedOver() && Now(table) == old(Now(table))
      ensures fresh({relay, relay.up, relay.down, relay.up.sink, relay.down.src})
    {
      assert Talking() && View().drained && View().HandedOver();
      hide StateOk, Talking, Relaying, Client.Inbox, Client.Outbox, Snap.HandedOver;
      stm.Arrived();
      ArriveCopy();
      return;
    }

    /** The same, with the arrival at COPY. */
    method Deliver(e: Event, table: UserTable) returns (ret: State, ghost did: Did)
      requires Valid() && table.Valid() && Armed(View(), e)
      requires !stm.State().Copy? && !stm.State().Finished? && !stm.State().Failed?
      modifies this, stm, io, io.cin, io.cout, io.rb, io.rb.data, io.wb, io.wb.data, dial
      ensures Valid() && stm.current == Some(ret)
      ensures ret.Copy? <==> relay != null
      ensures relay != null ==> fresh({relay, relay.up, relay.down, relay.up.sink, relay.down.src})
      ensures Turned(e, did, old(Now(table)), Now(table)) && SceneOk(Now(table))
    {
      hide StateOk, Arriving, Turned;
      ret, did := OnEvent(e, table);
      ghost var b := Now(table);
      Ordered();
      assert SceneOk(b);
      if ret.Copy? {
        EnterCopy(table);
      }
      assert Now(table) == b;
    }
  }
}
