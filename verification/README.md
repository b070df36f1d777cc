# A verified model of the SOCKS5 proxy and its MNG/1 administration channel

The proxy is a single-threaded event loop with resolver threads beside it. The project models its
five cores and proves what they promise, for every schedule, every segmentation of what is
received, every partial send and every answer of the operating system.

* **DNS jobs** (`DnsModel`, `DnsInvariant`, `DnsSteps`, `DnsLoop`, `DnsConns`, `DnsTheorems`,
  `DnsDelivery`). The
  loop and any number of resolver threads are one interleaved step system: program counters, two
  mutexes, the notification list, the pending signal, the retry flag, the reference counts, the
  pool, and the shutdown. An inductive invariant gives safety over all runs: no failed assertion,
  no lost or doubled completion, no lost wake-up, no deadlock, no use after free; and from every
  state before the shutdown each active job can still be delivered.
* **Relay** (`ByteBuffer`, `Sockets`, `Relay`). The buffer is an array with two indices, compacted
  in place; `recv` and `send` give any result they may give. Each direction conserves its stream,
  closes its sink exactly when it should, never stalls, and finishes.
* **Connection** (`Stm`, `HelloMachine`, `CredsMachine`, `RequestMachine`, `Parsers`, `Client`,
  `Dialer`, `Users`, `Connection`, `Proxy`). The state table, the engine, every handler, and the
  attempts to reach the origin, up to and through the relay.
* **MNG/1** (`CommandMachine`, `AccessLog`, `Replies`, `ReplyWriter`, `MngClient`, `MngServer`,
  `MngSession`, `MngRun`, `MngShutdown`). Both codecs, the session, the commands' effect on the
  server, the shutdown of all sessions, and the ring of log entries.
* **Tables** (`Selector`, `Registry`, `StrCmpI`). The descriptor table with its derived sets and
  maximum, the doubly linked lists with their pools, and the table-driven comparison.

Code that changes a structure in place is a class or a method over arrays, proved against a
function or a relation on values; the parsers, the reply format, the user table and the commands
have such specifications, and the theorems about them are lemmas. What such a function decides (a
method, a status, an account, a code, a field of a message) is stated once more without it, in
literal bytes and in terms of slots, accounts and errors: `HandshakeAnswered`, `CommandAnswered`,
`GreetingAnswered`, `CredentialsAnswered`, `FailureReply`, `ConversationEnds`, the `Reads` lemmas,
`Sweep`. The interleaved protocol is a step function on states.

What the operating system answers is arbitrary, and every socket keeps a log of it. A handler's
contract says which answers it got and where each of them leads, so a handler that makes no call,
or ignores an answer, does not meet it. The runs (`Relay.Serve`, `Proxy.Serve`, `MngRun.Serve`,
`MngShutdown.DrainAll`) return the trail of states they went through, each step of which is
related to its event by a predicate on values. Memory the allocator may refuse is a parameter.

Some exact conditions are worth knowing. When COPY is entered only reading is armed, so a byte left
over from before waits for some other event: nothing stalls at that moment exactly when both
buffers are empty (`Relay.Relay.constructor`, with `Relay.LeftoverStalls` as the counterexample).
And `selector_register` grows its table only for a descriptor beyond its size, so it looks inside
the table exactly when the descriptor is not equal to the size (`Selector.RegisterStaysInside`,
with `Selector.RegisterOutside` as the counterexample); the server's table of 1025 entries is never
affected (`Selector.ServerStaysInside`, `Selector.Run`). The same wait as at COPY exists during the
negotiation (`Connection.ArrivalWaits`, with `Connection.EarlyCredentialsWait` as the example).

## Model

| member | source | states |
|---|---|---|
| DnsTheorems.StepPreserves | src/server/states/request.c:280-451 | any action of the loop, a resolver thread, the administrator or the system that is possible in a state satisfying the invariant violates no assertion, touches no freed struct, and leaves a state satisfying it |
| DnsTheorems.RunInvariant | src/server/states/request.c:280-451 | every state of every run from the empty server satisfies the invariant |
| DnsTheorems.RunsAreSafe | src/server/socks5.c:141-174 | whatever can happen at the end of a run is safe: references positive when dropped, REQUEST_RESOLV for a block event, jobs removed only if listed |
| DnsTheorems.OneToken | src/server/states/request.c:280-407 | before shutdown each active job has exactly one holder of its completion: a thread or the loop that owes the notification, the list, the retry flag, or the handler consuming it |
| DnsTheorems.NotificationsAreLive | src/server/states/request.c:352-361 | every queued notification names the registered client of an active, completed job, so the early return of the block handler is never taken |
| DnsTheorems.NoLostWakeUp | src/server/utils/selector.c:509-590 | while the loop is parked with notifications queued, the signal is pending or a thread that is about to send it can run |
| DnsTheorems.WaitsDescend | src/server/states/request.c:352-369 | every wait for a mutex or a join goes down a level, so the wait graph is acyclic in every state satisfying the invariant |
| DnsTheorems.BlockedByLive | src/server/states/request.c:352-369 | from whoever is blocked, a number of steps along the wait graph leads to a thread that can take a step, and a loop that blocks another is not waiting for an event |
| DnsTheorems.NoDeadlock | src/server/states/request.c:352-369 | in every state of every run each thread that has not ended, and the loop while the process lives, waits in a number of steps for a thread with an action that is enabled and safe |
| DnsTheorems.RestMeansDelivered | src/server/states/request.c:395-407 | when nothing moves but getaddrinfo, the notification list is empty and each job is still resolving or flagged for retry |
| DnsDelivery.CanStillBeDelivered | src/server/states/request.c:280-451 | from every reachable state before shutdown a finite schedule of enabled and safe actions, with memory to be had, brings an active job to its block handler, which goes on to connect with the result |
| DnsTheorems.ReferencesExact | src/server/socks5.c:141-174 | outside the release of a job, references equal the registered descriptors of client and origin plus one for the DNS job |
| DnsTheorems.ReclaimedOnce | src/server/socks5.c:149-174 | a struct that leaves the active list goes to the pool or to free, not both, and no thread, job or descriptor refers to it |
| DnsTheorems.ThreadKeepsStruct | src/server/socks5.c:141-174 | no step takes away the struct of an active job |
| DnsTheorems.TeardownFreesAll | src/server/server.c:221-243 | when the teardown is over no struct is active, pooled or allocated and no descriptor is registered |
| DnsSteps.WorkerPreserves | src/server/states/request.c:280-303 | a step of a resolver thread keeps the invariant |
| DnsSteps.JobStepPreserves | src/server/states/request.c:305-394 | a step of the loop on a job, arrival, block handler, retry or final wait, is safe and keeps the invariant |
| DnsSteps.RemoveJobExact | src/server/states/request.c:36-47 | removal takes exactly the given job off the list and keeps it free of duplicates |
| DnsConns.CloseEffect | src/server/socks5.c:189-212 | closing a connection without a job releases the struct exactly once, with its last descriptor |
| DnsConns.ConnectEffect | src/server/states/request.c:383-393 | the reference of a finished job is never the last one while its handler still uses the struct |
| ByteBuffer.Buffer.WriteAdv | src/server/utils/buffer.c:49-55 | the bytes stored past the write index are appended to the contents |
| ByteBuffer.Buffer.ReadAdv | src/server/utils/buffer.c:57-68 | the oldest bytes are dropped, and an empty buffer starts again at the beginning of its array |
| ByteBuffer.Buffer.Compact | src/server/utils/buffer.c:90-103 | the contents are moved to the start of the array unchanged |
| ByteBuffer.Buffer.WriteByte | src/server/utils/buffer.c:82-88 | a byte is appended, or dropped if and only if there is no room |
| Relay.Channel.Fill | src/server/states/relay.c:72-97 | the recv loop appends to the buffer exactly what came with the answers of the system, in order, until the buffer is full or an answer ends it, and sees the end of stream only when the source is exhausted |
| Relay.Channel.OnReadable | src/server/states/relay.c:65-131 | one direction, for whatever recv and send answer: what came is appended, one send follows if anything is pending, the end of stream closes the source, and SHUT_WR stays issued exactly if the source ended and the buffer is empty; it fails only if a call does |
| Relay.Channel.OnWritable | src/server/states/relay.c:132-157 | the same for a writable sink: what it takes is gone from the buffer, and the last byte of a closed source issues SHUT_WR |
| Relay.ReadStepKeeps | src/server/states/relay.c:65-131 | whatever the answers, a readable source loses, doubles or reorders nothing, and if no call fails the half-close stays exact |
| Relay.Relay.ComputeInterests | src/server/states/relay.c:21-42 | every unfinished direction waits for its source with room to spare or for its sink with bytes pending, and pending bytes always have their sink armed |
| Relay.Relay.constructor | src/server/states/relay.c:53-63 | on arrival at COPY nothing stalls if and only if both buffers are empty |
| Relay.LeftoverStalls | src/server/states/relay.c:61-62 | a direction with a byte left over and only reading armed does stall |
| Relay.Relay.OnReadReady | src/server/states/relay.c:65-131 | a COPY event moves one direction as the answers say and leaves the other alone; the relay goes on without a stall, or is done with both streams delivered, both buffers empty and each sink closed once, or fails because a call did |
| Relay.Relay.OnWriteReady | src/server/states/relay.c:132-157 | the same for write events |
| Relay.Serve | src/server/states/relay.c:65-157 | over any schedule every event does what its handler does and nothing else, an event that is not armed does nothing; at every point before the end both half-closes are exact and no interest is armed in vain, and after any handled event neither direction stalls; as many progressing events as 2 per unread byte, 1 per buffered byte and 1 per open source end the relay |
| Relay.KeepsFlowing | src/server/states/relay.c:21-42 | a run of the relay that does not stall at one point does not stall at any later one |
| Relay.RunConserves | src/server/states/relay.c:65-157 | at every point of such a run both directions hold exactly their streams: sent, then buffered, then unread |
| Stm.StateMachine.HandleFirst | src/server/utils/stm.c:25-33 | the first event enters the initial state and makes its arrival callback due; later ones enter nothing |
| Stm.StateMachine.Jump | src/server/utils/stm.c:35-50 | a jump to another state makes that state's arrival callback due exactly once, a jump to the same state makes none due |
| HelloMachine.HelloExact | src/server/states/hello.c:15-39 | the machine is done with a list of methods exactly on inputs that begin with its encoding by section 3 of RFC 1928 |
| HelloMachine.HelloReads | src/server/states/hello.c:15-39 | byte by byte: a greeting is whole if it begins with 5, a count and that many methods, which are those read |
| HelloMachine.HelloFails | src/server/states/hello.c:19-21 | a greeting is refused exactly for a first byte other than 5 |
| CredsMachine.CredsExact | src/server/states/auth.c:14-53 | the machine is done with a name and a password exactly on inputs that begin with their encoding by section 2 of RFC 1929 |
| CredsMachine.CredsReads | src/server/states/auth.c:14-53 | byte by byte: a message is whole if it begins with 1 and two fields behind their lengths, which are the name and the password read, in this order |
| CredsMachine.CredsFails | src/server/states/auth.c:17-19 | it is refused exactly for a first byte other than 1 |
| RequestMachine.RequestExact | src/server/states/request.c:163-211 | the machine is done with a request exactly on inputs that begin with its encoding by section 4 of RFC 1928 |
| RequestMachine.RequestReads | src/server/states/request.c:163-211 | byte by byte: version 5, the command, a zero, the type, an address of 4 bytes for type 1, of 16 for type 4, or behind its length for type 3, and two bytes of port |
| RequestMachine.RequestFails | src/server/states/request.c:163-211 | a request is malformed exactly for another version, a reserved byte that is not zero, another type, or an empty name, as soon as that byte is seen |
| CommandMachine.CommandExact | src/server/monitor.c:177-249 | the server is done with a command exactly on inputs that begin with what the client sends for it |
| CommandMachine.CommandReads | src/server/monitor.c:177-249 | the bytes 3, 4, 6 and 7 are the list, the counters, the log and the end of the session |
| CommandMachine.AddUserReads | src/server/monitor.c:177-249 | a 1 and two fields behind their lengths add the account of that name and password |
| CommandMachine.DelUserReads | src/server/monitor.c:177-249 | a 2 and a field behind its length delete the account of that name |
| CommandMachine.TimeoutReads | src/server/monitor.c:235-245 | a 5 and four bytes, the most significant first, set the timeout they spell |
| CommandMachine.CommandFails | src/server/monitor.c:177-205 | a message is no command exactly if its first byte is none of 1 to 7 |
| CommandMachine.U32Exact | src/server/monitor.c:240-245 | four bytes spell a 32-bit number whose encoding they are |
| ByteMachine.RunChunks | src/server/states/hello.c:65-68 | feeding in pieces is feeding the whole |
| ByteMachine.RunStopped | src/server/states/hello.c:65-68 | a machine that has stopped on the beginning of an input gives the same result on all of it, and what it recovered had been read |
| Parsers.HelloParser.Feed | src/server/states/hello.c:15-39 | the struct updated in place follows the machine |
| Parsers.CredsParser.Feed | src/server/states/auth.c:14-53 | the struct follows the machine; its 8-bit index stays in the 256-byte arrays at length 255, and finished fields end in NUL |
| Parsers.RequestParser.Feed | src/server/states/request.c:163-211 | the struct follows the machine within its arrays |
| Parsers.CommandParser.Feed | src/server/monitor.c:177-249 | the struct follows the machine within its arrays, and accumulates the timeout exactly |
| Client.Client.Recv | src/server/states/states_common.c:6-19 | bytes the client sent are parsed, buffered or still to come, in order; a full buffer reads nothing |
| Client.Client.ReadMessage | src/server/states/hello.c:53-76 | the parse loop stops at the end of a message with exactly its encoding consumed, or with the buffer empty |
| Client.Client.Send | src/server/states/states_common.c:21-35 | answers reach the client in order, and only an empty buffer counts as sent |
| Users.AddExact | src/server/socks5.c:351-371 | adding is refused if the name is taken, else if the table is full; otherwise exactly the one account is new and names stay distinct |
| Users.DelExact | src/server/socks5.c:373-384 | exactly the account of that name goes |
| Users.NamesExact | src/server/socks5.c:386-398 | the list has exactly the names in use, each once |
| Users.UserTable.AddUser | src/server/socks5.c:351-371 | the loops over the slots do what the table function says |
| Users.UserTable.DelUser | src/server/socks5.c:373-384 | the loop over the slots does what the table function says |
| Users.UserTable.ValidateUser | src/server/socks5.c:327-338 | true exactly for the name and password of an account |
| Dialer.Dialer.Connect | src/server/states/request.c:455-480 | attempts go through the remaining addresses in order, each once, with at most one socket open, each failure explained by what the system answered; the outcome is a pending registered origin exactly if the last answer was EINPROGRESS, a success exactly if it connected, or a failure with no address left |
| Dialer.Dialer.ConnectFail | src/server/states/request.c:482-495 | the failed socket is closed before the next address is tried, and the reply without one is the code of the failure at hand, from which the failure can be read back |
| Dialer.Dialer.OnWritable | src/server/states/request.c:497-520 | without a pending error the origin is reached; with one the attempt has failed for that reason, and the next address is tried if there is one |
| Dialer.Exhausted | src/server/states/request.c:482-495 | a dialer that ends in failure has tried the whole list in order, closed every socket, and replies 5, 3, 4, 6 or 1 exactly if the last attempt was refused, found no network, found no host, timed out, or failed otherwise; each error is the one the call reported |
| Dialer.Reached | src/server/states/request.c:455-520 | a dialer that ends in success has its last attempted address registered, no other socket open, and every earlier attempt failed |
| Connection.ArmedIsHandled | src/server/socks5.c:408-447 | in every state the invariant allows, COPY included, every event the selector can deliver has a callback, so the engine never aborts; no job is active in COPY |
| Connection.ArriveKeeps | src/server/utils/stm.c:44-48 | each arrival callback establishes its state's invariant from what the handlers leave behind |
| Connection.Connection.OnHelloRead | src/server/states/hello.c:53-89 | the answer to a complete greeting is 5 and a method: 2 exactly if it is offered, 0 exactly if it is offered, 2 is not and there are no accounts, and 255 otherwise |
| Connection.Connection.OnAuthRead | src/server/states/auth.c:65-97 | the answer to complete credentials is 1 and a status, 0 exactly if the user field and the password field, each up to its first NUL, are the name and the password of an account at that moment |
| Connection.Connection.BuildReply | src/server/states/request.c:107-145 | the reply of section 6 of RFC 1928, byte for byte, always fits |
| Connection.ReplyReads | src/server/states/request.c:107-145 | every reply is read back as its code and the bound address, of 4 bytes behind type 1 or of 16 behind type 4, and four zeros and port 0 without one |
| Connection.Connection.OnRequestRead | src/server/states/request.c:222-277 | a malformed request and an unsupported command get their replies, an address is tried at once, a name goes to the resolver |
| Connection.Connection.OnResolved | src/server/states/request.c:352-394 | a failed resolution is refused, otherwise the addresses are tried in the order given |
| Connection.Connection.OnEvent | src/server/utils/stm.c:53-87 | an event delivered before the relay finds its callback, which makes its one system call or ends the job; what was answered and parsed, and for a complete greeting or credentials the accounts in the table at that moment, decide the next state and the talk; what is received is what was held and parsed before and grows by the bytes of the answer, what was sent likewise; the request, the addresses and the attempts change only where they should, and a failed attempt goes on with the same list; its invariant holds and its arrival callback has run |
| Connection.AnswerDecides | src/server/states/states_common.c:6-35 | an end of stream or an error ends the connection, a call that would block leaves the state, and a write leads on exactly when all has gone out |
| Connection.ArrivalWaits | src/server/states/hello.c:91-107 | on arrival at a reading state during the negotiation something waits unread exactly if the read buffer is not empty |
| Connection.WaitsForMore | src/server/states/states_common.c:6-19 | what waits is parsed only by a readable event that brings more bytes; any other leaves it as it is, or the connection fails |
| Connection.EarlyCredentialsWait | src/server/states/hello.c:91-107 | a client that sends its credentials in one piece with its greeting does wait |
| Proxy.Converse | src/server/socks5.c:229-260 | over any schedule of events and of accounts added and deleted by the administrator, each event is handled if it is armed and changes nothing otherwise, only the administrator changes the accounts, every scene of the run satisfies the invariant of its state, and each follows from the one before by what the event's one system call answered |
| Proxy.JudgedByTable | src/server/states/auth.c:65-97 | in any scene of a run the accounts a client was judged by are those of the table in the earlier scene in which its greeting, or its credentials, became complete |
| Proxy.Entitled | src/server/states/auth.c:65-97 | in any scene of a run, a request is read only from a client that offered no authentication, and not the other method, in an earlier scene without accounts, or for which an account in use, in the scene in which it gave its credentials, had as name its user field and as password its password field, each up to the first NUL |
| Proxy.GreetingAnswered | src/server/states/hello.c:53-89 | a complete greeting is answered 5 2 exactly if it offers user and password, 5 0 exactly if it offers no authentication, not the other, and no slot of the table is in use in that scene, and 5 255 otherwise |
| Proxy.CredentialsAnswered | src/server/states/auth.c:65-97 | complete credentials are answered 1 0 if and only if an account in use in that scene has as name the user field and as password the password field, each up to its first NUL, and 1 1 otherwise; without NULs that is being one of the accounts |
| Proxy.ListGiven | src/server/states/request.c:222-394 | in any scene of a run in which an origin is tried, answered about or relayed to, the addresses there are to try are those the resolver gave in one earlier scene, or the address of the request completed there, or none; neither they nor the request have changed since |
| Proxy.FailureReply | src/server/states/request.c:352-495 | in any scene of a run that sends or has sent a failure reply, every address the resolver or the request gave was tried, in order and once, each attempt failed with the error the system gave, every socket is closed, and the ten bytes of the reply carry 5, 3, 4, 6 or 1 exactly if the last error was a refusal, no network, no host, a timeout or another; if no address was given they carry 1 for a malformed request, 7 for an unsupported command and 4 for a name without addresses |
| Proxy.SuccessReply | src/server/states/request.c:352-541 | in any scene of a run that sends a success reply or has reached COPY, the request was for a connection, the reply carries the bound address, the origin is the first of the addresses given that could be reached and is registered, every one before it failed, and no other socket is open |
| Proxy.ConversationEnds | src/server/states/request.c:535-548 | a conversation that ends in order ends from a writing state with all of its answers sent, and all it has sent is 5 255, or 5 2 1 1, or the answers that let the client in followed by a reply with a code other than 0 |
| Proxy.Relay | src/server/states/relay.c:65-157 | from COPY on, the client's stream is its messages and what goes to the origin, and what it receives is the answers followed by the origin's stream; a relay that is done has delivered all of it, and before that it is sound and does not stall once an event has been handled |
| Proxy.Serve | src/server/socks5.c:229-260 | the same end to end, from the first byte of a fresh connection, with the trail of the conversation, whose scenes satisfy the invariant, and of the relay |
| AccessLog.Log.Entry | src/server/access_log.c:42-68 | an entry, with its substitutes for what is missing, cut to 511 bytes and free of NULs, is added to all entries ever logged |
| AccessLog.LineReads | src/server/access_log.c:52-56 | a line is read back, word by word, as the time, the user or a dash if there is none, the destination or a dash, and the result or a question mark |
| AccessLog.Log.GetRecent | src/server/access_log.c:70-80 | asked for a hundred it gives the last hundred entries, oldest first; asked for fewer it gives the oldest of those |
| Replies.ValueBigEndian | src/client/client.c:65-92 | decoding an encoded number gives the number |
| Replies.BigEndianValue | src/server/monitor.c:255-276 | encoding a decoded number gives the bytes |
| Replies.UserListBytes | src/server/monitor.c:303-315 | a list of names is a 0, one byte of count and the names |
| Replies.EntriesBytes | src/server/monitor.c:334-347 | a list of lines is a 0, two bytes of count and the lines |
| Replies.ItemBytes | src/server/monitor.c:303-347 | a name follows one byte of length, a line two, the most significant first |
| Replies.ReplyBound | src/server/monitor.c:278-358 | no reply is longer than 51303 bytes, which fit the write buffer |
| Replies.ReplyBoundTight | src/server/monitor.c:334-347 | a full log of full lines is that long |
| ReplyWriter.WriteBig | src/server/monitor.c:255-276 | the shifting loop writes the big-endian bytes |
| ReplyWriter.WriteReply | src/server/monitor.c:278-358 | the builders write exactly the reply's bytes, dropping none |
| MngClient.EncodeHandshake | src/client/client.c:135-150 | for fields of at most 255 bytes the client sends the handshake the server's machine accepts |
| MngClient.ReadVerdict | src/client/client.c:155-175 | the two bytes that answer the handshake are accepted, refused, or found of another version exactly for the three answers the server gives |
| MngClient.EncodeAddUser | src/client/client.c:266-280 | likewise for ADD_USER; longer fields are cut to their length modulo 256 |
| MngClient.EncodeDelUser | src/client/client.c:304-316 | likewise for DEL_USER |
| MngClient.EncodeSetTimeout | src/client/client.c:336-347 | likewise for SET_TIMEOUT, for every 32-bit number |
| MngClient.ReadBig | src/client/client.c:65-92 | the decoding loop computes the value of its bytes without wrapping |
| MngClient.CmdUsers | src/client/client.c:229-264 | a list is read back if and only if it is what the server sent |
| MngClient.CmdStats | src/client/client.c:198-227 | the same for the counters |
| MngClient.StatsRead | src/client/client.c:198-227 | the counters are at bytes 1 to 8, 9 to 12, 13 to 20 and 21 to 28 of the answer, in their order |
| MngClient.CmdLog | src/client/client.c:362-403 | the same for log entries, and the cut at 511 never happens on what the server sends |
| MngServer.RepliesFit | src/server/monitor.c:278-358 | every command's reply is within the bounds of the format |
| MngServer.Server.ExecCommand | src/server/monitor.c:278-358 | ADD_USER answers 1 if the name is taken, 2 if not and no slot is free, and otherwise adds exactly the account of that name and that password and answers 0; DEL_USER takes exactly the account of that name and answers 0, or 1 if there was none; SET_TIMEOUT sets the timeout; the list holds the names in use once each, the log its last hundred lines, the counters are those of the server; these and CLOSE change nothing, and CLOSE alone closes |
| MngSession.CommandTaken | src/server/monitor.c:504-538 | however segmented, a command of a client that does not pipeline is over only when all of it has been read, and is the one that was sent |
| MngSession.CommandIsOne | src/client/client.c:266-360 | every command the client sends is one such message |
| MngSession.ArmedIsHandled | src/server/monitor.c:373-394 | whatever a session is armed for has a callback |
| MngSession.Session.OnAuthRead | src/server/monitor.c:408-458 | the read buffer is empty, so there is room; what the client presented is what it sent; it is authenticated exactly if the administrator's name and password are the fields it presented |
| MngSession.Session.OnCmdRead | src/server/monitor.c:504-543 | one exchange is recorded exactly when the message is complete; the server has then done what that command does to the accounts, the timeout, the log and the counters, and its whole answer is pending, or 3 and nothing done if the message is no command |
| MngSession.Session.OnEvent | src/server/monitor.c:584-606 | an event makes one system call, whose answer says how many bytes moved and which state follows; the session's invariant is kept, only a complete command of an authenticated administrator changes the server, and only CLOSE marks the session as closing |
| MngSession.Session.BeginShutdown | src/server/monitor.c:642-661 | a session survives exactly if it is writing an answer, which is then still pending; nothing else about it changes |
| MngShutdown.BeginAll | src/server/monitor.c:642-661 | of all sessions exactly those that are writing an answer survive, each owing exactly what it was told and had not sent |
| MngShutdown.DrainAll | src/server/monitor.c:642-661 | whatever order the survivors' write events come in, none reads again, each owes less by what the system took, one that fails is over, and one that ends in order has sent everything it was told |
| MngShutdown.DrainEnds | src/server/monitor.c:476-484 | bytes owed over all sessions are a measure: as many progressing events as there are bytes leave no session active |
| MngRun.Serve | src/server/monitor.c:398-569 | over any schedule, with other sessions, the counters and the log changing between events, every moment satisfies the session's invariant, and the k-th exchange answers the k-th complete message, for the command it spells and what the server was at that moment |
| MngRun.OutputStream | src/server/monitor.c:398-569 | at every moment of such a run, over or not, what was sent and is pending is the answer to the handshake followed by one complete answer of the abstract server per message that was over; a session that ends in order from a writing state has sent all of it |
| MngRun.HandshakeAnswered | src/server/monitor.c:431-458 | in any run the answer to a handshake is 1 255 exactly for another version, and 1 0 if and only if there is an administrator and both fields, each up to its first NUL, are his name and his password, and 1 1 otherwise; without NULs that is being the very handshake of the administrator |
| MngRun.OnlyTheAdmin | src/server/monitor.c:445-458 | in any run a session is authenticated, or has carried out a command, only after a moment at which a handshake with the administrator's name and password was complete and answered 1 0 |
| MngRun.CommandAnswered | src/server/monitor.c:278-358 | in any run a message that is over has done what the command it spells does, command by command, to the accounts, the timeout, the log and the counters of that moment, and is answered with the bytes for that; any other message has done nothing and is answered 3 |
| MngRun.AnswerDecides | src/server/monitor.c:408-569 | an error ends a session as failed, an end of stream in order, a call that would block leaves its state, and a write leads on exactly when all has gone out |
| MngRun.ClosesOnCommand | src/server/monitor.c:548-569 | in any run, a session whose answer is out ends in order if the last complete message was CLOSE, and goes on to read a command if it was not, each exactly then |
| MngRun.EveryMessageIsPolite | src/client/client.c:135-403 | every handshake and command the client sends, a handshake of another version and an unknown command byte are messages of a client that does not pipeline, and spell the command sent, or none |
| Selector.Pow2Above | src/server/utils/selector.c:173-188 | the capacity is based on the next power of two above the request |
| Selector.RegisterStaysInside | src/server/utils/selector.c:347-357 | the access of selector_register is inside the table if and only if the descriptor differs from its size |
| Selector.RegisterOutside | src/server/utils/selector.c:347-357 | a table of two entries and descriptor 2 |
| Selector.CallStaysInside | src/server/utils/selector.c:378-431 | no call leaves the table for a registered descriptor; for another, selector_set_interest and selector_unregister_fd stay inside exactly if it is below the size |
| Selector.ServerStaysInside | src/server/server.c:145 | the server's table has 1025 entries, one for every descriptor, and never grows |
| Selector.Selector.EnsureCapacity | src/server/utils/selector.c:245-287 | success gives room for the descriptor, keeps the old entries in place and leaves the new ones unused |
| Selector.Selector.Register | src/server/utils/selector.c:335-376 | a free descriptor gets its entry and nothing else changes; the sets and the maximum stay exact |
| Selector.Selector.SetInterest | src/server/utils/selector.c:414-431 | the interest of a registered descriptor changes and nothing else; the sets stay exact |
| Selector.Selector.Unregister | src/server/utils/selector.c:378-412 | the entry goes and nothing else changes; the sets and the maximum stay exact |
| Selector.Selector.ItemsMaxFd | src/server/utils/selector.c:210-222 | the largest registered descriptor, or 0 |
| Selector.Selector.Destroy | src/server/utils/selector.c:311-333 | every registered descriptor is unregistered, and the sets and the maximum end empty |
| Selector.Run | src/server/utils/selector.c:289-431 | from selector_new(1024), any sequence of operations keeps the table in place and equal to the map the operations define |
| Registry.Registry.ActiveAdd | src/server/socks5.c:43-53 | the node becomes the head of a list whose links stay exact in both directions |
| Registry.Registry.ActiveRemove | src/server/socks5.c:55-68 | exactly that node leaves the list, wherever it is, and the links stay exact |
| Registry.Registry.Take | src/server/socks5.c:103-116 | the head of the pool, or else fresh memory if the allocator has any, or nothing |
| Registry.Registry.Give | src/server/socks5.c:167-173 | back to the pool if it has room |
| Registry.Registry.Sweep | src/server/socks5.c:214-227 | every connection is visited once; one stays, in the old order, if and only if the timeout is 0, it waits for the resolver, or it was active less than the timeout ago; so none that is active now is closed |
| Registry.Registry.CloseAll | src/server/monitor.c:663-669 | every session is closed once |
| Registry.Registry.PoolDestroy | src/server/socks5.c:176-185 | every struct of the pool is freed, once, and no active one |
| Registry.BypassedIsLinked | src/server/socks5.c:55-68 | a list whose links pass a node by is the list without it |
| Registry.Admit | src/server/monitor.c:671-711 | sessions and pooled structs never exceed sixteen |
| StrCmpI.BothCases | src/server/utils/parser_utils.c:100-114 | the two transitions of a letter accept the two cases of one of the letters A to Z, or the character itself, and nothing else |
| StrCmpI.Parser.Feed | src/server/utils/parser.c:49-82 | the first matching transition gives the comparison's verdict on the input so far |
| StrCmpI.Parser.ClassInside | src/server/utils/parser.c:50-51 | the look at a character's class is inside the table if and only if the character is not 0xFF |
| StrCmpI.Compare | src/server/utils/parser_utils.c:74-137 | for any ASCII text the last event is the verdict on the whole input |
| StrCmpI.VerdictMeans | src/server/utils/parser_utils.c:46-73 | equal means as many characters, each the same or the other case of a letter A to Z, possibly equal a proper beginning of that, different anything else |
| StrCmpI.NeqAbsorbs | src/server/utils/parser_utils.c:121-126 | once different, always different |

## Left out

- Sockets, `getaddrinfo`, threads and signals themselves: their results are nondeterministic, a mutex is an atomic step, and a signal is a pending bit.
- Readiness bits left over from a closed descriptor: handlers rely on the interests of the moment only.
- Progress of a negotiation whose client fills the whole read buffer ahead of its turn: the read then fails with a stale errno, and either answer is possible in the model.
- Metrics other than the number of active connections: only additions.
- Time stamps, the text form of addresses and the log file: given to the model as bytes.
- Option handling, usage texts and version output: plumbing.
- Parsers.CredsParser.Feed: the union of the three parsers is not laid out in memory; the connection holds the state a parser struct stands for, and the classes show that the structs follow it.
- Users.UserTable.AddUser: names and passwords of more than 255 bytes, which no field of the protocol can carry, are not cut.
- MngRun.Serve: clients that send a command before the answer to the last one, which the protocol leaves undefined.
- StrCmpI.Compare: characters above 0x7F in the text, whose sign is the compiler's choice, and the input byte 0xFF, which the table of classes does not cover.
- Selector.Selector.Register: the case of a descriptor equal to the size of the table, in which the source reads past it, is excluded; `Selector.RegisterStaysInside` says exactly when that is.
- Selector.Selector.SetInterest: a descriptor in range but not below the size of a small table, which the source looks up outside it; `Selector.CallStaysInside` says exactly when.
- Selector.Selector.Unregister: the same.
- StrCmpI.Parser.Feed: the input byte 0xFF, for which the source reads past the 255 entries of its class table; `StrCmpI.Parser.ClassInside` says so.
- DnsTheorems.RunInvariant: fairness of the scheduler; what is proved is that something can always move, where the system comes to rest, and that every job can still be delivered.
