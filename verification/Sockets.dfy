/**
  The two halves of a connected socket, as the system calls see them.  Every result the system
  may give is possible: any amount of data up to what is there, end of stream, EAGAIN, failure.
*/
module Sockets {
  import opened ByteBuffer

  /** What the selector watches a descriptor for. */
  datatype Interest = Interest(read: bool, write: bool)

  const NOOP := Interest(false, false)
  const READ := Interest(true, false)
  const WRITE := Interest(false, true)

  datatype IoResult = Moved(n: nat) | Eof | WouldBlock | Failed
  {
    /** How many bytes went over. */
    function Count(): nat { if Moved? then n else 0 }
  }

  /** The receiving half.  `unread` is all the peer has yet to deliver before its end of stream. */
  class InPort {
    var unread: seq<byte>
    var shutRd: bool
    /** What the system has answered so far. */
    ghost var log: seq<IoResult>

    constructor (stream: seq<byte>)
      ensures unread == stream && !shutRd && log == []
    {
      unread, shutRd, log := stream, false, [];
    }

    /** recv(fd, b->write, space, 0). */
    method Recv(b: Buffer) returns (r: IoResult)
      requires b.Valid() && b.CanWrite()
      modifies this`unread, this`log, b.data
      ensures log == old(log) + [r]
      ensures r.Moved? ==> 0 < r.n <= b.limit - b.write && r.n <= |old(unread)|
      ensures r.Moved? ==> unread == old(unread)[r.n..] && b.data[b.write..b.write + r.n] == old(unread)[..r.n]
      ensures !r.Moved? ==> unread == old(unread)
      ensures r.Eof? ==> unread == []
      ensures b.data[..b.write] == old(b.data[..b.write])
    {
      var space := b.limit - b.write;
      var n: int :| -1 <= n <= space && n <= |unread| && (n == 0 ==> unread == []);
      if n > 0 {
        var start := b.write;
        forall i | start <= i < start + n {
          b.data[i] := unread[i - start];
        }
        assert forall k :: 0 <= k < n ==> b.data[start + k] == unread[k];
        assert b.data[start..start + n] == unread[..n];
        unread := unread[n..];
        r := Moved(n);
      } else if n == 0 {
        r := Eof;
      } else {
        var again := *;
        r := if again then WouldBlock else Failed;
      }
      log := log + [r];
    }

    /** shutdown(fd, SHUT_RD). */
    method ShutRd()
      modifies this`shutRd
      ensures shutRd
    {
      shutRd := true;
    }
  }

  /** recv into the free space, and buffer_write_adv by what came. */
  method RecvInto(p: InPort, b: Buffer) returns (r: IoResult)
    requires b.Valid() && b.CanWrite()
    modifies p`unread, p`log, b, b.data
    ensures b.Valid() && p.log == old(p.log) + [r]
    ensures r.Moved? ==> 0 < r.n <= |old(p.unread)| && b.write == old(b.write) + r.n
    ensures r.Moved? ==> p.unread == old(p.unread)[r.n..] && b.Contents() == old(b.Contents()) + old(p.unread)[..r.n]
    ensures !r.Moved? ==> p.unread == old(p.unread) && b.Contents() == old(b.Contents())
    ensures r.Eof? ==> p.unread == []
  {
    ghost var held := b.Contents();
    r := p.Recv(b);
    assert b.Contents() == held;
    if r.Moved? {
      b.WriteAdv(r.n);
    }
  }

  /** The sending half: what the system has accepted, and how often SHUT_WR was issued. */
  class OutPort {
    var sent: seq<byte>
    var shutWr: nat
    ghost var log: seq<IoResult>

    constructor ()
      ensures sent == [] && shutWr == 0 && log == []
    {
      sent, shutWr, log := [], 0, [];
    }

    /** send(fd, b->read, count, MSG_NOSIGNAL); the caller advances the buffer. */
    method Send(b: Buffer) returns (r: IoResult)
      requires b.Valid()
      modifies this`sent, this`log
      ensures !r.Eof? && log == old(log) + [r]
      ensures r.Moved? ==> r.n <= b.write - b.read && sent == old(sent) + b.Contents()[..r.n]
      ensures !r.Moved? ==> sent == old(sent)
    {
      var n: int :| -1 <= n <= b.write - b.read;
      if n >= 0 {
        assert b.data[b.read..b.read + n] == b.Contents()[..n];
        sent := sent + b.data[b.read..b.read + n];
        r := Moved(n);
      } else {
        var again := *;
        r := if again then WouldBlock else Failed;
      }
      log := log + [r];
    }

    /** shutdown(fd, SHUT_WR). */
    method ShutWr()
      modifies this`shutWr
      ensures shutWr == old(shutWr) + 1
    {
      shutWr := shutWr + 1;
    }
  }
}
