/**
  The parser structs of the server, updated byte by byte in place, and their refinement of the
  machines.  `View` is the machine state a struct stands for; `Feed` is the C function.
*/
module Parsers {
  import opened ByteBuffer
  import opened HelloMachine
  import opened CredsMachine
  import opened RequestMachine
  import opened CommandMachine

  datatype Position =
    | AtVersion | AtNMethods | AtMethods
    | AtUlen | AtUname | AtPlen | AtPasswd
    | AtCmd | AtRsv | AtAtyp | AtAddrLen | AtAddr | AtPort
    | AtTimeout
    | AtDone | AtError

  /** `x++` on a uint8_t. */
  function Inc(x: byte): byte { (x + 1) % 256 }

  class HelloParser {
    var state: Position
    var remaining: byte
    var hasUserpass: bool
    var hasNoauth: bool
    ghost var count: byte
    ghost var methods: seq<byte>

    ghost predicate Valid()
      reads this
    {
      && (state.AtVersion? || state.AtNMethods? || state.AtMethods? || state.AtDone? || state.AtError?)
      && hasNoauth == (0 in methods) && hasUserpass == (2 in methods)
      && (state.AtVersion? || state.AtNMethods? ==> methods == [])
      && (state.AtMethods? ==> remaining + |methods| == count && remaining > 0)
      && |methods| <= 255
    }

    ghost function View(): HelloState
      reads this
    {
      if state.AtVersion? then HelloVersion
      else if state.AtNMethods? then HelloNMethods
      else if state.AtMethods? then HelloMethods(count, methods)
      else if state.AtDone? then HelloDone(methods) else HelloError
    }

    /** hello_on_arrival. */
    method Arrive()
      modifies this
      ensures Valid() && View() == HelloVersion
    {
      state, remaining, hasUserpass, hasNoauth := AtVersion, 0, false, false;
      methods := [];
    }

    method Feed(b: byte)
      requires Valid()
      modifies this
      ensures Valid() && View() == HelloFeed(old(View()), b)
    {
      match state {
        case AtVersion => state := if b == 5 then AtNMethods else AtError;
        case AtNMethods =>
          remaining, count := b, b;
          state := if b == 0 then AtDone else AtMethods;
        case AtMethods =>
          if b == 0 {
            hasNoauth := true;
          } else if b == 2 {
            hasUserpass := true;
          }
          methods := methods + [b];
          remaining := remaining - 1;
          if remaining == 0 {
            state := AtDone;
          }
        case _ =>
      }
    }
  }

  /** The auth_parser of states/auth.h and the mng_auth_parser of monitor.h. */
  class CredsParser {
    var state: Position
    var ulen: byte
    var plen: byte
    var idx: byte
    const uname: array<byte>
    const passwd: array<byte>

    ghost predicate Valid()
      reads this, uname, passwd
    {
      && uname.Length == 256 && passwd.Length == 256 && uname != passwd
      && (state.AtVersion? || state.AtUlen? || state.AtUname? || state.AtPlen? || state.AtPasswd? ||
          state.AtDone? || state.AtError?)
      && (state.AtVersion? || state.AtUlen? ==> uname[0] == 0)
      && (state.AtUname? ==> idx < ulen)
      // from here on the field is a C string
      && (state.AtPlen? || state.AtPasswd? || state.AtDone? ==> uname[ulen] == 0)
      && (state.AtPasswd? ==> idx < plen)
      && (state.AtDone? ==> passwd[plen] == 0)
    }

    ghost function View(): CredsState
      reads this, uname, passwd
      requires Valid()
    {
      if state.AtVersion? then CredsVersion
      else if state.AtUlen? then CredsUlen
      else if state.AtUname? then CredsUname(ulen, uname[..idx])
      else if state.AtPlen? then CredsPlen(uname[..ulen])
      else if state.AtPasswd? then CredsPasswd(uname[..ulen], plen, passwd[..idx])
      else if state.AtDone? then CredsDone(Creds(uname[..ulen], passwd[..plen]))
      else CredsError
    }

    /** The zeroed struct, on arrival. */
    constructor ()
      ensures Valid() && View() == CredsVersion && fresh(uname) && fresh(passwd)
    {
      uname := new byte[256](_ => 0);
      passwd := new byte[256](_ => 0);
      state, ulen, plen, idx := AtVersion, 0, 0, 0;
    }

    method FeedName(b: byte)
      requires Valid() && state.AtUname?
      modifies this, uname
      ensures Valid() && View() == CredsFeed(old(View()), b)
    {
      uname[idx] := b;
      idx := Inc(idx);
      if idx == ulen {
        uname[idx] := 0;
        state := AtPlen;
      }
    }

    method FeedPass(b: byte)
      requires Valid() && state.AtPasswd?
      modifies this, passwd
      ensures Valid() && View() == CredsFeed(old(View()), b)
    {
      passwd[idx] := b;
      idx := Inc(idx);
      if idx == plen {
        passwd[idx] := 0;
        state := AtDone;
      }
    }

    method Feed(b: byte)
      requires Valid()
      modifies this, uname, passwd
      ensures Valid() && View() == CredsFeed(old(View()), b)
    {
      match state {
        case AtVersion => state := if b == 1 then AtUlen else AtError;
        case AtUlen =>
          ulen, idx := b, 0;
          state := if b == 0 then AtPlen else AtUname;
        case AtUname => FeedName(b);
        case AtPlen =>
          plen, idx := b, 0;
          if b == 0 {
            passwd[0] := 0;
            state := AtDone;
          } else {
            state := AtPasswd;
          }
        case AtPasswd => FeedPass(b);
        case _ =>
      }
    }
  }

  class RequestParser {
    var state: Position
    var cmd: byte
    var atyp: byte
    var addrLen: byte
    var idx: byte
    const addr: array<byte>
    const port: array<byte>

    ghost predicate Valid()
      reads this, addr, port
    {
      && addr.Length == 256 && port.Length == 2 && addr != port
      && (state.AtVersion? || state.AtCmd? || state.AtRsv? || state.AtAtyp? || state.AtAddrLen? || state.AtAddr? ||
          state.AtPort? || state.AtDone? || state.AtError?)
      && (state.AtAddrLen? ==> atyp == FQDN)
      && (state.AtAddr? ==> idx < addrLen)
      && (state.AtPort? ==> idx < 2)
      // getaddrinfo is given the name as a C string
      && ((state.AtPort? || state.AtDone?) && atyp == FQDN ==> addr[addrLen] == 0)
    }

    ghost function View(): RequestState
      reads this, addr, port
      requires Valid()
    {
      if state.AtVersion? then ReqVersion
      else if state.AtCmd? then ReqCmd
      else if state.AtRsv? then ReqRsv(cmd)
      else if state.AtAtyp? then ReqAtyp(cmd)
      else if state.AtAddrLen? then ReqLen(cmd)
      else if state.AtAddr? then ReqAddr(cmd, atyp, addrLen, addr[..idx])
      else if state.AtPort? then ReqPort(cmd, atyp, addr[..addrLen], port[..idx])
      else if state.AtDone? then ReqDone(Request(cmd, atyp, addr[..addrLen], port[..]))
      else ReqError
    }

    constructor ()
      ensures Valid() && View() == ReqVersion && fresh(addr) && fresh(port)
    {
      addr := new byte[256](_ => 0);
      port := new byte[2](_ => 0);
      state, cmd, atyp, addrLen, idx := AtVersion, 0, 0, 0, 0;
    }

    method FeedAddr(b: byte)
      requires Valid() && state.AtAddr?
      modifies this, addr
      ensures Valid() && View() == RequestFeed(old(View()), b)
    {
      addr[idx] := b;
      idx := Inc(idx);
      if idx == addrLen {
        if atyp == FQDN {
          addr[idx] := 0;
        }
        idx := 0;
        state := AtPort;
      }
    }

    method FeedPort(b: byte)
      requires Valid() && state.AtPort?
      modifies this, port
      ensures Valid() && View() == RequestFeed(old(View()), b)
    {
      port[idx] := b;
      idx := Inc(idx);
      if idx == 2 {
        state := AtDone;
      }
    }

    method Feed(b: byte)
      requires Valid()
      modifies this, addr, port
      ensures Valid() && View() == RequestFeed(old(View()), b)
    {
      match state {
        case AtVersion => state := if b == 5 then AtCmd else AtError;
        case AtCmd =>
          cmd := b;
          state := AtRsv;
        case AtRsv => state := if b == 0 then AtAtyp else AtError;
        case AtAtyp =>
          atyp, idx := b, 0;
          if b == IPV4 {
            addrLen, state := 4, AtAddr;
          } else if b == IPV6 {
            addrLen, state := 16, AtAddr;
          } else if b == FQDN {
            state := AtAddrLen;
          } else {
            state := AtError;
          }
        case AtAddrLen =>
          addrLen, idx := b, 0;
          state := if b == 0 then AtError else AtAddr;
        case AtAddr => FeedAddr(b);
        case AtPort => FeedPort(b);
        case _ =>
      }
    }
  }

  class CommandParser {
    var state: Position
    var cmd: byte
    var ulen: byte
    var plen: byte
    var idx: byte
    /** uint32_t, accumulated most significant byte first. */
    var timeout: nat
    const uname: array<byte>
    const passwd: array<byte>
    ghost var digits: seq<byte>

    ghost predicate Valid()
      reads this, uname, passwd
    {
      && uname.Length == 256 && passwd.Length == 256 && uname != passwd
      && (state.AtCmd? || state.AtUlen? || state.AtUname? || state.AtPlen? || state.AtPasswd? || state.AtTimeout? ||
          state.AtDone? || state.AtError?)
      && (state.AtUlen? || state.AtUname? ==> cmd == 1 || cmd == 2)
      && (state.AtUname? ==> idx < ulen)
      && (state.AtPlen? || state.AtPasswd? ==> cmd == 1)
      && (state.AtPasswd? ==> idx < plen)
      && (state.AtPlen? || state.AtPasswd? || (state.AtDone? && cmd <= 2) ==> uname[ulen] == 0)
      && (state.AtTimeout? ==>
            cmd == 5 && idx < 4 && |digits| == idx && timeout == Value(digits) && Small(timeout, idx))
      && (state.AtDone? ==> 1 <= cmd <= 7 && (cmd == 1 ==> passwd[plen] == 0) && (cmd == 5 ==> timeout < 0x1_0000_0000))
    }

    /** `n` bytes have been shifted into `v`. */
    predicate Small(v: nat, n: byte) {
      (n == 0 ==> v == 0) && (n <= 1 ==> v < 0x100) && (n <= 2 ==> v < 0x1_0000) && (n <= 3 ==> v < 0x100_0000)
    }

    ghost function View(): CommandState
      reads this, uname, passwd
      requires Valid()
    {
      if state.AtCmd? then CmdStart
      else if state.AtUlen? then CmdUlen(cmd == 1)
      else if state.AtUname? then CmdUname(cmd == 1, ulen, uname[..idx])
      else if state.AtPlen? then CmdPlen(uname[..ulen])
      else if state.AtPasswd? then CmdPasswd(uname[..ulen], plen, passwd[..idx])
      else if state.AtTimeout? then CmdTimeout(digits)
      else if state.AtDone? then CmdDone(Parsed())
      else CmdError
    }

    ghost function Parsed(): Command
      reads this, uname, passwd
      requires Valid() && state.AtDone?
    {
      if cmd == 1 then AddUser(uname[..ulen], passwd[..plen])
      else if cmd == 2 then DelUser(uname[..ulen])
      else if cmd == 3 then ListUsers
      else if cmd == 4 then GetStats
      else if cmd == 5 then SetTimeout(timeout)
      else if cmd == 6 then GetLog
      else CloseSession
    }

    constructor ()
      ensures Valid() && View() == CmdStart && fresh(uname) && fresh(passwd)
    {
      uname := new byte[256](_ => 0);
      passwd := new byte[256](_ => 0);
      state, cmd, ulen, plen, idx, timeout, digits := AtCmd, 0, 0, 0, 0, 0, [];
    }

    method FeedName(b: byte)
      requires Valid() && state.AtUname?
      modifies this, uname
      ensures Valid() && View() == CommandFeed(old(View()), b)
    {
      uname[idx] := b;
      idx := Inc(idx);
      if idx == ulen {
        uname[idx] := 0;
        assert uname[..ulen] == old(uname[..idx]) + [b];
        state := if cmd == 1 then AtPlen else AtDone;
      }
    }

    method FeedPass(b: byte)
      requires Valid() && state.AtPasswd?
      modifies this, passwd
      ensures Valid() && View() == CommandFeed(old(View()), b)
    {
      passwd[idx] := b;
      idx := Inc(idx);
      if idx == plen {
        passwd[idx] := 0;
        assert passwd[..plen] == old(passwd[..idx]) + [b];
        state := AtDone;
      }
    }

    method FeedTimeout(b: byte)
      requires Valid() && state.AtTimeout?
      modifies this
      ensures Valid() && View() == CommandFeed(old(View()), b)
    {
      timeout := (timeout * 256 + b) % 0x1_0000_0000;
      digits := digits + [b];
      assert digits[..|digits| - 1] == old(digits);
      idx := Inc(idx);
      if idx == 4 {
        state := AtDone;
      }
    }

    method FeedOpcode(b: byte)
      requires Valid() && state.AtCmd?
      modifies this
      ensures Valid() && View() == CommandFeed(old(View()), b)
    {
      cmd := b;
      if b == 1 || b == 2 {
        state := AtUlen;
      } else if b == 5 {
        timeout, idx, digits := 0, 0, [];
        state := AtTimeout;
      } else if b == 3 || b == 4 || b == 6 || b == 7 {
        state := AtDone;
      } else {
        state := AtError;
      }
    }

    method Feed(b: byte)
      requires Valid()
      modifies this, uname, passwd
      ensures Valid() && View() == CommandFeed(old(View()), b)
    {
      match state {
        case AtCmd => FeedOpcode(b);
        case AtUlen =>
          ulen, idx := b, 0;
          if b == 0 {
            uname[0] := 0;
            state := if cmd == 1 then AtPlen else AtDone;
          } else {
            state := AtUname;
          }
        case AtUname => FeedName(b);
        case AtPlen =>
          plen, idx := b, 0;
          if b == 0 {
            passwd[0] := 0;
            state := AtDone;
          } else {
            state := AtPasswd;
          }
        case AtPasswd => FeedPass(b);
        case AtTimeout => FeedTimeout(b);
        case _ =>
      }
    }
  }
}
