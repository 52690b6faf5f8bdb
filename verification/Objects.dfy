/** The heap objects of the server: `sock_t` and `tunnel_t`, and the handshake handlers that work on
    them in place. */
module Objects {
  import opened Common
  import opened Protocol
  import Hand = Handshake
  import opened Handshake

  datatype SockState = SockConnecting | SockConnected | SockHalfclosed | SockClosed

  datatype Status = TunnIdle | TunnRun | TunnFree | TmptunWait | TmptunAlive | TmptunFree | TmptunClose

  /** A `sock_t` as a value.  `pollIn` and `pollOut` are its epoll interest. */
  datatype SockData = SockData(ispriv: bool, state: SockState, rbuf: seq<byte>, wbuf: seq<byte>,
                               tunnel: Tunnel, pollIn: bool, pollOut: bool)

  /** A `tunnel_t` as a value. */
  datatype TunnelData = TunnelData(priv: Sock?, remote: Sock?, hs: Hs, status: Status)

  class Sock {
    const ispriv: bool
    var state: SockState
    var readBuff: seq<byte>   // the contents of a `buff_t`
    var writeBuff: seq<byte>
    var tunnel: Tunnel
    var pollIn: bool
    var pollOut: bool

    function Data(): SockData
      reads this
    {
      SockData(ispriv, state, readBuff, writeBuff, tunnel, pollIn, pollOut)
    }

    /** `sock_create` and the `epoll_add` that follows it. */
    constructor (ispriv: bool, tunnel: Tunnel)
      ensures Data() == SockData(ispriv, SockConnected, [], [], tunnel, true, false)
    {
      this.ispriv, this.tunnel := ispriv, tunnel;
      state, readBuff, writeBuff := SockConnected, [], [];
      pollIn, pollOut := true, false;
    }

    /** `buff_read` on the read buffer. */
    method BuffRead(size: nat) returns (dst: seq<byte>)
      requires size <= |readBuff|
      modifies this`readBuff
      ensures dst == old(readBuff)[..size] && readBuff == old(readBuff)[size..]
    {
      dst, readBuff := readBuff[..size], readBuff[size..];
    }

    method EpollModify(writable: bool, readable: bool)
      modifies this`pollIn, this`pollOut
      ensures pollOut == writable && pollIn == readable
    {
      pollOut, pollIn := writable, readable;
    }
  }

  class Tunnel {
    var privSock: Sock?
    var remoteSock: Sock?
    var state: State
    var op: OpenFields
    var ap: AuthFields
    var rp: RequestFields
    var readCount: nat
    var status: Status

    function Fields(): Hs
      reads this
    {
      Hs(state, op, ap, rp, readCount)
    }

    function Data(): TunnelData
      reads this
    {
      TunnelData(privSock, remoteSock, Fields(), status)
    }

    /** `malloc` and `memset`, then the state and status the caller gives it. */
    constructor (state: State, status: Status)
      ensures Data() == TunnelData(null, null, ZERO_HS.(state := state), status)
    {
      privSock, remoteSock := null, null;
      this.state, op, ap, rp, readCount := state, ZERO_HS.op, ZERO_HS.ap, ZERO_HS.rp, 0;
      this.status := status;
    }

    /** What a handshake handler leaves behind: the outcome `o` of its specification. */
    twostate predicate Leaves(o: Out, rc: int)
      reads this, privSock
    {
      && privSock != null && privSock == old(privSock) && remoteSock == old(remoteSock)
      && Fields() == o.h
      && privSock.readBuff == o.buf
      && privSock.writeBuff == old(privSock.writeBuff) + o.reply
      && privSock.pollOut == (o.reply != [] || old(privSock.pollOut))
      && privSock.pollIn == (o.reply != [] || old(privSock.pollIn))
      && rc == (match o.verdict case Proceed => 0 case Reject => -1 case Abort => 1)
    }

    /** `tunnel_write_client`; allocation succeeds. */
    method WriteClient(src: seq<byte>)
      requires privSock != null
      modifies privSock`writeBuff, privSock`pollIn, privSock`pollOut
      ensures privSock.writeBuff == old(privSock.writeBuff) + src
      ensures privSock.pollIn && privSock.pollOut
    {
      privSock.writeBuff := privSock.writeBuff + src;
      privSock.EpollModify(true, true);
    }

    /** `tunnel_open_handle`. */
    method OpenHandle(conf: Config) returns (rc: int)
      requires privSock != null && Hand.OpenHandle(conf, Fields(), privSock.readBuff).verdict != Abort
      modifies this`state, this`op, this`readCount
      modifies privSock`readBuff, privSock`writeBuff, privSock`pollIn, privSock`pollOut
      ensures Leaves(Hand.OpenHandle(conf, old(Fields()), old(privSock.readBuff)), rc)
    {
      var atHeader := readCount == 0;
      if !atHeader && readCount != NHEADER {
        assert false;
      }
      if atHeader {
        if |privSock.readBuff| < NHEADER {
          return 0;
        }
        var ver := privSock.BuffRead(1);
        op := op.(ver := ver[0]);
        if op.ver != VERSION {
          return -1;
        }
        var nmethods := privSock.BuffRead(1);
        op := op.(nmethods := nmethods[0]);
        readCount := readCount + NHEADER;
        assert privSock.readBuff == old(privSock.readBuff)[NHEADER..];
      }
      if |privSock.readBuff| < op.nmethods as int {
        return 0;
      }
      var methods := privSock.BuffRead(op.nmethods);
      op := op.(methods := Blit(op.methods, methods));
      state := if conf.Auth() then AuthState else RequestState;
      readCount := 0;
      WriteClient([VERSION, if conf.Auth() then 0x02 else 0x00]);
      return 0;
    }

    // `tunnel_auth_handle`: one method a label, falling through by a call.

    method AuthHandle(conf: Config) returns (rc: int)
      requires privSock != null && Hand.AuthHandle(conf, Fields(), privSock.readBuff).verdict != Abort
      modifies this`state, this`ap, this`readCount
      modifies privSock`readBuff, privSock`writeBuff, privSock`pollIn, privSock`pollOut
      ensures Leaves(Hand.AuthHandle(conf, old(Fields()), old(privSock.readBuff)), rc)
    {
      if readCount == 0 {
        rc := AuthHeader(conf);
      } else if readCount == NHEADER {
        rc := AuthUname(conf);
      } else if readCount == NHEADER + ap.ulen as int {
        rc := AuthPlen(conf);
      } else if readCount == NHEADER + ap.ulen as int + 1 {
        rc := AuthPasswd(conf);
      } else {
        assert false;
      }
    }

    method AuthHeader(conf: Config) returns (rc: int)
      requires privSock != null
      modifies this`state, this`ap, this`readCount
      modifies privSock`readBuff, privSock`writeBuff, privSock`pollIn, privSock`pollOut
      ensures Leaves(Hand.AuthHeader(conf, old(Fields()), old(privSock.readBuff)), rc)
    {
      if |privSock.readBuff| < NHEADER {
        return 0;
      }
      var ver := privSock.BuffRead(1);
      var ulen := privSock.BuffRead(1);
      ap := ap.(ver := ver[0], ulen := ulen[0]);
      assert privSock.readBuff == old(privSock.readBuff)[NHEADER..];
      if ap.ulen > MAX_UNAME_LEN {
        return -1;
      }
      readCount := readCount + NHEADER;
      rc := AuthUname(conf);
    }

    method AuthUname(conf: Config) returns (rc: int)
      requires privSock != null
      modifies this`state, this`ap, this`readCount
      modifies privSock`readBuff, privSock`writeBuff, privSock`pollIn, privSock`pollOut
      ensures Leaves(Hand.AuthUname(conf, old(Fields()), old(privSock.readBuff)), rc)
    {
      if |privSock.readBuff| < ap.ulen as int {
        return 0;
      }
      var uname := privSock.BuffRead(ap.ulen);
      ap := ap.(uname := Blit(ap.uname, uname));
      readCount := readCount + ap.ulen as int;
      rc := AuthPlen(conf);
    }

    method AuthPlen(conf: Config) returns (rc: int)
      requires privSock != null
      modifies this`state, this`ap, this`readCount
      modifies privSock`readBuff, privSock`writeBuff, privSock`pollIn, privSock`pollOut
      ensures Leaves(Hand.AuthPlen(conf, old(Fields()), old(privSock.readBuff)), rc)
    {
      if |privSock.readBuff| < 1 {
        return 0;
      }
      var plen := privSock.BuffRead(1);
      ap := ap.(plen := plen[0]);
      if ap.plen > MAX_PASSWD_LEN {
        return -1;
      }
      readCount := readCount + 1;
      rc := AuthPasswd(conf);
    }

    method AuthPasswd(conf: Config) returns (rc: int)
      requires privSock != null
      modifies this`state, this`ap, this`readCount
      modifies privSock`readBuff, privSock`writeBuff, privSock`pollIn, privSock`pollOut
      ensures Leaves(Hand.AuthPasswd(conf, old(Fields()), old(privSock.readBuff)), rc)
    {
      if |privSock.readBuff| < ap.plen as int {
        return 0;
      }
      var passwd := privSock.BuffRead(ap.plen);
      ap := ap.(passwd := Blit(ap.passwd, passwd));
      if CString(ap.uname) != conf.username || CString(ap.passwd) != conf.passwd {
        return -1;
      }
      WriteClient([ap.ver, 0x00]);
      state := RequestState;
      readCount := 0;
      return 0;
    }

    /** `tunnel_notify_connected`: two writes. */
    method NotifyConnected(conf: Config)
      requires privSock != null
      modifies privSock`writeBuff, privSock`pollIn, privSock`pollOut
      ensures privSock.writeBuff == old(privSock.writeBuff) + Hand.NotifyConnected(conf)
      ensures privSock.pollIn && privSock.pollOut
    {
      var head := [VERSION, CMD_CONNECT, 0x00, ATYP_DOMAIN, |conf.host|] + conf.host;
      WriteClient(head);
      WriteClient(PortBytes(conf.port));
      assert old(privSock.writeBuff) + head + PortBytes(conf.port)
          == old(privSock.writeBuff) + (head + PortBytes(conf.port));
    }

    // `tunnel_request_handle`; success also makes the tunnel available.

    method RequestHandle(conf: Config) returns (rc: int)
      requires privSock != null && state == RequestState
      requires Hand.RequestHandle(Fields(), privSock.readBuff, Hand.NotifyConnected(conf)).verdict != Abort
      modifies this`state, this`rp, this`readCount, this`status
      modifies privSock`readBuff, privSock`writeBuff, privSock`pollIn, privSock`pollOut
      ensures Leaves(Hand.RequestHandle(old(Fields()), old(privSock.readBuff), Hand.NotifyConnected(conf)), rc)
      ensures status == if state != old(state) then TunnIdle else old(status)
    {
      if readCount == 0 {
        rc := RequestHeader(conf);
      } else if readCount == NREQHEADER {
        rc := RequestAddr(conf);
      } else if readCount == NREQHEADER + 1 {
        rc := RequestTail(conf, rp.domainlen);
      } else {
        assert false;
      }
    }

    method RequestHeader(conf: Config) returns (rc: int)
      requires privSock != null && state == RequestState
      modifies this`state, this`rp, this`readCount, this`status
      modifies privSock`readBuff, privSock`writeBuff, privSock`pollIn, privSock`pollOut
      ensures Leaves(Hand.RequestHeader(old(Fields()), old(privSock.readBuff), Hand.NotifyConnected(conf)), rc)
      ensures status == if state != old(state) then TunnIdle else old(status)
    {
      if |privSock.readBuff| < NREQHEADER {
        return 0;
      }
      ghost var buf := privSock.readBuff;
      var ver := privSock.BuffRead(1);
      rp := rp.(ver := ver[0]);
      if rp.ver != VERSION {
        return -1;
      }
      var cmd := privSock.BuffRead(1);
      rp := rp.(cmd := cmd[0]);
      assert privSock.readBuff == buf[2..];
      if rp.cmd != CMD_CONNECT {
        return -1;
      }
      var rsv := privSock.BuffRead(1);
      var atyp := privSock.BuffRead(1);
      rp := rp.(rsv := rsv[0], atyp := atyp[0]);
      assert privSock.readBuff == buf[NREQHEADER..];
      readCount := readCount + NREQHEADER;
      rc := RequestAddr(conf);
    }

    method RequestAddr(conf: Config) returns (rc: int)
      requires privSock != null && state == RequestState
      modifies this`state, this`rp, this`readCount, this`status
      modifies privSock`readBuff, privSock`writeBuff, privSock`pollIn, privSock`pollOut
      ensures Leaves(Hand.RequestAddr(old(Fields()), old(privSock.readBuff), Hand.NotifyConnected(conf)), rc)
      ensures status == if state != old(state) then TunnIdle else old(status)
    {
      if rp.atyp == ATYP_IPV4 {
        rc := RequestTail(conf, NIPV4);
      } else if rp.atyp == ATYP_IPV6 {
        rc := RequestTail(conf, NIPV6);
      } else if rp.atyp == ATYP_DOMAIN {
        if |privSock.readBuff| < 1 {
          return 0;
        }
        var domainlen := privSock.BuffRead(1);
        rp := rp.(domainlen := domainlen[0]);
        readCount := readCount + 1;
        rc := RequestTail(conf, rp.domainlen);
      } else {
        return -1;
      }
    }

    method RequestTail(conf: Config, n: nat) returns (rc: int)
      requires privSock != null && state == RequestState && n <= FIELD_LEN
      modifies this`state, this`rp, this`readCount, this`status
      modifies privSock`readBuff, privSock`writeBuff, privSock`pollIn, privSock`pollOut
      ensures Leaves(Hand.RequestTail(old(Fields()), old(privSock.readBuff), n, Hand.NotifyConnected(conf)), rc)
      ensures status == if state != old(state) then TunnIdle else old(status)
    {
      if |privSock.readBuff| < n + NPORT {
        return 0;
      }
      ghost var buf := privSock.readBuff;
      var addr := privSock.BuffRead(n);
      var port := privSock.BuffRead(NPORT);
      assert buf[n..][NPORT..] == buf[n + NPORT..];
      rp := rp.(addr := Blit(rp.addr, addr), port := PortAt(port, 0));
      readCount := 0;
      NotifyConnected(conf);
      state := ConnectedState;
      status := TunnIdle;
      return 0;
    }

    /** The handshake cases of `tunnel_read_handle`: one handler, chosen by the state. */
    method Handle(conf: Config) returns (rc: int)
      requires privSock != null && InHandshake(state)
      requires Hand.Handle(conf, Fields(), privSock.readBuff).verdict != Abort
      modifies this`state, this`op, this`ap, this`rp, this`readCount, this`status
      modifies privSock`readBuff, privSock`writeBuff, privSock`pollIn, privSock`pollOut
      ensures Leaves(Hand.Handle(conf, old(Fields()), old(privSock.readBuff)), rc)
      ensures status == if old(state) == RequestState && state != RequestState then TunnIdle else old(status)
    {
      match state {
        case OpenState => rc := OpenHandle(conf);
        case AuthState => rc := AuthHandle(conf);
        case RequestState => rc := RequestHandle(conf);
      }
    }
  }
}
