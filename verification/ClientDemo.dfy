/** The handshake side of `clientdemo.c` on the tunnel object, in place. */
module ClientDemo {
  import opened Common
  import opened Protocol
  import opened Handshake
  import opened Session
  import opened Objects
  import TwoParty

  /** The tunnel and its private socket as one side of the conversation. */
  function View(tunnel: Tunnel): Session
    requires tunnel.privSock != null
    reads tunnel, tunnel.privSock
  {
    Live(tunnel.Fields(), tunnel.privSock.readBuff, tunnel.privSock.writeBuff)
  }

  /** `tunnel_write_request`: two writes. */
  method WriteRequest(tunnel: Tunnel, c: TwoParty.Client)
    requires tunnel.privSock != null && c.Valid()
    modifies tunnel.privSock`writeBuff, tunnel.privSock`pollIn, tunnel.privSock`pollOut
    ensures tunnel.privSock.writeBuff == old(tunnel.privSock.writeBuff) + c.Request()
  {
    var head := [VERSION, CMD_CONNECT, 0x00, ATYP_DOMAIN, |c.name|] + c.name;
    tunnel.WriteClient(head);
    tunnel.WriteClient(PortBytes(c.port));
    assert old(tunnel.privSock.writeBuff) + head + PortBytes(c.port)
        == old(tunnel.privSock.writeBuff) + (head + PortBytes(c.port));
  }

  /** The greeting of `medSvr_init` on a new connection. */
  method SendGreeting(tunnel: Tunnel)
    requires tunnel.privSock != null && tunnel.Fields() == ZERO_HS
    requires tunnel.privSock.readBuff == [] && tunnel.privSock.writeBuff == []
    modifies tunnel.privSock`writeBuff, tunnel.privSock`pollIn, tunnel.privSock`pollOut
    ensures View(tunnel) == TwoParty.Begin(ZERO_HS).client
  {
    tunnel.WriteClient([0x05, 0x01, 0x00]);
  }

  /** What the dispatch makes of `s`, seen on the objects: 0 with the new session, or -1. */
  ghost predicate Follows(s: Session, tunnel: Tunnel, rc: int, c: TwoParty.Client)
    requires tunnel.privSock != null && c.Valid()
    reads tunnel, tunnel.privSock
  {
    match TwoParty.ClientWake(s, c.Request())
    case Live(_, _, _) => rc == 0 && View(tunnel) == TwoParty.ClientWake(s, c.Request())
    case Dead(_) => rc == -1
    case Aborted => false
  }

  /** `tunnel_open_handle`: the method reply, without a look at the method. */
  method OpenHandle(tunnel: Tunnel, c: TwoParty.Client) returns (rc: int)
    requires tunnel.privSock != null && c.Valid() && tunnel.state == OpenState && tunnel.readCount == 0
    modifies tunnel, tunnel.privSock
    ensures tunnel.privSock == old(tunnel.privSock)
    ensures Follows(old(View(tunnel)), tunnel, rc, c)
  {
    if |tunnel.privSock.readBuff| < NHEADER {
      return 0;
    }
    ghost var buf := tunnel.privSock.readBuff;
    var ver := tunnel.privSock.BuffRead(1);
    tunnel.op := tunnel.op.(ver := ver[0]);
    if tunnel.op.ver != VERSION {
      return -1;
    }
    var chosen := tunnel.privSock.BuffRead(1);
    assert tunnel.privSock.readBuff == buf[NHEADER..];
    tunnel.op := tunnel.op.(nmethods := chosen[0]);
    tunnel.readCount := tunnel.readCount + NHEADER;
    WriteRequest(tunnel, c);
    tunnel.state := RequestState;
    tunnel.privSock.EpollModify(true, true);
    tunnel.readCount := 0;
    return 0;
  }

  /** What a label of `tunnel_request_handle` makes of the objects. */
  ghost predicate Leaves(s: Session, o: Out, tunnel: Tunnel, rc: int)
    requires tunnel.privSock != null && s.Live?
    reads tunnel, tunnel.privSock
  {
    && (rc == 0 <==> o.verdict == Proceed) && (rc == -1 <==> o.verdict == Reject)
    && (rc == 0 ==> View(tunnel) == Live(o.h, o.buf, s.out + o.reply))
  }

  /** The last label of `tunnel_request_handle`: nothing is sent, and the status stays. */
  method RequestTail(tunnel: Tunnel, n: nat) returns (rc: int)
    requires tunnel.privSock != null && n <= FIELD_LEN
    modifies tunnel, tunnel.privSock
    ensures tunnel.privSock == old(tunnel.privSock)
    ensures Leaves(old(View(tunnel)),
      Handshake.RequestTail(old(tunnel.Fields()), old(tunnel.privSock.readBuff), n, []), tunnel, rc)
  {
    assert tunnel.privSock.writeBuff + [] == tunnel.privSock.writeBuff;
    if |tunnel.privSock.readBuff| < n + NPORT {
      return 0;
    }
    ghost var buf := tunnel.privSock.readBuff;
    var addr := tunnel.privSock.BuffRead(n);
    var port := tunnel.privSock.BuffRead(NPORT);
    assert buf[n..][NPORT..] == buf[n + NPORT..];
    tunnel.rp := tunnel.rp.(addr := Blit(tunnel.rp.addr, addr), port := PortAt(port, 0));
    tunnel.state := ConnectedState;
    tunnel.readCount := 0;
    return 0;
  }

  method RequestAddr(tunnel: Tunnel) returns (rc: int)
    requires tunnel.privSock != null
    modifies tunnel, tunnel.privSock
    ensures tunnel.privSock == old(tunnel.privSock)
    ensures Leaves(old(View(tunnel)),
      Handshake.RequestAddr(old(tunnel.Fields()), old(tunnel.privSock.readBuff), []), tunnel, rc)
  {
    assert tunnel.privSock.writeBuff + [] == tunnel.privSock.writeBuff;
    if tunnel.rp.atyp == ATYP_IPV4 {
      rc := RequestTail(tunnel, NIPV4);
    } else if tunnel.rp.atyp == ATYP_IPV6 {
      rc := RequestTail(tunnel, NIPV6);
    } else if tunnel.rp.atyp == ATYP_DOMAIN {
      if |tunnel.privSock.readBuff| < 1 {
        return 0;
      }
      var domainlen := tunnel.privSock.BuffRead(1);
      tunnel.rp := tunnel.rp.(domainlen := domainlen[0]);
      tunnel.readCount := tunnel.readCount + 1;
      rc := RequestTail(tunnel, tunnel.rp.domainlen);
    } else {
      return -1;
    }
  }

  method RequestHeader(tunnel: Tunnel) returns (rc: int)
    requires tunnel.privSock != null
    modifies tunnel, tunnel.privSock
    ensures tunnel.privSock == old(tunnel.privSock)
    ensures Leaves(old(View(tunnel)),
      Handshake.RequestHeader(old(tunnel.Fields()), old(tunnel.privSock.readBuff), []), tunnel, rc)
  {
    assert tunnel.privSock.writeBuff + [] == tunnel.privSock.writeBuff;
    if |tunnel.privSock.readBuff| < NREQHEADER {
      return 0;
    }
    ghost var buf := tunnel.privSock.readBuff;
    var ver := tunnel.privSock.BuffRead(1);
    tunnel.rp := tunnel.rp.(ver := ver[0]);
    if tunnel.rp.ver != VERSION {
      return -1;
    }
    var cmd := tunnel.privSock.BuffRead(1);
    tunnel.rp := tunnel.rp.(cmd := cmd[0]);
    if tunnel.rp.cmd != CMD_CONNECT {
      return -1;
    }
    var rsv := tunnel.privSock.BuffRead(1);
    var atyp := tunnel.privSock.BuffRead(1);
    tunnel.rp := tunnel.rp.(rsv := rsv[0], atyp := atyp[0]);
    assert tunnel.privSock.readBuff == buf[NREQHEADER..];
    tunnel.readCount := tunnel.readCount + NREQHEADER;
    rc := RequestAddr(tunnel);
  }

  /** `tunnel_request_handle`: the server's answer, from the label that `read_count` names. */
  method RequestHandle(tunnel: Tunnel) returns (rc: int)
    requires tunnel.privSock != null
    requires Handshake.RequestHandle(tunnel.Fields(), tunnel.privSock.readBuff, []).verdict != Abort
    modifies tunnel, tunnel.privSock
    ensures tunnel.privSock == old(tunnel.privSock)
    ensures Leaves(old(View(tunnel)),
      Handshake.RequestHandle(old(tunnel.Fields()), old(tunnel.privSock.readBuff), []), tunnel, rc)
  {
    if tunnel.readCount == 0 {
      rc := RequestHeader(tunnel);
    } else if tunnel.readCount == NREQHEADER {
      rc := RequestAddr(tunnel);
    } else if tunnel.readCount == NREQHEADER + 1 {
      rc := RequestTail(tunnel, tunnel.rp.domainlen);
    } else {
      assert false;
    }
  }

  /** The handshake cases of `tunnel_read_handle`, wherever the client's model does not abort. */
  method ReadHandle(tunnel: Tunnel, c: TwoParty.Client) returns (rc: int)
    requires tunnel.privSock != null && c.Valid()
    requires tunnel.state == OpenState || tunnel.state == RequestState
    requires !TwoParty.ClientWake(View(tunnel), c.Request()).Aborted?
    modifies tunnel, tunnel.privSock
    ensures tunnel.privSock == old(tunnel.privSock)
    ensures Follows(old(View(tunnel)), tunnel, rc, c)
  {
    if tunnel.state == OpenState {
      rc := OpenHandle(tunnel, c);
    } else {
      rc := RequestHandle(tunnel);
    }
  }
}
