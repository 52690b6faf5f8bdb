/** The server with its objects in place: the functions of `socks5.c` as methods that assign fields,
    each proved to do what its specification in `Pool` says. */
module Server {
  import opened Common
  import opened Handshake
  import IntrusiveList
  import opened Objects
  import Pool
  import opened PoolInvariant
  import opened Wiring
  import Pairing
  import PoolRuns

  type World = Pool.World

  class Server {
    const conf: Config
    ghost var socks: set<Sock>    // allocated and not yet released
    ghost var tuns: set<Tunnel>   // never freed
    var appList: seq<Tunnel>
    var waitList: seq<Tunnel>

    /** The heap as the specification sees it. */
    ghost function View(): World
      reads this, socks, tuns
    {
      Pool.World(conf, SockMap(), TunMap(), appList, waitList)
    }

    ghost function SockMap(): map<Sock, SockData>
      reads this, socks
    {
      map s | s in socks :: s.Data()
    }

    ghost function TunMap(): map<Tunnel, TunnelData>
      reads this, tuns
    {
      map t | t in tuns :: t.Data()
    }

    constructor (conf: Config)
      ensures View() == Pool.Start(conf)
    {
      this.conf := conf;
      socks, tuns, appList, waitList := {}, {}, [], [];
    }

    // ----- single assignments

    method EpollModify(sock: Sock, writable: bool, readable: bool)
      requires sock in socks
      modifies sock
      ensures View() == Pool.PutSock(old(View()), sock, Pool.Poll(old(View()).socks[sock], writable, readable))
    {
      sock.EpollModify(writable, readable);
      assert SockMap() == old(SockMap())[sock := sock.Data()];
      assert TunMap() == old(TunMap());
    }

    /** `tunnel->status = status; tunnel->remote_sock = remote;` */
    method SetRemote(tunnel: Tunnel, status: Status, remote: Sock?)
      requires tunnel in tuns
      modifies tunnel`status, tunnel`remoteSock
      ensures View() == Pool.PutTun(old(View()), tunnel, old(View()).tuns[tunnel].(status := status, remote := remote))
    {
      tunnel.status, tunnel.remoteSock := status, remote;
      assert SockMap() == old(SockMap());
      assert TunMap() == old(TunMap())[tunnel := tunnel.Data()];
    }

    // ----- closing

    /** `sock_release`. */
    method SockRelease(sock: Sock)
      requires Pool.SockRelease(View(), sock).Some?
      modifies this`socks, sock.tunnel`privSock, sock.tunnel`remoteSock
      ensures Some(View()) == Pool.SockRelease(old(View()), sock)
      ensures socks == old(socks) - {sock} && tuns == old(tuns)
    {
      var tunnel := sock.tunnel;
      if sock.ispriv {
        tunnel.privSock := null;
      } else {
        tunnel.remoteSock := null;
      }
      socks := socks - {sock};
      assert SockMap() == old(SockMap()) - {sock};
      assert TunMap() == old(TunMap())[tunnel := tunnel.Data()];
    }

    /** `sock_force_shutdown`. */
    method SockForceShutdown(sock: Sock)
      requires Pool.SockForceShutdown(View(), sock).Some?
      modifies this`socks, sock.tunnel
      ensures Some(View()) == Pool.SockForceShutdown(old(View()), sock)
      ensures socks <= old(socks) && tuns == old(tuns)
    {
      var tunnel := sock.tunnel;
      if tunnel.status == TmptunClose {
        SetRemote(tunnel, TmptunFree, null);
      } else if sock == tunnel.remoteSock {
        SetRemote(tunnel, TunnIdle, null);
      } else {
        assert Pool.PutTun(View(), tunnel, View().tuns[tunnel]) == View();
      }
      SockRelease(sock);
    }

    /** `sock_shutdown`. */
    method SockShutdown(sock: Sock)
      requires Pool.SockShutdown(View(), sock).Some?
      modifies this, socks, tuns
      ensures Some(View()) == Pool.SockShutdown(old(View()), sock)
      ensures socks <= old(socks) && tuns == old(tuns)
    {
      var tunnel := sock.tunnel;
      sock.state := SockHalfclosed;
      assert SockMap() == old(SockMap())[sock := sock.Data()];
      assert TunMap() == old(TunMap());
      ForwardLeft(sock, tunnel);
      if sock.writeBuff != [] {
        EpollModify(sock, true, false);
      } else {
        CloseDrained(sock, tunnel);
      }
    }

    /** What the private side has left is appended for a closing remote. */
    method ForwardLeft(sock: Sock, tunnel: Tunnel)
      requires sock in socks && tunnel in tuns && Pool.ForwardLeft(View(), sock, tunnel).Some?
      modifies sock`writeBuff
      ensures Some(View()) == Pool.ForwardLeft(old(View()), sock, tunnel)
    {
      if tunnel.state == ConnectedState {
        assert tunnel.privSock in View().socks;
        if tunnel.privSock.readBuff != [] && sock == tunnel.remoteSock {
          sock.writeBuff := sock.writeBuff + tunnel.privSock.readBuff;
          assert SockMap() == old(SockMap())[sock := sock.Data()];
          assert TunMap() == old(TunMap());
        }
      }
    }

    method CloseDrained(sock: Sock, tunnel: Tunnel)
      requires Pool.CloseDrained(View(), sock, tunnel).Some?
      modifies this, socks, tuns
      ensures Some(View()) == Pool.CloseDrained(old(View()), sock, tunnel)
      ensures socks <= old(socks) && tuns == old(tuns)
    {
      ClosePrivate(sock, tunnel);
      CloseRemote(sock, tunnel);
      assert tunnel in View().tuns;
      if tunnel.status == TmptunClose {
        SockForceShutdown(sock);
        assert tunnel in View().tuns;
        SetRemote(tunnel, TmptunFree, null);
      }
    }

    method ClosePrivate(sock: Sock, tunnel: Tunnel)
      requires Pool.ClosePrivate(View(), sock, tunnel).Some?
      modifies this, socks, tuns
      ensures Some(View()) == Pool.ClosePrivate(old(View()), sock, tunnel)
      ensures socks <= old(socks) && tuns == old(tuns)
    {
      assert tunnel in View().tuns;
      if sock == tunnel.privSock {
        SockForceShutdown(sock);
        assert tunnel in View().tuns;
        DetachPrivate(tunnel);
        if tunnel.remoteSock != null {
          SockForceShutdown(tunnel.remoteSock);
          assert tunnel in View().tuns;
          SetRemote(tunnel, tunnel.status, null);
        }
      }
    }

    /** `tunnel->status = tunn_is_free; tunnel->priv_sock = NULL;` */
    method DetachPrivate(tunnel: Tunnel)
      requires tunnel in tuns
      modifies tunnel`status, tunnel`privSock
      ensures View() == Pool.PutTun(old(View()), tunnel, old(View()).tuns[tunnel].(status := TunnFree, priv := null))
    {
      tunnel.status, tunnel.privSock := TunnFree, null;
      assert SockMap() == old(SockMap());
      assert TunMap() == old(TunMap())[tunnel := tunnel.Data()];
    }

    method CloseRemote(sock: Sock, tunnel: Tunnel)
      requires Pool.CloseRemote(View(), sock, tunnel).Some?
      modifies this, socks, tuns
      ensures Some(View()) == Pool.CloseRemote(old(View()), sock, tunnel)
      ensures socks <= old(socks) && tuns == old(tuns)
    {
      assert tunnel in View().tuns;
      if sock == tunnel.remoteSock {
        if tunnel.state == ConnectedState {
          SockForceShutdown(sock);
          assert tunnel in View().tuns;
          SetRemote(tunnel, TunnIdle, null);
        } else if tunnel.state == WaittingState {
          SockForceShutdown(sock);
          assert tunnel in View().tuns;
          SetRemote(tunnel, TmptunFree, null);
        }
      }
    }

    /** `tunnel_shutdown`. */
    method TunnelShutdown(tunnel: Tunnel, sock: Sock)
      requires Pool.TunnelShutdown(View(), tunnel, sock).Some?
      modifies this, socks, tuns
      ensures Some(View()) == Pool.TunnelShutdown(old(View()), tunnel, sock)
      ensures socks <= old(socks) && tuns == old(tuns)
    {
      assert tunnel in View().tuns;
      if sock == tunnel.privSock {
        SockShutdown(sock);
      }
      assert tunnel in View().tuns;
      if sock == tunnel.remoteSock {
        SockShutdown(sock);
      }
    }

    // ----- reading

    /** `buff_concat(to->write_buff, from->read_buff)`. */
    method BuffConcat(to: Sock, from: Sock)
      requires to in socks && from in socks
      modifies to`writeBuff
      ensures View() == Pool.PutSock(old(View()), to,
        old(View()).socks[to].(wbuf := old(View()).socks[to].wbuf + old(View()).socks[from].rbuf))
    {
      to.writeBuff := to.writeBuff + from.readBuff;
      assert SockMap() == old(SockMap())[to := to.Data()];
      assert TunMap() == old(TunMap());
    }

    /** `buff_clear(from->read_buff)`. */
    method BuffClear(from: Sock)
      requires from in socks
      modifies from`readBuff
      ensures View() == Pool.PutSock(old(View()), from, old(View()).socks[from].(rbuf := []))
    {
      from.readBuff := [];
      assert SockMap() == old(SockMap())[from := from.Data()];
      assert TunMap() == old(TunMap());
    }

    /** All unread input of `from` moves to the tail of what `to` has to write. */
    method Forward(from: Sock?, to: Sock?)
      requires Pool.Forward(View(), from, to).Some?
      modifies from, to
      ensures Some(View()) == Pool.Forward(old(View()), from, to)
    {
      assert from in View().socks && to in View().socks;
      BuffConcat(to, from);
      BuffClear(from);
      EpollModify(to, true, true);
    }

    /** `tunnel_connected_handle`. */
    method ConnectedHandle(tunnel: Tunnel, sock: Sock) returns (rc: int)
      requires Pool.ConnectedHandle(View(), tunnel, sock).Some?
      modifies socks
      ensures Some((View(), rc == 0)) == Pool.ConnectedHandle(old(View()), tunnel, sock)
      ensures rc == 0 || rc == -1
    {
      assert tunnel in View().tuns && sock in View().socks;
      if sock.ispriv {
        if tunnel.remoteSock == null {
          return -1;
        }
        if sock.readBuff != [] {
          Forward(tunnel.privSock, tunnel.remoteSock);
        }
      } else {
        if tunnel.privSock == null {
          return -1;
        }
        if sock.readBuff != [] {
          Forward(tunnel.remoteSock, tunnel.privSock);
        }
      }
      return 0;
    }

    /** `tunnel_waitting_handle`. */
    method WaittingHandle(tunnel: Tunnel)
      requires Pool.WaittingHandle(View(), tunnel).Some?
      modifies socks, tunnel
      ensures Some(View()) == Pool.WaittingHandle(old(View()), tunnel)
    {
      assert tunnel in View().tuns;
      if tunnel.remoteSock == null {
        return;
      }
      assert tunnel.remoteSock in View().socks;
      Answer(tunnel.remoteSock);
      SetRemote(tunnel, TmptunClose, tunnel.remoteSock);
    }

    /** `tunnel_write_remote` with the fixed answer, and `buff_clear`. */
    method Answer(remote: Sock)
      requires remote in socks
      modifies remote
      ensures var d := old(View()).socks[remote];
        View() == Pool.PutSock(old(View()), remote,
          Pool.Poll(d.(wbuf := d.wbuf + Pool.RESPONSE, rbuf := []), true, true))
    {
      remote.writeBuff := remote.writeBuff + Pool.RESPONSE;
      remote.readBuff := [];
      remote.EpollModify(true, true);
      assert SockMap() == old(SockMap())[remote := remote.Data()];
      assert TunMap() == old(TunMap());
    }

    /** The handshake cases of `tunnel_read_handle`. */
    method HandshakeHandle(tunnel: Tunnel, sock: Sock)
      requires tunnel in tuns && InHandshake(tunnel.state)
      requires Pool.HandshakeHandle(View(), tunnel, sock).Some?
      modifies this, socks, tuns
      ensures Some(View()) == Pool.HandshakeHandle(old(View()), tunnel, sock)
      ensures socks <= old(socks) && tuns == old(tuns)
    {
      var rc := RunHandler(tunnel);
      if rc < 0 {
        SockForceShutdown(sock);
      }
    }

    /** What a handler leaves of the private socket, and of the tunnel. */
    static function SockLeft(d: SockData, o: Out): SockData {
      var d1 := d.(rbuf := o.buf, wbuf := d.wbuf + o.reply);
      if o.reply == [] then d1 else Pool.Poll(d1, true, true)
    }

    static function TunnelLeft(td: TunnelData, o: Out): TunnelData {
      td.(hs := o.h,
          status := if td.hs.state == RequestState && o.h.state != RequestState then TunnIdle else td.status)
    }

    lemma HandlerLeft(w: World, tunnel: Tunnel, priv: Sock, o: Out)
      requires w.conf == conf && w.app == appList && w.wait == waitList
      requires tunnel in w.tuns && priv in w.socks && w.tuns[tunnel].priv == priv && priv in socks && tunnel in tuns
      requires SockMap() == w.socks[priv := SockLeft(w.socks[priv], o)]
      requires TunMap() == w.tuns[tunnel := TunnelLeft(w.tuns[tunnel], o)]
      ensures View() == Pool.AfterHandler(w, tunnel, o)
    {
    }

    /** The handler on its two objects. */
    method CallHandler(tunnel: Tunnel) returns (rc: int, ghost o: Out)
      requires InHandshake(tunnel.state) && tunnel.privSock != null
      requires Handle(conf, tunnel.Fields(), tunnel.privSock.readBuff).verdict != Abort
      modifies tunnel, tunnel.privSock
      ensures o == Handle(conf, old(tunnel.Fields()), old(tunnel.privSock.readBuff))
      ensures rc < 0 <==> o.verdict == Reject
      ensures tunnel.privSock == old(tunnel.privSock)
      ensures tunnel.Data() == TunnelLeft(old(tunnel.Data()), o)
      ensures tunnel.privSock.Data() == SockLeft(old(tunnel.privSock.Data()), o)
    {
      o := Handle(conf, tunnel.Fields(), tunnel.privSock.readBuff);
      rc := tunnel.Handle(conf);
    }

    /** The handler, and its effect on the server. */
    method RunHandler(tunnel: Tunnel) returns (rc: int)
      requires tunnel in tuns && InHandshake(tunnel.state) && tunnel.privSock in socks
      requires Handle(conf, tunnel.Fields(), tunnel.privSock.readBuff).verdict != Abort
      modifies tunnel, tunnel.privSock
      ensures var o := Handle(conf, old(tunnel.Fields()), old(tunnel.privSock.readBuff));
        && View() == Pool.AfterHandler(old(View()), tunnel, o)
        && (rc < 0 <==> o.verdict == Reject)
    {
      var priv := tunnel.privSock;
      ghost var w := View();
      ghost var o;
      rc, o := CallHandler(tunnel);
      assert SockMap() == w.socks[priv := SockLeft(w.socks[priv], o)];
      assert TunMap() == w.tuns[tunnel := TunnelLeft(w.tuns[tunnel], o)];
      HandlerLeft(w, tunnel, priv, o);
    }

    /** The dispatch of `tunnel_read_handle` by tunnel state. */
    method Dispatch(sock: Sock)
      requires Pool.Dispatch(View(), sock).Some?
      modifies this, socks, tuns
      ensures Some(View()) == Pool.Dispatch(old(View()), sock)
      ensures socks <= old(socks) && tuns == old(tuns)
    {
      assert Pool.Known(View(), sock);
      var tunnel := sock.tunnel;
      match tunnel.state {
        case OpenState => HandshakeHandle(tunnel, sock);
        case AuthState => HandshakeHandle(tunnel, sock);
        case RequestState => HandshakeHandle(tunnel, sock);
        case ConnectingState => assert false;
        case ConnectedState =>
          var rc := ConnectedHandle(tunnel, sock);
          if rc < 0 {
            TunnelShutdown(tunnel, sock);
          }
        case WaittingState => WaittingHandle(tunnel);
      }
    }

    /** `tunnel_read_handle`, for every answer of `read` and every event that does not make the program
        fail.  What follows a pool in order is in order exactly when the event was safe. */
    method ReadHandle(sock: Sock, got: Pool.ReadResult)
      requires Pool.Step(View(), Pool.Read(sock, got)).Some?
      modifies this, socks, tuns
      ensures Some(View()) == Pool.Step(old(View()), Pool.Read(sock, got))
      ensures old(PoolInv(View()) && Pool.Enabled(View(), Pool.Read(sock, got))) ==>
        (PoolInv(View()) <==> Safe(old(View()), Pool.Read(sock, got)))
    {
      ghost var w := View();
      ReadEvent(sock, got);
      if PoolInv(w) && Pool.Enabled(w, Pool.Read(sock, got)) {
        ReadKeeps(w, sock, got);
      }
    }

    method ReadEvent(sock: Sock, got: Pool.ReadResult)
      requires Pool.ReadHandle(View(), sock, got).Some?
      modifies this, socks, tuns
      ensures Some(View()) == Pool.ReadHandle(old(View()), sock, got)
    {
      assert sock in View().socks;
      match got {
        case Data(bytes) =>
          BuffAppend(sock, bytes);
          Dispatch(sock);
        case ReadAgain => Dispatch(sock);
        case Fin => SockShutdown(sock);
        case ReadError => SockShutdown(sock);
      }
    }

    /** `buff_readfd` when bytes arrive. */
    method BuffAppend(sock: Sock, bytes: seq<byte>)
      requires sock in socks
      modifies sock`readBuff
      ensures var d := old(View()).socks[sock];
        View() == Pool.PutSock(old(View()), sock, d.(rbuf := d.rbuf + bytes))
    {
      sock.readBuff := sock.readBuff + bytes;
      assert SockMap() == old(SockMap())[sock := sock.Data()];
      assert TunMap() == old(TunMap());
    }

    // ----- writing

    /** `AppListFnd` and `waitListFnd` with the status comparators: the first match in list order. */
    method Fnd(l: seq<Tunnel>, st: Status) returns (p: Tunnel?)
      requires forall t :: t in l ==> t in tuns
      ensures var k := Pool.FindStatus(View().tuns, l, st); p == if k < |l| then l[k] else null
    {
      var i := 0;
      while i < |l|
        invariant i <= |l| && Pool.FindStatus(View().tuns, l, st) == i + Pool.FindStatus(View().tuns, l[i..], st)
      {
        assert l[i] in View().tuns && View().tuns[l[i]] == l[i].Data();
        assert l[i..][1..] == l[i + 1..];
        if l[i].status == st {
          return l[i];
        }
        i := i + 1;
      }
      p := null;
    }

    /** `getWaitobjFrList`; `spare` is what `malloc` would return. */
    method GetWaitobj(spare: Tunnel) returns (p: Tunnel)
      requires IsSpare(spare) && forall t :: t in waitList ==> t in tuns
      modifies this`tuns, this`waitList, tuns, spare
      ensures Some((View(), p)) == Pool.GetWaitobj(old(View()), spare)
      ensures p in tuns && tuns == old(tuns) + {p} && (p == spare || p in old(tuns))
    {
      var q := Fnd(waitList, TmptunFree);
      if q != null {
        p := q;
        SetState(p, WaittingState, TmptunWait);
      } else {
        p := spare;
        NewTunnel(p, WaittingState, TmptunWait);
        WaitListAdd(p);
      }
    }

    /** Memory the server does not use yet, as `memset` leaves it. */
    ghost predicate IsSpare(t: Tunnel)
      reads this`tuns, t
    {
      t !in tuns && t.Data() == TunnelData(null, null, ZERO_HS, TunnIdle)
    }

    /** `waitListAdd`. */
    method WaitListAdd(p: Tunnel)
      modifies this`waitList
      ensures View() == old(View()).(wait := [p] + old(View()).wait)
    {
      waitList := [p] + waitList;
      assert SockMap() == old(SockMap()) && TunMap() == old(TunMap());
    }

    /** `AppListAdd`. */
    method AppListAdd(p: Tunnel)
      modifies this`appList
      ensures View() == old(View()).(app := [p] + old(View()).app)
    {
      appList := [p] + appList;
      assert SockMap() == old(SockMap()) && TunMap() == old(TunMap());
    }

    /** `tunnel->state = state; tunnel->status = status;` */
    method SetState(tunnel: Tunnel, state: State, status: Status)
      requires tunnel in tuns
      modifies tunnel`state, tunnel`status
      ensures View() == Pool.PutTun(old(View()), tunnel,
        old(View()).tuns[tunnel].(hs := old(View()).tuns[tunnel].hs.(state := state), status := status))
    {
      tunnel.state, tunnel.status := state, status;
      assert SockMap() == old(SockMap());
      assert TunMap() == old(TunMap())[tunnel := tunnel.Data()];
    }

    /** A tunnel fresh from `malloc` and `memset` gets its first state and status. */
    method NewTunnel(p: Tunnel, state: State, status: Status)
      requires IsSpare(p)
      modifies this`tuns, p
      ensures tuns == old(tuns) + {p}
      ensures View() == Pool.PutTun(old(View()), p, TunnelData(null, null, ZERO_HS.(state := state), status))
    {
      p.state, p.status := state, status;
      tuns := tuns + {p};
      assert SockMap() == old(SockMap());
      assert TunMap() == old(TunMap())[p := p.Data()];
    }

    /** `tunnel_switch_handle`. */
    method SwitchHandle(sock: Sock, tunnel: Tunnel, spare: Tunnel)
      requires sock in socks && tunnel in tuns && IsSpare(spare) && forall t :: t in waitList ==> t in tuns
      requires Pool.SwitchHandle(View(), sock, tunnel, spare).Some?
      modifies this, socks, tuns, spare
      ensures Some(View()) == Pool.SwitchHandle(old(View()), sock, tunnel, spare)
    {
      if sock.writeBuff != [] {
        EpollModify(sock, true, true);
        return;
      }
      EpollModify(sock, false, true);
      if sock == tunnel.remoteSock {
        if tunnel.status == TunnRun {
          SetRemote(tunnel, TunnIdle, null);
        }
        var conn := GetWaitobj(spare);
        Park(sock, conn);
      }
    }

    /** The remote moves to its place on the waitList. */
    method Park(sock: Sock, conn: Tunnel)
      requires sock in socks && conn in tuns
      modifies sock`tunnel, conn`remoteSock, conn`state, conn`status
      ensures View() == Pool.Park(old(View()), sock, conn)
    {
      conn.remoteSock := sock;
      sock.tunnel := conn;
      conn.state, conn.status := WaittingState, TmptunAlive;
      assert SockMap() == old(SockMap())[sock := sock.Data()];
      assert TunMap() == old(TunMap())[conn := conn.Data()];
    }

    /** `buff_writefd`, when the descriptor takes `n` bytes. */
    method BuffSent(sock: Sock, n: nat)
      requires sock in socks && n <= |sock.writeBuff|
      modifies sock`writeBuff
      ensures var d := old(View()).socks[sock];
        View() == Pool.PutSock(old(View()), sock, d.(wbuf := d.wbuf[n..]))
    {
      sock.writeBuff := sock.writeBuff[n..];
      assert SockMap() == old(SockMap())[sock := sock.Data()];
      assert TunMap() == old(TunMap());
    }

    method WriteEvent(sock: Sock, put: Pool.WriteResult, spare: Tunnel)
      requires Pool.WriteHandle(View(), sock, put, spare).Some?
      requires IsSpare(spare) && forall t :: t in waitList ==> t in tuns
      modifies this, socks, tuns, spare
      ensures Some(View()) == Pool.WriteHandle(old(View()), sock, put, spare)
    {
      assert Pool.Known(View(), sock);
      var tunnel := sock.tunnel;
      if sock.writeBuff != [] {
        match put {
          case Wrote(n) => BuffSent(sock, n);
          case WriteAgain =>
          case WriteError =>
            SockForceShutdown(sock);
            return;
        }
      } else if sock.state == SockHalfclosed {
        SockForceShutdown(sock);
        return;
      }
      assert tunnel in View().tuns;
      if tunnel.status == TunnRun {
        SwitchHandle(sock, tunnel, spare);
      } else {
        EpollModify(sock, sock.writeBuff != [], true);
      }
    }

    /** `tunnel_write_handle`, for every answer of `write` and every event that does not make the program
        fail.  What follows a pool in order is in order exactly when the event was safe. */
    method WriteHandle(sock: Sock, put: Pool.WriteResult, spare: Tunnel)
      requires Lists(View()) && IsSpare(spare) && Pool.Step(View(), Pool.Write(sock, put, spare)).Some?
      modifies this, socks, tuns, spare
      ensures Some(View()) == Pool.Step(old(View()), Pool.Write(sock, put, spare))
      ensures old(PoolInv(View()) && Pool.Enabled(View(), Pool.Write(sock, put, spare))) ==>
        (PoolInv(View()) <==> Safe(old(View()), Pool.Write(sock, put, spare)))
    {
      ghost var w := View();
      AllListed();
      WriteEvent(sock, put, spare);
      if PoolInv(w) && Pool.Enabled(w, Pool.Write(sock, put, spare)) {
        WriteKeeps(w, sock, put, spare);
      }
    }

    /** Every entry of a list is a tunnel, in every run. */
    lemma AllListed()
      requires Lists(View())
      ensures (forall t :: t in waitList ==> t in tuns) && (forall t :: t in appList ==> t in tuns)
    {
      assert View().tuns.Keys == tuns;
    }

    // ----- accepting

    /** `getTargetFrList` for a private connection. */
    method GetPrivateTarget(spare: Tunnel) returns (p: Tunnel)
      requires IsSpare(spare) && forall t :: t in appList ==> t in tuns
      modifies this`tuns, this`appList, tuns, spare
      ensures Some((View(), p)) == Pool.GetPrivateTarget(old(View()), spare)
      ensures p in tuns && tuns == old(tuns) + {p} && (p == spare || p in old(tuns))
    {
      var q := Fnd(appList, TunnFree);
      if q != null {
        p := q;
        SetState(p, OpenState, TunnRun);
      } else {
        p := spare;
        NewTunnel(p, OpenState, TunnIdle);
        AppListAdd(p);
      }
    }

    /** `getTargetFrList` for a remote connection. */
    method GetRemoteTarget(spare: Tunnel) returns (p: Tunnel)
      requires IsSpare(spare) && (forall t :: t in appList ==> t in tuns) && (forall t :: t in waitList ==> t in tuns)
      modifies this`tuns, this`waitList, tuns, spare
      ensures Pool.GetRemoteTarget(old(View()), spare).Some? ==>
        Some((View(), p)) == Pool.GetRemoteTarget(old(View()), spare)
      ensures p in tuns && tuns == old(tuns) + {p} && (p == spare || p in old(tuns))
    {
      var q := Fnd(appList, TunnIdle);
      if q != null {
        p := q;
        SetRemote(p, TunnRun, p.remoteSock);
      } else {
        p := GetWaitobj(spare);
      }
    }

    /** `sock_create`: the socket joins the live ones. */
    method SockCreate(ispriv: bool, tunnel: Tunnel) returns (ns: Sock)
      modifies this`socks
      ensures fresh(ns) && ns !in old(socks) && socks == old(socks) + {ns}
      ensures View() == Pool.PutSock(old(View()), ns, Pool.FreshSock(ispriv, tunnel))
    {
      ns := new Sock(ispriv, tunnel);
      socks := socks + {ns};
      assert SockMap() == old(SockMap())[ns := ns.Data()];
      assert TunMap() == old(TunMap());
    }

    /** `tunnel_create` for a private connection. */
    method AcceptPrivate(spare: Tunnel) returns (ns: Sock)
      requires Lists(View()) && IsSpare(spare)
      modifies this, socks, tuns, spare
      ensures fresh(ns) && ns !in old(socks)
      ensures Some(View()) == Pool.Step(old(View()), Pool.AcceptPrivate(ns, spare))
      ensures old(PoolInv(View())) ==> PoolInv(View())
    {
      AllListed();
      ns := CreatePrivate(spare);
      if PoolInv(old(View())) {
        AcceptPrivateKeeps(old(View()), ns, spare);
      }
    }

    method CreatePrivate(spare: Tunnel) returns (ns: Sock)
      requires IsSpare(spare) && forall t :: t in appList ==> t in tuns
      modifies this, socks, tuns, spare
      ensures fresh(ns) && ns !in old(socks)
      ensures Some(View()) == Pool.AcceptPriv(old(View()), ns, spare)
    {
      var tunnel := GetPrivateTarget(spare);
      ns := SockCreate(true, tunnel);
      AttachPrivate(tunnel, ns);
    }

    method AttachPrivate(tunnel: Tunnel, ns: Sock)
      requires tunnel in tuns
      modifies tunnel
      ensures View() == Pool.PutTun(old(View()), tunnel,
        old(View()).tuns[tunnel].(priv := ns, hs := old(View()).tuns[tunnel].hs.(state := OpenState, readCount := 0)))
    {
      tunnel.state, tunnel.privSock, tunnel.readCount := OpenState, ns, 0;
      assert SockMap() == old(SockMap());
      assert TunMap() == old(TunMap())[tunnel := tunnel.Data()];
    }

    /** `tunnel_create` for a remote connection; it does not fail when the first idle tunnel, if there is
        one, has its private socket. */
    method AcceptRemote(spare: Tunnel) returns (ns: Sock)
      requires Lists(View()) && IsSpare(spare) && IdleIsAttached(View())
      modifies this, socks, tuns, spare
      ensures fresh(ns) && ns !in old(socks)
      ensures Some(View()) == Pool.Step(old(View()), Pool.AcceptRemote(ns, spare))
      ensures old(PoolInv(View())) ==> PoolInv(View())
    {
      AllListed();
      ns := CreateRemote(spare);
      if PoolInv(old(View())) {
        AcceptRemoteKeeps(old(View()), ns, spare);
      }
    }

    method CreateRemote(spare: Tunnel) returns (ns: Sock)
      requires IsSpare(spare) && (forall t :: t in appList ==> t in tuns) && (forall t :: t in waitList ==> t in tuns)
      requires Pool.GetRemoteTarget(View(), spare).Some?
      modifies this, socks, tuns, spare
      ensures fresh(ns) && ns !in old(socks)
      ensures Some(View()) == Pool.AcceptRmt(old(View()), ns, spare)
    {
      var tunnel := GetRemoteTarget(spare);
      ns := SockCreate(false, tunnel);
      AttachRemote(tunnel, ns);
    }

    method AttachRemote(tunnel: Tunnel, ns: Sock)
      requires tunnel in tuns
      modifies tunnel
      ensures var td := old(View()).tuns[tunnel];
        var state := if td.status == TmptunWait then WaittingState else ConnectedState;
        View() == Pool.PutTun(old(View()), tunnel,
          td.(remote := ns, hs := td.hs.(state := state, readCount := 0)))
    {
      tunnel.remoteSock, tunnel.readCount := ns, 0;
      if tunnel.status == TmptunWait {
        tunnel.state := WaittingState;
      } else {
        tunnel.state := ConnectedState;
      }
      assert SockMap() == old(SockMap());
      assert TunMap() == old(TunMap())[tunnel := tunnel.Data()];
    }

    // ----- pairing

    /** `waitListFnd` with `waitCompare2`. */
    method FndPairable() returns (p: Tunnel?)
      requires forall t :: t in waitList ==> t in tuns
      requires forall t :: t in waitList && t.status == TmptunAlive ==> t.remoteSock in socks
      ensures var k := Pool.FindPairable(View(), waitList); p == if k < |waitList| then waitList[k] else null
    {
      var i := 0;
      while i < |waitList|
        invariant i <= |waitList| && Pool.FindPairable(View(), waitList) == i + Pool.FindPairable(View(), waitList[i..])
      {
        var t := waitList[i];
        assert t in View().tuns && View().tuns[t] == t.Data();
        assert waitList[i..][1..] == waitList[i + 1..];
        if t.status == TmptunWait || (t.status == TmptunAlive && t.remoteSock.readBuff != []) {
          return t;
        }
        i := i + 1;
      }
      p := null;
    }

    /** The pairing in `fndIdleConnElemt`. */
    method PairOne(tunnel: Tunnel, p: Tunnel)
      requires Pool.PairOne(View(), tunnel, p).Some?
      modifies socks, tuns
      ensures Some(View()) == Pool.PairOne(old(View()), tunnel, p)
    {
      assert tunnel in View().tuns && p in View().tuns && p.remoteSock in View().socks;
      var r := p.remoteSock;
      SetRemote(tunnel, TunnRun, r);
      SetTunnel(r, tunnel);
      var _ := ConnectedHandle(tunnel, r);
      assert p in View().tuns;
      SetRemote(p, TmptunFree, null);
    }

    /** `sock->tunnel = tunnel;` */
    method SetTunnel(sock: Sock, tunnel: Tunnel)
      requires sock in socks
      modifies sock`tunnel
      ensures View() == Pool.PutSock(old(View()), sock, old(View()).socks[sock].(tunnel := tunnel))
    {
      sock.tunnel := tunnel;
      assert SockMap() == old(SockMap())[sock := sock.Data()];
      assert TunMap() == old(TunMap());
    }

    lemma ParkedRemotesAreLive()
      requires Wired(View())
      ensures forall t :: t in waitList ==> t in tuns && (t.status == TmptunAlive ==> t.remoteSock in socks)
    {
      forall t | t in waitList ensures t in tuns && (t.status == TmptunAlive ==> t.remoteSock in socks) {
        assert t in View().tuns && View().tuns[t] == t.Data() && TunWired(View(), t);
      }
    }

    /** What the turn of the walk at an idle tunnel will find. */
    lemma IdleTurn(i: nat)
      requires Wired(View()) && i < |appList| && appList[i].status == TunnIdle
      ensures var w := View(); var k := Pool.FindPairable(w, w.wait);
        if k == |w.wait| then Pool.PairFrom(w, i) == Some(w)
        else
          var u := Pool.PairOne(w, w.app[i], w.wait[k]);
          u.Some? && Wired(u.value) && u.value.app == w.app && Pool.PairFrom(w, i) == Pool.PairFrom(u.value, i + 1)
    {
      var w := View();
      assert w.app[i] in w.tuns && w.tuns[w.app[i]] == appList[i].Data();
      Pairing.FirstPairable(w, w.wait);
      if Pairables(w, w.wait) != [] {
        var u, p := Pairing.FirstStep(w, i);
      }
    }

    lemma BusyTurn(i: nat)
      requires Wired(View()) && i < |appList| && appList[i].status != TunnIdle
      ensures Pool.PairFrom(View(), i) == Pool.PairFrom(View(), i + 1)
    {
      var w := View();
      assert w.app[i] in w.tuns && w.tuns[w.app[i]] == appList[i].Data();
    }

    /** `fndIdleConnElemt` on entry `i`, however far its handshake is: -1 ends the walk. */
    method FndIdleConnElemt(ghost i: nat, tunnel: Tunnel) returns (rc: int)
      requires Wired(View()) && i < |appList| && tunnel == appList[i]
      modifies socks, tuns
      ensures Wired(View()) && (rc == 0 || rc == -1)
      ensures if rc == -1 then Pool.PairFrom(old(View()), i) == Some(View())
              else Pool.PairFrom(old(View()), i) == Pool.PairFrom(View(), i + 1)
    {
      if tunnel.status == TunnIdle {
        IdleTurn(i);
        ParkedRemotesAreLive();
        var p := FndPairable();
        if p == null {
          return -1;
        }
        PairOne(tunnel, p);
      } else {
        BusyTurn(i);
      }
      return 0;
    }

    /** The walk over `list` has done `i` entries of the pass that started in `w`: it has ended, or it has
        reached `entry`. */
    ghost predicate Walking(w: World, list: IntrusiveList.EntryList<Tunnel>, i: nat,
                            entry: IntrusiveList.Node<Tunnel>, rc: int)
      reads this, socks, tuns, list, list.head, list.nodes
    {
      && Wired(View()) && list.Valid() && list.contents == appList && i <= |appList|
      && if rc == -1 then Pool.PairFrom(w, 0) == Some(View())
         else entry == IntrusiveList.At(list.head, list.nodes, i + 1) && Pool.PairFrom(View(), i) == Pool.PairFrom(w, 0)
    }

    /** One turn: the callback on this entry, and the step along its link. */
    method Turn(ghost w: World, list: IntrusiveList.EntryList<Tunnel>, ghost i: nat, entry: IntrusiveList.Node<Tunnel>)
      returns (next: IntrusiveList.Node<Tunnel>, rc: int)
      requires Walking(w, list, i, entry, 0) && entry != list.head
      modifies socks, tuns
      ensures i < |appList| && Walking(w, list, i + 1, next, rc)
    {
      assert entry == list.nodes[i] && entry.payload == appList[i];
      assert IntrusiveList.Linked(list.head, list.nodes, i + 1);
      rc := FndIdleConnElemt(i, entry.payload);
      next := entry.next;
    }

    /** `AppListDo` with `fndIdleConnElemt`, along the links of AppList.  The callback relinks tunnels and
        searches the other list while the walk goes on; each entry is visited once, and the links stay. */
    method AppListDo(list: IntrusiveList.EntryList<Tunnel>)
      requires Wired(View()) && list.Valid() && list.contents == appList
      modifies socks, tuns
      ensures Some(View()) == Pool.PairFrom(old(View()), 0) && Wired(View())
      ensures list.Valid() && list.contents == appList
    {
      ghost var w, i := View(), 0;
      var entry, rc := list.head.next, 0;
      assert IntrusiveList.Linked(list.head, list.nodes, 0);
      while entry != list.head && rc != -1
        invariant Walking(w, list, i, entry, rc)
        decreases |appList| - i
      {
        entry, rc := Turn(w, list, i, entry);
        i := i + 1;
      }
      WalkEnds(w, list, i, entry, rc);
    }

    lemma WalkEnds(w: World, list: IntrusiveList.EntryList<Tunnel>, i: nat, entry: IntrusiveList.Node<Tunnel>, rc: int)
      requires Walking(w, list, i, entry, rc) && (entry == list.head || rc == -1)
      ensures Some(View()) == Pool.PairFrom(w, 0)
    {
      IntrusiveList.AtInjective(list.head, list.nodes);
      assert IntrusiveList.At(list.head, list.nodes, |appList| + 1) == list.head;
    }

    /** `waitLinePairing`, in every state the server can reach.  What follows a pool in order is in order
        exactly when no tunnel got a remote before the end of its handshake. */
    method WaitLinePairing(list: IntrusiveList.EntryList<Tunnel>)
      requires Wired(View()) && list.Valid() && list.contents == appList
      modifies socks, tuns
      ensures Some(View()) == Pool.Step(old(View()), Pool.Pair) && Wired(View())
      ensures list.Valid() && list.contents == appList == old(appList)
      ensures old(PoolInv(View())) ==> (PoolInv(View()) <==> PairSafe(old(View()), 0))
    {
      ghost var w := View();
      AppListDo(list);
      if PoolInv(w) {
        PoolRuns.PassKeepsPool(w, 0);
      }
    }
  }
}
