/** What every run keeps, whether or not the pool is in order: the pointers between sockets and tunnels,
    and the places on the two lists.  And what an event leaves alone: everything that does not belong to
    the tunnels it works on. */
module Wiring {
  import opened Common
  import opened Handshake
  import opened Objects
  import opened Pool
  import opened PoolInvariant

  /** A tunnel that refers to a socket is referred to by it.  A waitList entry has no private socket, and
      no remote when it is free; an AppList tunnel is in its handshake or connected, and has no socket
      when it is free. */
  predicate TunWired(w: World, t: Tunnel)
    requires t in w.tuns
  {
    var td := w.tuns[t];
    && (td.priv != null ==> PointsBack(w, t, td.priv, true))
    && (td.remote != null ==> PointsBack(w, t, td.remote, false))
    && if t in w.wait then
         && td.hs.state == WaittingState && td.priv == null && td.status != TunnFree
         && (td.status == TmptunFree ==> td.remote == null) && (Unanswered(td.status) ==> td.remote != null)
       else
         && (InHandshake(td.hs.state) || td.hs.state == ConnectedState)
         && (td.status.TunnIdle? || td.status.TunnRun? || td.status.TunnFree?)
         && (td.status == TunnFree ==> td.priv == null && td.remote == null)
  }

  /** A private socket is the one of its tunnel, and a parked remote the one of its entry.  The remote of
      an AppList tunnel may have been replaced by another. */
  predicate SockWired(w: World, s: Sock)
    requires s in w.socks
  {
    var d := w.socks[s];
    && d.tunnel in w.tuns
    && (d.ispriv ==> w.tuns[d.tunnel].priv == s)
    && (d.tunnel in w.wait ==> w.tuns[d.tunnel].remote == s)
  }

  predicate Wired(w: World) {
    && Lists(w)
    && (forall t :: t in w.tuns ==> TunWired(w, t))
    && (forall s :: s in w.socks ==> SockWired(w, s))
  }

  /** A pool in order is wired. */
  lemma ShapeIsWired(w: World)
    requires Shape(w)
    ensures Wired(w)
  {
    forall t | t in w.tuns ensures TunWired(w, t) {
      assert t in w.wait ==> WaitOk(w, t);
      assert t in w.app ==> AppOk(w, t);
    }
    forall s | s in w.socks ensures SockWired(w, s) {
      Owner(w, s);
    }
  }

  lemma SockOwner(w: World, s: Sock)
    requires Wired(w) && s in w.socks
    ensures Known(w, s) && SockWired(w, s) && TunWired(w, w.socks[s].tunnel)
  {
    assert SockWired(w, s) && TunWired(w, w.socks[s].tunnel);
  }

  /** The sockets of `v` were there before, with the same kind; private ones belong to the same tunnel. */
  predicate NoNewSocks(w: World, v: World) {
    forall s :: s in v.socks ==>
      && s in w.socks && v.socks[s].ispriv == w.socks[s].ispriv
      && (w.socks[s].ispriv ==> v.socks[s].tunnel == w.socks[s].tunnel)
  }

  /** Only tunnel `t` and the sockets that point to it differ. */
  predicate Local(w: World, v: World, t: Tunnel) {
    && v.conf == w.conf && v.app == w.app && v.wait == w.wait && t in w.tuns && t in v.tuns
    && Elsewhere(w, v, t, t) && NoNewSocks(w, v)
  }

  lemma ElsewhereTwice(w: World, u: World, v: World, t: Tunnel, p: Tunnel)
    requires Elsewhere(w, u, t, t) && Elsewhere(u, v, t, p)
    ensures Elsewhere(w, v, t, p)
  {
  }

  lemma LocalTwice(w: World, u: World, v: World, t: Tunnel)
    requires Local(w, u, t) && Local(u, v, t)
    ensures Local(w, v, t)
  {
  }

  /** Enough to check what was touched. */
  lemma WiredByParts(w: World, v: World, t: Tunnel, p: Tunnel)
    requires Wired(w) && Elsewhere(w, v, t, p) && Lists(v)
    requires forall u :: u in v.app && u != t && u != p ==> u in w.app
    requires forall u :: u in v.wait && u != t && u != p ==> u in w.wait
    requires (t in v.tuns ==> TunWired(v, t)) && (p in v.tuns ==> TunWired(v, p))
    requires forall s :: s in v.socks && (v.socks[s].tunnel == t || v.socks[s].tunnel == p) ==> SockWired(v, s)
    ensures Wired(v)
  {
    forall u | u in v.tuns ensures TunWired(v, u) {
      if u != t && u != p {
        assert TunWired(w, u);
      }
    }
    forall s | s in v.socks ensures SockWired(v, s) {
      if v.socks[s].tunnel != t && v.socks[s].tunnel != p {
        assert SockWired(w, s);
      }
    }
  }

  /** Socket `s` of tunnel `t` is released and the tunnel becomes `td`. */
  lemma GoneIsWired(w: World, s: Sock, t: Tunnel, td: TunnelData)
    requires Wired(w) && s in w.socks && w.socks[s].tunnel == t && td.hs == w.tuns[t].hs
    requires td.priv == (if w.socks[s].ispriv then null else w.tuns[t].priv)
    requires td.remote == (if w.socks[s].ispriv then w.tuns[t].remote else null)
    requires t in w.wait ==> td.status != TunnFree && !Unanswered(td.status)
    requires t !in w.wait ==> td.status.TunnIdle? || td.status.TunnRun? || td.status.TunnFree?
    requires t !in w.wait && td.status == TunnFree ==> td.priv == null && td.remote == null
    ensures Wired(Gone(w, s, t, td)) && Local(w, Gone(w, s, t, td), t)
  {
    var v := Gone(w, s, t, td);
    SockOwner(w, s);
    assert TunWired(v, t);
    forall x | x in v.socks && v.socks[x].tunnel == t ensures SockWired(v, x) {
      assert SockWired(w, x);
    }
    WiredByParts(w, v, t, t);
  }

  /** Sockets keep their kind and their tunnel; only socket data differs, and only at tunnel `t`. */
  lemma BuffersAreWired(w: World, v: World, t: Tunnel)
    requires Wired(w) && t in w.tuns && v == w.(socks := v.socks) && v.socks.Keys == w.socks.Keys
    requires forall s :: s in w.socks ==>
      v.socks[s].tunnel == w.socks[s].tunnel && v.socks[s].ispriv == w.socks[s].ispriv
    requires forall s :: s in w.socks && w.socks[s].tunnel != t ==> v.socks[s] == w.socks[s]
    ensures Wired(v) && Local(w, v, t)
  {
    forall u | u in v.tuns ensures TunWired(v, u) {
      assert TunWired(w, u);
    }
    forall s | s in v.socks ensures SockWired(v, s) {
      assert SockWired(w, s);
    }
  }

  // ----- closing

  /** Closing keeps the handshake fields of every tunnel, and the unread bytes of the sockets that stay. */
  predicate Closes(w: World, v: World, t: Tunnel) {
    && Local(w, v, t) && v.tuns[t].hs == w.tuns[t].hs
    && forall s :: s in v.socks ==> s in w.socks && v.socks[s].rbuf == w.socks[s].rbuf
  }

  lemma ForceShutdownCloses(w: World, s: Sock)
    requires Wired(w) && s in w.socks
    ensures SockForceShutdown(w, s).Some?
    ensures var v := SockForceShutdown(w, s).value; Wired(v) && Closes(w, v, w.socks[s].tunnel)
  {
    SockOwner(w, s);
    ForceShutdownIs(w, s);
    var t := w.socks[s].tunnel;
    GoneIsWired(w, s, t, SockForceShutdown(w, s).value.tuns[t]);
  }

  /** What closing the private socket leaves: a free tunnel, or an idle one when it also closes the remote. */
  lemma ClosePrivateIs(w: World, s: Sock, t: Tunnel)
    requires Wired(w) && s in w.socks && w.socks[s].tunnel == t && w.tuns[t].priv == s
    ensures var td, r := w.tuns[t], w.tuns[t].remote;
      ClosePrivate(w, s, t) == Some(
        if r == null then Gone(w, s, t, td.(status := TunnFree, priv := null))
        else Gone(Gone(w, s, t, td.(priv := null)), r, t, td.(status := TunnIdle, priv := null, remote := null)))
  {
    SockOwner(w, s);
    ForceShutdownIs(w, s);
    var td, r := w.tuns[t], w.tuns[t].remote;
    var free := td.(status := TunnFree, priv := null);
    PutTwice(w.tuns, t, td.(priv := null), free);
    if r != null {
      ForceShutdownIs(Gone(w, s, t, free), r);
      var idle := td.(status := TunnIdle, priv := null, remote := null);
      PutTwice(w.tuns, t, td.(priv := null), idle);
      PutTwice(w.tuns, t, free, idle);
      PutTwice(w.tuns[t := free], t, idle, idle);
    }
  }

  lemma ClosePrivateCloses(w: World, s: Sock, t: Tunnel)
    requires Wired(w) && s in w.socks && w.socks[s].tunnel == t && w.tuns[t].priv == s
    ensures ClosePrivate(w, s, t).Some?
    ensures var v := ClosePrivate(w, s, t).value;
      Wired(v) && Closes(w, v, t) && v.tuns[t].remote == null && v.tuns[t].status != TmptunClose
  {
    SockOwner(w, s);
    ClosePrivateIs(w, s, t);
    var td, r := w.tuns[t], w.tuns[t].remote;
    if r == null {
      GoneIsWired(w, s, t, td.(status := TunnFree, priv := null));
    } else {
      var u := Gone(w, s, t, td.(priv := null));
      GoneIsWired(w, s, t, td.(priv := null));
      GoneIsWired(u, r, t, td.(status := TunnIdle, priv := null, remote := null));
      LocalTwice(w, u, ClosePrivate(w, s, t).value, t);
    }
  }

  lemma CloseRemoteCloses(w: World, s: Sock, t: Tunnel)
    requires Wired(w) && s in w.socks && w.socks[s].tunnel == t && w.tuns[t].priv != s
    ensures CloseRemote(w, s, t).Some?
    ensures var v := CloseRemote(w, s, t).value; Wired(v) && Closes(w, v, t) && v.tuns[t].status != TmptunClose
  {
    SockOwner(w, s);
    ForceShutdownIs(w, s);
    var td := w.tuns[t];
    if s == td.remote && (td.hs.state == ConnectedState || td.hs.state == WaittingState) {
      var freed := if td.status == TmptunClose then td.(status := TmptunFree, remote := null)
                   else td.(status := TunnIdle, remote := null);
      var end := td.(status := if td.hs.state == ConnectedState then TunnIdle else TmptunFree, remote := null);
      PutTwice(w.tuns, t, freed, end);
      GoneIsWired(w, s, t, end);
    }
  }

  lemma DrainedCloses(w: World, s: Sock, t: Tunnel)
    requires Wired(w) && s in w.socks && w.socks[s].tunnel == t
    ensures CloseDrained(w, s, t).Some?
    ensures var v := CloseDrained(w, s, t).value; Wired(v) && Closes(w, v, t)
  {
    SockOwner(w, s);
    if w.tuns[t].priv == s {
      ClosePrivateCloses(w, s, t);
    } else {
      CloseRemoteCloses(w, s, t);
    }
  }

  /** The data of one socket changes, but not its kind or its tunnel. */
  lemma SockChanges(w: World, s: Sock, d: SockData)
    requires Wired(w) && s in w.socks && d.tunnel == w.socks[s].tunnel && d.ispriv == w.socks[s].ispriv
    ensures Wired(PutSock(w, s, d)) && Local(w, PutSock(w, s, d), d.tunnel)
  {
    SockOwner(w, s);
    BuffersAreWired(w, PutSock(w, s, d), d.tunnel);
  }

  /** The socket is marked and may take over what the private side has left; what follows depends on
      whether it has something to write. */
  lemma ShutdownUnfolds(w: World, s: Sock) returns (d: SockData)
    requires Known(w, s) && SockShutdown(w, s).Some?
    ensures d == w.socks[s].(state := SockHalfclosed, wbuf := d.wbuf)
    ensures SockShutdown(w, s) ==
      if d.wbuf != [] then Some(PutSock(w, s, Poll(d, true, false)))
      else CloseDrained(PutSock(w, s, d), s, d.tunnel)
  {
    var t, d0 := w.socks[s].tunnel, w.socks[s].(state := SockHalfclosed);
    var w0 := PutSock(w, s, d0);
    d := ForwardLeft(w0, s, t).value.socks[s];
    PutTwice(w.socks, s, d0, d);
    assert ForwardLeft(w0, s, t) == Some(PutSock(w, s, d));
    PutTwice(w.socks, s, d, Poll(d, true, false));
  }

  lemma ShutdownCloses(w: World, s: Sock)
    requires Wired(w) && s in w.socks && SockShutdown(w, s).Some?
    ensures var v := SockShutdown(w, s).value; Wired(v) && Closes(w, v, w.socks[s].tunnel)
  {
    SockOwner(w, s);
    var d := ShutdownUnfolds(w, s);
    if d.wbuf != [] {
      SockChanges(w, s, Poll(d, true, false));
    } else {
      var w1 := PutSock(w, s, d);
      SockChanges(w, s, d);
      DrainedCloses(w1, s, d.tunnel);
      LocalTwice(w, w1, CloseDrained(w1, s, d.tunnel).value, d.tunnel);
    }
  }

  lemma TunnelShutdownCloses(w: World, s: Sock, t: Tunnel)
    requires Wired(w) && s in w.socks && w.socks[s].tunnel == t && TunnelShutdown(w, t, s).Some?
    ensures var v := TunnelShutdown(w, t, s).value; Wired(v) && Closes(w, v, t)
  {
    SockOwner(w, s);
    if s == w.tuns[t].priv {
      ShutdownCloses(w, s);
      var w1 := SockShutdown(w, s).value;
      assert TunWired(w1, t) && s != w1.tuns[t].remote;
    } else if s == w.tuns[t].remote {
      ShutdownCloses(w, s);
    }
  }

  // ----- reading

  lemma ForwardedIsWired(w: World, t: Tunnel, from: Sock, to: Sock)
    requires Wired(w) && t in w.tuns && from in w.socks && to in w.socks && from != to
    requires w.socks[from].tunnel == w.socks[to].tunnel == t
    ensures Forward(w, from, to) == Some(Forwarded(w, from, to))
    ensures Wired(Forwarded(w, from, to)) && Local(w, Forwarded(w, from, to), t)
  {
    ForwardIs(w, from, to);
    BuffersAreWired(w, Forwarded(w, from, to), t);
  }

  /** Only the buffers and the interest of sockets of tunnel `t` change. */
  lemma ConnectedMoves(w: World, t: Tunnel, s: Sock)
    requires Wired(w) && s in w.socks && w.socks[s].tunnel == t && ConnectedHandle(w, t, s).Some?
    ensures var v := ConnectedHandle(w, t, s).value.0; Wired(v) && Local(w, v, t) && v.tuns == w.tuns && s in v.socks
  {
    SockOwner(w, s);
    var p, r := w.tuns[t].priv, w.tuns[t].remote;
    if ConnectedHandle(w, t, s).value.0 != w {
      if w.socks[s].ispriv {
        ForwardedIsWired(w, t, p, r);
      } else {
        ForwardedIsWired(w, t, r, p);
      }
    }
  }

  lemma WaittingAnswers(w: World, t: Tunnel)
    requires Wired(w) && t in w.wait && WaittingHandle(w, t).Some?
    ensures var v := WaittingHandle(w, t).value; Wired(v) && Local(w, v, t) && v.tuns[t].hs == w.tuns[t].hs
  {
    assert TunWired(w, t);
    var v := WaittingHandle(w, t).value;
    assert TunWired(v, t);
    forall x | x in v.socks && v.socks[x].tunnel == t ensures SockWired(v, x) {
      assert SockWired(w, x);
    }
    WiredByParts(w, v, t, t);
  }

  /** What a handler leaves behind keeps the wiring. */
  lemma HandlerKeepsWiring(w: World, t: Tunnel, o: Out)
    requires Wired(w) && t in w.tuns && InHandshake(w.tuns[t].hs.state) && w.tuns[t].priv in w.socks
    requires InHandshake(o.h.state) || o.h.state == ConnectedState
    ensures Wired(AfterHandler(w, t, o)) && Local(w, AfterHandler(w, t, o), t)
  {
    var v := AfterHandler(w, t, o);
    assert TunWired(w, t);
    assert TunWired(v, t);
    forall x | x in v.socks && v.socks[x].tunnel == t ensures SockWired(v, x) {
      assert SockWired(w, x);
    }
    WiredByParts(w, v, t, t);
  }

  lemma HandlerState(conf: Config, h: Hs, buf: seq<byte>)
    requires InHandshake(h.state)
    ensures var o := Handle(conf, h, buf);
      o.verdict != Abort ==> InHandshake(o.h.state) || (h.state == RequestState && o.h.state == ConnectedState)
  {
    StateStaysPrivate(conf, h, buf);
    RejectKeepsState(conf, h, buf);
  }

  /** How a dispatch on socket `s` of tunnel `t` treats the handshake fields and the private input: one
      handler runs on them, or they stay. */
  predicate RunsHandler(w: World, v: World, s: Sock, t: Tunnel)
    requires t in w.tuns && t in v.tuns
  {
    var td, p := w.tuns[t], w.tuns[t].priv;
    if InHandshake(td.hs.state) then
      && p in w.socks
      && var o := Handle(w.conf, td.hs, w.socks[p].rbuf);
      && o.verdict != Abort && v.tuns[t].hs == o.h
      && (p in v.socks ==> v.socks[p].rbuf == o.buf)
      && (s == p && p in v.socks ==> o.verdict == Proceed)
    else v.tuns[t].hs == td.hs
  }

  lemma HandshakeDispatches(w: World, s: Sock, t: Tunnel)
    requires Wired(w) && s in w.socks && w.socks[s].tunnel == t && InHandshake(w.tuns[t].hs.state)
    requires HandshakeHandle(w, t, s).Some?
    ensures var v := HandshakeHandle(w, t, s).value; Wired(v) && Local(w, v, t) && RunsHandler(w, v, s, t)
  {
    SockOwner(w, s);
    var td := w.tuns[t];
    var o := Handle(w.conf, td.hs, w.socks[td.priv].rbuf);
    HandlerState(w.conf, td.hs, w.socks[td.priv].rbuf);
    HandlerKeepsWiring(w, t, o);
    var w1 := AfterHandler(w, t, o);
    if o.verdict == Reject {
      ForceShutdownCloses(w1, s);
      ForceShutdownIs(w1, s);
      LocalTwice(w, w1, SockForceShutdown(w1, s).value, t);
    }
  }

  lemma DispatchIsLocal(w: World, s: Sock)
    requires Wired(w) && s in w.socks && Dispatch(w, s).Some?
    ensures var v, t := Dispatch(w, s).value, w.socks[s].tunnel; Wired(v) && Local(w, v, t) && RunsHandler(w, v, s, t)
  {
    SockOwner(w, s);
    var t := w.socks[s].tunnel;
    if InHandshake(w.tuns[t].hs.state) {
      HandshakeDispatches(w, s, t);
    } else if w.tuns[t].hs.state == ConnectedState {
      ConnectedMoves(w, t, s);
      var (w1, ok) := ConnectedHandle(w, t, s).value;
      if !ok {
        TunnelShutdownCloses(w1, s, t);
        LocalTwice(w, w1, TunnelShutdown(w1, t, s).value, t);
      }
    } else {
      WaittingAnswers(w, t);
    }
  }

  /** The world a handler sees: the bytes of a read event have been appended. */
  function Arrived(w: World, s: Sock, got: ReadResult): World
    requires s in w.socks
  {
    if got.Data? then PutSock(w, s, w.socks[s].(rbuf := w.socks[s].rbuf + got.bytes)) else w
  }

  predicate Ended(got: ReadResult) {
    got.Fin? || got.ReadError?
  }

  lemma ArrivalIsLocal(w: World, s: Sock, got: ReadResult)
    requires Wired(w) && s in w.socks
    ensures var w1 := Arrived(w, s, got);
      Wired(w1) && Local(w, w1, w.socks[s].tunnel) && s in w1.socks && w1.socks[s].tunnel == w.socks[s].tunnel
  {
    SockOwner(w, s);
    assert PutSock(w, s, w.socks[s]) == w;
    SockChanges(w, s, Arrived(w, s, got).socks[s]);
  }

  /** A read event works on the tunnel of its socket and on nothing else.  It runs one handler if that
      tunnel is in its handshake, and otherwise keeps its handshake fields. */
  lemma ReadIsLocal(w: World, s: Sock, got: ReadResult)
    requires Wired(w) && s in w.socks && ReadHandle(w, s, got).Some?
    ensures var v, t := ReadHandle(w, s, got).value, w.socks[s].tunnel;
      && Wired(v) && Local(w, v, t)
      && if Ended(got) then Closes(w, v, t) else RunsHandler(Arrived(w, s, got), v, s, t)
  {
    SockOwner(w, s);
    if Ended(got) {
      ShutdownCloses(w, s);
    } else {
      var w1 := Arrived(w, s, got);
      ArrivalIsLocal(w, s, got);
      DispatchIsLocal(w1, s);
      LocalTwice(w, w1, ReadHandle(w, s, got).value, w.socks[s].tunnel);
    }
  }

  // ----- writing

  lemma ParkedTuns(w: World, v: World, s: Sock, t: Tunnel, c: Tunnel, hs: Hs)
    requires Lists(v) && s in w.socks && t in w.tuns && TunWired(w, t) && w.tuns[t].remote == s && t != c
    requires t !in v.wait && c in v.wait && t !in w.wait && hs.state == WaittingState
    requires v == Parked(w, s, t, c, v.wait, hs)
    ensures TunWired(v, t) && TunWired(v, c)
  {
  }

  /** No socket points to a tunnel that is free on the waitList or does not exist yet. */
  lemma FreeEntryIsEmpty(w: World, s: Sock, c: Tunnel)
    requires Wired(w) && s in w.socks
    requires c !in w.tuns || (c in w.wait && w.tuns[c].status == TmptunFree)
    ensures w.socks[s].tunnel != c
  {
    SockOwner(w, s);
  }

  lemma ParkedSock(w: World, v: World, s: Sock, t: Tunnel, c: Tunnel, hs: Hs, x: Sock)
    requires Wired(w) && s in w.socks && w.socks[s].tunnel == t && w.tuns[t].remote == s
    requires c !in w.tuns || (c in w.wait && w.tuns[c].status == TmptunFree)
    requires t !in v.wait && v == Parked(w, s, t, c, v.wait, hs)
    requires x in v.socks && (v.socks[x].tunnel == t || v.socks[x].tunnel == c)
    ensures SockWired(v, x)
  {
    SockOwner(w, s);
    SockOwner(w, x);
    FreeEntryIsEmpty(w, x, c);
  }

  /** A drained remote moves to a free or new entry of the waitList. */
  lemma ParkingIsWired(w: World, s: Sock, t: Tunnel, c: Tunnel, hs: Hs)
    requires Wired(w) && s in w.socks && w.socks[s].tunnel == t && w.tuns[t].remote == s
    requires w.tuns[t].status == TunnRun && t !in w.wait
    requires c !in w.tuns || (c in w.wait && w.tuns[c].status == TmptunFree)
    requires hs.state == WaittingState
    ensures Wired(Parked(w, s, t, c, if c in w.tuns then w.wait else [c] + w.wait, hs))
  {
    SockOwner(w, s);
    var v := Parked(w, s, t, c, if c in w.tuns then w.wait else [c] + w.wait, hs);
    ParkedLists(w, v, c);
    ParkedElsewhere(w, v, s, t, c, hs);
    ParkedTuns(w, v, s, t, c, hs);
    forall x | x in v.socks && (v.socks[x].tunnel == t || v.socks[x].tunnel == c) ensures SockWired(v, x) {
      ParkedSock(w, v, s, t, c, hs, x);
    }
    WiredByParts(w, v, t, c);
  }

  /** What a write event on socket `s` leaves alone: `c` is its tunnel, or the place it is parked on. */
  predicate Writes(w: World, v: World, s: Sock, c: Tunnel) {
    && s in w.socks && v.conf == w.conf && v.app == w.app && Elsewhere(w, v, w.socks[s].tunnel, c) && NoNewSocks(w, v)
    && (c == w.socks[s].tunnel || c !in w.tuns || (c in w.wait && w.tuns[c].status == TmptunFree))
    && (forall t :: t in w.tuns && t !in w.wait ==> t in v.tuns && t !in v.wait && v.tuns[t].hs == w.tuns[t].hs)
    && (forall x :: x in v.socks ==> x in w.socks && v.socks[x].rbuf == w.socks[x].rbuf)
  }

  lemma ParkingWrites(w: World, v: World, s: Sock, t: Tunnel, c: Tunnel, hs: Hs)
    requires s in w.socks && w.socks[s].tunnel == t && !w.socks[s].ispriv && t in w.tuns && t !in w.wait
    requires c !in w.tuns || (c in w.wait && w.tuns[c].status == TmptunFree)
    requires v == Parked(w, s, t, c, if c in w.tuns then w.wait else [c] + w.wait, hs) && w.socks[s].wbuf == []
    ensures Writes(w, v, s, c)
  {
    ParkedElsewhere(w, v, s, t, c, hs);
  }

  /** What the socket has to write, and its interest. */
  lemma OutputChanges(w: World, s: Sock, d: SockData)
    requires Wired(w) && s in w.socks && d == w.socks[s].(wbuf := d.wbuf, pollIn := d.pollIn, pollOut := d.pollOut)
    ensures Wired(PutSock(w, s, d)) && Writes(w, PutSock(w, s, d), s, d.tunnel)
  {
    SockChanges(w, s, d);
  }

  lemma ClosingWrites(w: World, v: World, s: Sock)
    requires Wired(w) && Wired(v) && s in w.socks && Closes(w, v, w.socks[s].tunnel)
    ensures Writes(w, v, s, w.socks[s].tunnel)
  {
  }

  lemma WritesTwice(w: World, s: Sock, d: SockData, v: World, c: Tunnel)
    requires Wired(w) && s in w.socks && d == w.socks[s].(wbuf := d.wbuf) && Writes(PutSock(w, s, d), v, s, c)
    ensures Writes(w, v, s, c)
  {
    SockOwner(w, s);
    SockChanges(w, s, d);
    ElsewhereTwice(w, PutSock(w, s, d), v, d.tunnel, c);
  }

  lemma NoPrivateWaits(w: World)
    requires Wired(w)
    ensures forall u :: u in w.wait ==> u in w.tuns && w.tuns[u].priv == null
  {
    forall u | u in w.wait ensures w.tuns[u].priv == null {
      assert TunWired(w, u);
    }
  }

  lemma DrainedParks(w: World, s: Sock, t: Tunnel, nt: Tunnel) returns (c: Tunnel, hs: Hs)
    requires s in w.socks && w.socks[s].wbuf == [] && t in w.tuns && t !in w.wait && nt !in w.tuns
    requires w.tuns[t].status == TunnRun && s == w.tuns[t].remote && SwitchHandle(w, s, t, nt).Some?
    requires forall u :: u in w.wait ==> u in w.tuns && w.tuns[u].priv == null
    ensures hs.state == WaittingState && (c == nt || (c in w.wait && w.tuns[c].status == TmptunFree))
    ensures SwitchHandle(w, s, t, nt) == Some(Parked(w, s, t, c, if c in w.tuns then w.wait else [c] + w.wait, hs))
  {
    assert PutSock(w, s, w.socks[s].(wbuf := [])) == w;
    c, hs := SwitchIs(w, w, s, t, nt);
  }

  lemma SwitchParks(w: World, s: Sock, nt: Tunnel) returns (c: Tunnel, hs: Hs)
    requires Wired(w) && s in w.socks && w.socks[s].wbuf == [] && nt !in w.tuns && w.socks[s].tunnel in w.tuns
    requires w.tuns[w.socks[s].tunnel].status == TunnRun && s == w.tuns[w.socks[s].tunnel].remote
    requires SwitchHandle(w, s, w.socks[s].tunnel, nt).Some?
    ensures hs.state == WaittingState && (c == nt || (c in w.wait && w.tuns[c].status == TmptunFree))
    ensures w.socks[s].tunnel !in w.wait
    ensures SwitchHandle(w, s, w.socks[s].tunnel, nt)
         == Some(Parked(w, s, w.socks[s].tunnel, c, if c in w.tuns then w.wait else [c] + w.wait, hs))
  {
    SockOwner(w, s);
    NoPrivateWaits(w);
    c, hs := DrainedParks(w, s, w.socks[s].tunnel, nt);
  }

  lemma SwitchIsLocal(w: World, s: Sock, nt: Tunnel) returns (c: Tunnel)
    requires Wired(w) && s in w.socks && w.socks[s].tunnel in w.tuns && w.tuns[w.socks[s].tunnel].status == TunnRun
    requires nt !in w.tuns && SwitchHandle(w, s, w.socks[s].tunnel, nt).Some?
    ensures var v := SwitchHandle(w, s, w.socks[s].tunnel, nt).value; Wired(v) && Writes(w, v, s, c)
  {
    SockOwner(w, s);
    var t, d := w.socks[s].tunnel, w.socks[s];
    c := t;
    if d.wbuf != [] {
      OutputChanges(w, s, Poll(d, true, true));
    } else if s != w.tuns[t].remote {
      OutputChanges(w, s, Poll(d, false, true));
    } else {
      var hs;
      c, hs := SwitchParks(w, s, nt);
      ParkingIsWired(w, s, t, c, hs);
      ParkingWrites(w, SwitchHandle(w, s, t, nt).value, s, t, c, hs);
    }
  }

  lemma AfterWriteIsLocal(w: World, s: Sock, d: SockData, nt: Tunnel) returns (c: Tunnel)
    requires Wired(w) && s in w.socks && nt !in w.tuns && d == w.socks[s].(wbuf := d.wbuf) && d.tunnel in w.tuns
    requires AfterWrite(PutSock(w, s, d), s, d.tunnel, nt).Some?
    ensures var v := AfterWrite(PutSock(w, s, d), s, d.tunnel, nt).value; Wired(v) && Writes(w, v, s, c)
  {
    var w1 := PutSock(w, s, d);
    OutputChanges(w, s, d);
    if w.tuns[d.tunnel].status == TunnRun {
      c := SwitchIsLocal(w1, s, nt);
      WritesTwice(w, s, d, AfterWrite(w1, s, d.tunnel, nt).value, c);
    } else {
      c := d.tunnel;
      PutTwice(w.socks, s, d, Poll(d, d.wbuf != [], true));
      OutputChanges(w, s, Poll(d, d.wbuf != [], true));
    }
  }

  lemma WriteIsLocal(w: World, s: Sock, put: WriteResult, nt: Tunnel) returns (c: Tunnel)
    requires Wired(w) && s in w.socks && nt !in w.tuns && WriteHandle(w, s, put, nt).Some?
    ensures var v := WriteHandle(w, s, put, nt).value; Wired(v) && Writes(w, v, s, c)
  {
    SockOwner(w, s);
    var d, t := w.socks[s], w.socks[s].tunnel;
    if (d.wbuf != [] && put.WriteError?) || (d.wbuf == [] && d.state == SockHalfclosed) {
      c := t;
      ForceShutdownCloses(w, s);
      ClosingWrites(w, SockForceShutdown(w, s).value, s);
    } else {
      var d1 := d.(wbuf := if put.Wrote? && d.wbuf != [] then d.wbuf[put.n..] else d.wbuf);
      assert PutSock(w, s, d) == w;
      assert WriteHandle(w, s, put, nt) == AfterWrite(PutSock(w, s, d1), s, t, nt);
      c := AfterWriteIsLocal(w, s, d1, nt);
    }
  }

  // ----- accepting

  /** A new socket, attached to tunnel `t`, which is old or new. */
  lemma AttachedIsWired(w: World, v: World, t: Tunnel, s: Sock, d: SockData)
    requires Wired(w) && Lists(v) && s !in w.socks && v.socks == w.socks[s := d] && d.tunnel == t
    requires t in v.tuns && v.tuns == w.tuns[t := v.tuns[t]]
    requires forall u :: u in v.app && u != t ==> u in w.app
    requires forall u :: u in v.wait && u != t ==> u in w.wait
    requires t in w.tuns ==> (t in v.wait <==> t in w.wait) && (d.ispriv ==> w.tuns[t].priv == null)
    requires t in w.tuns && !d.ispriv ==> v.tuns[t].priv == w.tuns[t].priv
    requires t in w.tuns && t in w.wait ==> w.tuns[t].remote == null
    requires TunWired(v, t) && SockWired(v, s)
    ensures Wired(v) && Elsewhere(w, v, t, t)
  {
    forall x | x in v.socks && v.socks[x].tunnel == t ensures SockWired(v, x) {
      if x != s {
        assert SockWired(w, x);
      }
    }
    WiredByParts(w, v, t, t);
  }

  lemma AcceptPrivateIsLocal(w: World, ns: Sock, nt: Tunnel)
    requires Wired(w) && ns !in w.socks && nt !in w.tuns
    ensures AcceptPriv(w, ns, nt).Some?
    ensures var v, t := AcceptPriv(w, ns, nt).value, Target(w, w.app, TunnFree, nt);
      && Wired(v) && Elsewhere(w, v, t, t) && t in v.app && v.wait == w.wait && v.conf == w.conf
      && v.socks == w.socks[ns := FreshSock(true, t)] && t in v.tuns && v.tuns[t].priv == ns
      && v.tuns[t].hs == (if t in w.tuns then w.tuns[t].hs else ZERO_HS).(state := OpenState, readCount := 0)
  {
    var v, t := AcceptPriv(w, ns, nt).value, Target(w, w.app, TunnFree, nt);
    if t in w.tuns {
      assert TunWired(w, t);
      PutTwice(w.tuns, t, w.tuns[t].(status := TunnRun, hs := w.tuns[t].hs.(state := OpenState)), v.tuns[t]);
    } else {
      PutTwice(w.tuns, nt, TunnelData(null, null, ZERO_HS, TunnIdle), v.tuns[nt]);
      ListsGrow(w, v, nt);
    }
    assert TunWired(v, t);
    AttachedIsWired(w, v, t, ns, FreshSock(true, t));
  }

  /** The tunnel an accepted remote goes to. */
  function RemoteTarget(w: World, nt: Tunnel): Tunnel {
    var k := FindStatus(w.tuns, w.app, TunnIdle);
    if k < |w.app| then w.app[k] else Target(w, w.wait, TmptunFree, nt)
  }

  lemma JoinIsLocal(w: World, ns: Sock, nt: Tunnel, t: Tunnel)
    requires Wired(w) && ns !in w.socks && AcceptRmt(w, ns, nt).Some?
    requires FindStatus(w.tuns, w.app, TunnIdle) < |w.app| && t == w.app[FindStatus(w.tuns, w.app, TunnIdle)]
    ensures var v := AcceptRmt(w, ns, nt).value;
      && Wired(v) && Elsewhere(w, v, t, t) && v.app == w.app && v.wait == w.wait && v.conf == w.conf
      && v.socks == w.socks[ns := FreshSock(false, t)] && t in v.tuns && v.tuns[t].remote == ns
      && v.tuns[t].hs == w.tuns[t].hs.(state := ConnectedState, readCount := 0)
  {
    assert TunWired(w, t);
    var v := AcceptRmt(w, ns, nt).value;
    PutTwice(w.tuns, t, w.tuns[t].(status := TunnRun), v.tuns[t]);
    assert TunWired(v, t);
    AttachedIsWired(w, v, t, ns, FreshSock(false, t));
  }

  lemma ReuseEntryIsLocal(w: World, ns: Sock, nt: Tunnel, t: Tunnel)
    requires Wired(w) && ns !in w.socks && FindStatus(w.tuns, w.app, TunnIdle) == |w.app|
    requires FindStatus(w.tuns, w.wait, TmptunFree) < |w.wait| && t == w.wait[FindStatus(w.tuns, w.wait, TmptunFree)]
    ensures AcceptRmt(w, ns, nt).Some?
    ensures var v := AcceptRmt(w, ns, nt).value;
      && Wired(v) && Elsewhere(w, v, t, t) && v.app == w.app && v.wait == w.wait && v.conf == w.conf
      && v.socks == w.socks[ns := FreshSock(false, t)] && t in v.tuns && v.tuns[t].remote == ns
  {
    assert TunWired(w, t);
    var v := AcceptRmt(w, ns, nt).value;
    PutTwice(w.tuns, t, w.tuns[t].(hs := w.tuns[t].hs.(state := WaittingState), status := TmptunWait), v.tuns[t]);
    assert TunWired(v, t);
    AttachedIsWired(w, v, t, ns, FreshSock(false, t));
  }

  lemma NewEntryIsLocal(w: World, ns: Sock, nt: Tunnel)
    requires Wired(w) && ns !in w.socks && nt !in w.tuns && FindStatus(w.tuns, w.app, TunnIdle) == |w.app|
    requires FindStatus(w.tuns, w.wait, TmptunFree) == |w.wait|
    ensures AcceptRmt(w, ns, nt).Some?
    ensures var v := AcceptRmt(w, ns, nt).value;
      && Wired(v) && Elsewhere(w, v, nt, nt) && v.app == w.app && v.wait == [nt] + w.wait && v.conf == w.conf
      && v.socks == w.socks[ns := FreshSock(false, nt)] && nt in v.tuns && v.tuns[nt].remote == ns
  {
    var v := AcceptRmt(w, ns, nt).value;
    var td := TunnelData(null, ns, ZERO_HS.(state := WaittingState), TmptunWait);
    PutTwice(w.tuns, nt, td.(remote := null), td);
    ListsGrow(w, v, nt);
    assert TunWired(v, nt);
    AttachedIsWired(w, v, nt, ns, FreshSock(false, nt));
  }

  lemma AcceptRemoteIsLocal(w: World, ns: Sock, nt: Tunnel)
    requires Wired(w) && ns !in w.socks && nt !in w.tuns && AcceptRmt(w, ns, nt).Some?
    ensures var v, t := AcceptRmt(w, ns, nt).value, RemoteTarget(w, nt);
      && Wired(v) && Elsewhere(w, v, t, t) && v.app == w.app && v.conf == w.conf
      && v.socks == w.socks[ns := FreshSock(false, t)] && t in v.tuns && v.tuns[t].remote == ns
      && (t in w.app <==> FindStatus(w.tuns, w.app, TunnIdle) < |w.app|)
      && (t in w.app ==> v.wait == w.wait && v.tuns[t].hs == w.tuns[t].hs.(state := ConnectedState, readCount := 0))
      && (t !in w.app ==> t in v.wait)
      && (forall u :: u in w.app ==> u !in v.wait)
  {
    var t := RemoteTarget(w, nt);
    if FindStatus(w.tuns, w.app, TunnIdle) < |w.app| {
      JoinIsLocal(w, ns, nt, t);
    } else if FindStatus(w.tuns, w.wait, TmptunFree) < |w.wait| {
      ReuseEntryIsLocal(w, ns, nt, t);
    } else {
      NewEntryIsLocal(w, ns, nt);
    }
  }
}
