/** What every event of the server keeps, and exactly which events it can survive. */
module PoolInvariant {
  import opened Common
  import opened Handshake
  import opened Objects
  import opened Pool

  // ----- the invariant

  predicate NoDup<T(==)>(l: seq<T>) {
    forall i, j :: 0 <= i < j < |l| ==> l[i] != l[j]
  }

  /** The lists are apart, and every tunnel is on one of them. */
  predicate Lists(w: World) {
    && NoDup(w.app) && NoDup(w.wait)
    && (forall t :: t in w.app ==> t !in w.wait)
    && (forall t :: t in w.app ==> t in w.tuns)
    && (forall t :: t in w.wait ==> t in w.tuns)
    && (forall t :: t in w.tuns ==> t in w.app || t in w.wait)
  }

  /** `s` is live, of the right kind, and points back to `t`. */
  predicate PointsBack(w: World, t: Tunnel, s: Sock?, ispriv: bool) {
    s in w.socks && w.socks[s].ispriv == ispriv && w.socks[s].tunnel == t
  }

  /** A tunnel on AppList: it has a remote exactly when it is connected and run. */
  predicate AppOk(w: World, t: Tunnel)
    requires t in w.tuns
  {
    var td := w.tuns[t];
    && (td.status.TunnIdle? || td.status.TunnRun? || td.status.TunnFree?)
    && (InHandshake(td.hs.state) || td.hs.state == ConnectedState)
    && (td.remote != null <==> td.hs.state == ConnectedState && td.status == TunnRun)
    && (td.hs.state == ConnectedState && td.status != TunnFree ==> td.priv != null)
    && (td.status == TunnFree ==> td.priv == null)
    && (td.priv != null ==> Resumable(td.hs) && PointsBack(w, t, td.priv, true))
    && (td.remote != null ==> PointsBack(w, t, td.remote, false))
  }

  predicate Unanswered(st: Status) {
    st.TmptunWait? || st.TmptunAlive?
  }

  /** A place on the waitList: it has no remote exactly when it is free, and a remote in wait or alive
      status has nothing left to be written. */
  predicate WaitOk(w: World, t: Tunnel)
    requires t in w.tuns
  {
    var td := w.tuns[t];
    && (Unanswered(td.status) || td.status.TmptunFree? || td.status.TmptunClose?)
    && td.hs.state == WaittingState && td.priv == null
    && (td.remote == null <==> td.status == TmptunFree)
    && (td.remote != null ==> PointsBack(w, t, td.remote, false))
    && (Unanswered(td.status) ==> w.socks[td.remote].wbuf == [])
  }

  /** A live socket: its tunnel points to it, EPOLLOUT is armed exactly while there is something to
      write, and it is never left without any interest. */
  predicate SockOk(w: World, s: Sock)
    requires s in w.socks
  {
    var d := w.socks[s];
    && d.tunnel in w.tuns
    && (if d.ispriv then w.tuns[d.tunnel].priv == s else w.tuns[d.tunnel].remote == s)
    && (d.pollOut <==> d.wbuf != [])
    && (d.pollIn || d.pollOut)
  }

  predicate Shape(w: World) {
    && Lists(w)
    && (forall t :: t in w.app ==> AppOk(w, t))
    && (forall t :: t in w.wait ==> WaitOk(w, t))
    && (forall s :: s in w.socks ==> SockOk(w, s))
  }

  /** Between events no remote has unread input. */
  predicate Drained(w: World) {
    forall s :: s in w.socks && !w.socks[s].ispriv ==> w.socks[s].rbuf == []
  }

  predicate PoolInv(w: World) {
    Shape(w) && Drained(w)
  }

  // ----- a change that touches few objects

  /** Apart from tunnels `t` and `p` and the sockets that point to them the worlds agree. */
  predicate Elsewhere(w: World, v: World, t: Tunnel, p: Tunnel) {
    && (forall s :: s in w.socks && w.socks[s].tunnel != t && w.socks[s].tunnel != p ==>
          s in v.socks && v.socks[s] == w.socks[s])
    && (forall s :: s in v.socks && v.socks[s].tunnel != t && v.socks[s].tunnel != p ==>
          s in w.socks && w.socks[s] == v.socks[s])
    && (forall u :: u in w.tuns && u != t && u != p ==> u in v.tuns && v.tuns[u] == w.tuns[u])
    && (forall u :: u in v.tuns && u != t && u != p ==> u in w.tuns)
  }

  /** Enough to check what was touched. */
  lemma ShapeByParts(w: World, v: World, t: Tunnel, p: Tunnel)
    requires Shape(w) && Elsewhere(w, v, t, p) && Lists(v)
    requires forall u :: u in v.app && u != t && u != p ==> u in w.app
    requires forall u :: u in v.wait && u != t && u != p ==> u in w.wait
    requires (t in v.app ==> AppOk(v, t)) && (p in v.app ==> AppOk(v, p))
    requires (t in v.wait ==> WaitOk(v, t)) && (p in v.wait ==> WaitOk(v, p))
    requires forall s :: s in v.socks && (v.socks[s].tunnel == t || v.socks[s].tunnel == p) ==> SockOk(v, s)
    ensures Shape(v)
  {
    forall u | u in v.app && u != t && u != p ensures AppOk(v, u) {
      assert AppOk(w, u);
    }
    forall u | u in v.wait && u != t && u != p ensures WaitOk(v, u) {
      assert WaitOk(w, u);
    }
    forall s | s in v.socks ensures SockOk(v, s) {
      if v.socks[s].tunnel != t && v.socks[s].tunnel != p {
        assert SockOk(w, s);
      }
    }
  }

  // ----- which events the pool survives

  /** The idle tunnels in AppList order, and the waiters that can be paired in waitList order. */
  function Idles(w: World, l: seq<Tunnel>): (r: seq<Tunnel>)
    ensures forall k :: 0 <= k < |r| ==> r[k] in w.tuns
  {
    if l == [] then []
    else if l[0] in w.tuns && w.tuns[l[0]].status == TunnIdle then [l[0]] + Idles(w, l[1..])
    else Idles(w, l[1..])
  }

  function Pairables(w: World, l: seq<Tunnel>): seq<Tunnel> {
    if l == [] then []
    else if Pairable(w, l[0]) then [l[0]] + Pairables(w, l[1..])
    else Pairables(w, l[1..])
  }

  /** The tunnels a pairing pass from entry `i` on will give a remote have finished their handshake. */
  predicate PairSafe(w: World, i: nat)
    requires i <= |w.app|
  {
    var idles, pairables := Idles(w, w.app[i..]), Pairables(w, w.wait);
    forall k :: 0 <= k < |idles| && k < |pairables| ==> w.tuns[idles[k]].hs.state == ConnectedState
  }

  /** The first idle tunnel, if there is one, still has its private socket. */
  predicate IdleIsAttached(w: World) {
    var k := FindStatus(w.tuns, w.app, TunnIdle);
    k < |w.app| ==> w.tuns[w.app[k]].priv != null
  }

  /** A caller could check this before the event.
      Accepting a remote: the first idle tunnel, if there is one, still has its private socket.
      Reading: a private connection does not end while it is paired and has nothing left to write.
      Writing: the private connection of a connected tunnel does not fail. */
  predicate Safe(w: World, e: Event)
    requires Enabled(w, e)
  {
    match e
    case AcceptPrivate(_, _) => true
    case AcceptRemote(_, _) => IdleIsAttached(w)
    case Read(s, got) =>
      var d := w.socks[s];
      !(d.ispriv && (got.Fin? || got.ReadError?) && d.wbuf == []
        && d.tunnel in w.tuns && w.tuns[d.tunnel].hs.state == ConnectedState && w.tuns[d.tunnel].remote != null)
    case Write(s, put, _) =>
      var d := w.socks[s];
      !(d.ispriv && put.WriteError? && d.tunnel in w.tuns && w.tuns[d.tunnel].hs.state == ConnectedState)
    case Pair => PairSafe(w, 0)
  }

  /** The event succeeds and keeps the pool in order. */
  predicate Survives(r: Option<World>) {
    r.Some? && PoolInv(r.value)
  }

  // ----- accepting

  /** A new tunnel in front of one of the lists. */
  lemma ListsGrow(w: World, v: World, t: Tunnel)
    requires Lists(w) && t !in w.tuns && t in v.tuns
    requires forall u :: u in v.tuns ==> u == t || u in w.tuns
    requires forall u :: u in w.tuns ==> u in v.tuns
    requires (v.app == [t] + w.app && v.wait == w.wait) || (v.app == w.app && v.wait == [t] + w.wait)
    ensures Lists(v)
  {
  }

  /** Tunnel `t`, old or new, becomes `td`, and a new socket `s` is attached to it. */
  lemma Attach(w: World, v: World, t: Tunnel, td: TunnelData, s: Sock, d: SockData)
    requires Shape(w) && Lists(v) && s !in w.socks && v.socks == w.socks[s := d] && v.tuns == w.tuns[t := td]
    requires forall u :: u in v.app && u != t ==> u in w.app
    requires forall u :: u in v.wait && u != t ==> u in w.wait
    requires t in v.app ==> AppOk(v, t)
    requires t in v.wait ==> WaitOk(v, t)
    requires d.tunnel == t && SockOk(v, s)
    requires t in w.tuns ==>
      && (td.priv == w.tuns[t].priv || w.tuns[t].priv == null)
      && (td.remote == w.tuns[t].remote || w.tuns[t].remote == null)
    ensures Shape(v)
  {
    forall x | x in v.socks && v.socks[x].tunnel == t ensures SockOk(v, x) {
      if x != s {
        assert SockOk(w, x);
      }
    }
    ShapeByParts(w, v, t, t);
  }

  lemma PutTwice<K, V>(m: map<K, V>, k: K, a: V, b: V)
    ensures m[k := a][k := b] == m[k := b]
  {
  }

  lemma ReuseTunnel(w: World, ns: Sock, nt: Tunnel, t: Tunnel)
    requires PoolInv(w) && ns !in w.socks
    requires FindStatus(w.tuns, w.app, TunnFree) < |w.app| && t == w.app[FindStatus(w.tuns, w.app, TunnFree)]
    ensures Survives(AcceptPriv(w, ns, nt))
  {
    assert AppOk(w, t);
    var hs := w.tuns[t].hs.(state := OpenState);
    var td := w.tuns[t].(priv := ns, hs := hs.(readCount := 0), status := TunnRun);
    PutTwice(w.tuns, t, w.tuns[t].(hs := hs, status := TunnRun), td);
    Attach(w, AcceptPriv(w, ns, nt).value, t, td, ns, FreshSock(true, t));
  }

  lemma AddTunnel(w: World, ns: Sock, nt: Tunnel)
    requires PoolInv(w) && ns !in w.socks && nt !in w.tuns && FindStatus(w.tuns, w.app, TunnFree) == |w.app|
    ensures Survives(AcceptPriv(w, ns, nt))
  {
    var v := AcceptPriv(w, ns, nt).value;
    var td := TunnelData(ns, null, ZERO_HS, TunnIdle);
    PutTwice(w.tuns, nt, td.(priv := null), td);
    ListsGrow(w, v, nt);
    Attach(w, v, nt, td, ns, FreshSock(true, nt));
  }

  lemma AcceptPrivateKeeps(w: World, ns: Sock, nt: Tunnel)
    requires PoolInv(w) && ns !in w.socks && nt !in w.tuns
    ensures Survives(AcceptPriv(w, ns, nt))
  {
    var k := FindStatus(w.tuns, w.app, TunnFree);
    if k < |w.app| {
      ReuseTunnel(w, ns, nt, w.app[k]);
    } else {
      AddTunnel(w, ns, nt);
    }
  }

  lemma ParkOnOld(w: World, ns: Sock, nt: Tunnel, t: Tunnel)
    requires PoolInv(w) && ns !in w.socks && FindStatus(w.tuns, w.app, TunnIdle) == |w.app|
    requires FindStatus(w.tuns, w.wait, TmptunFree) < |w.wait| && t == w.wait[FindStatus(w.tuns, w.wait, TmptunFree)]
    ensures Survives(AcceptRmt(w, ns, nt))
  {
    assert WaitOk(w, t);
    var v := AcceptRmt(w, ns, nt).value;
    var hs := w.tuns[t].hs.(state := WaittingState, readCount := 0);
    var td := w.tuns[t].(remote := ns, hs := hs, status := TmptunWait);
    PutTwice(w.tuns, t, w.tuns[t].(hs := w.tuns[t].hs.(state := WaittingState), status := TmptunWait), td);
    Attach(w, v, t, td, ns, FreshSock(false, t));
  }

  lemma ParkOnNew(w: World, ns: Sock, nt: Tunnel)
    requires PoolInv(w) && ns !in w.socks && nt !in w.tuns && FindStatus(w.tuns, w.app, TunnIdle) == |w.app|
    requires FindStatus(w.tuns, w.wait, TmptunFree) == |w.wait|
    ensures Survives(AcceptRmt(w, ns, nt))
  {
    var v := AcceptRmt(w, ns, nt).value;
    var td := TunnelData(null, ns, ZERO_HS.(state := WaittingState), TmptunWait);
    PutTwice(w.tuns, nt, td.(remote := null), td);
    ListsGrow(w, v, nt);
    Attach(w, v, nt, td, ns, FreshSock(false, nt));
  }

  lemma ParkNewKeeps(w: World, ns: Sock, nt: Tunnel)
    requires PoolInv(w) && ns !in w.socks && nt !in w.tuns
    requires FindStatus(w.tuns, w.app, TunnIdle) == |w.app|
    ensures Survives(AcceptRmt(w, ns, nt))
  {
    var j := FindStatus(w.tuns, w.wait, TmptunFree);
    if j < |w.wait| {
      ParkOnOld(w, ns, nt, w.wait[j]);
    } else {
      ParkOnNew(w, ns, nt);
    }
  }

  lemma AcceptRemoteKeeps(w: World, ns: Sock, nt: Tunnel)
    requires PoolInv(w) && ns !in w.socks && nt !in w.tuns
    ensures Survives(AcceptRmt(w, ns, nt)) <==> IdleIsAttached(w)
  {
    var k := FindStatus(w.tuns, w.app, TunnIdle);
    if k < |w.app| {
      var t := w.app[k];
      assert AppOk(w, t);
      if w.tuns[t].priv != null {
        var v := AcceptRmt(w, ns, nt).value;
        Attach(w, v, t, v.tuns[t], ns, FreshSock(false, t));
      }
    } else {
      ParkNewKeeps(w, ns, nt);
    }
  }

  // ----- closing

  /** The world without socket `s`, whose tunnel `t` has become `td`. */
  function Gone(w: World, s: Sock, t: Tunnel, td: TunnelData): World {
    w.(socks := w.socks - {s}, tuns := w.tuns[t := td])
  }

  /** Socket `s` of tunnel `t` is released and the tunnel becomes `td`. */
  lemma Detach(w: World, v: World, t: Tunnel, td: TunnelData, s: Sock)
    requires Shape(w) && s in w.socks && w.socks[s].tunnel == t
    requires v == Gone(w, s, t, td)
    requires t in v.app ==> AppOk(v, t)
    requires t in v.wait ==> WaitOk(v, t)
    requires if w.socks[s].ispriv then td.remote == w.tuns[t].remote else td.priv == w.tuns[t].priv
    ensures Shape(v)
  {
    assert SockOk(w, s);
    forall x | x in v.socks && v.socks[x].tunnel == t ensures SockOk(v, x) {
      assert SockOk(w, x);
    }
    ShapeByParts(w, v, t, t);
  }

  /** Socket `s` of tunnel `t` becomes `d` and the tunnel `td`, without moving any pointer. */
  lemma Update(w: World, v: World, t: Tunnel, td: TunnelData, s: Sock, d: SockData)
    requires Shape(w) && s in w.socks && w.socks[s].tunnel == t
    requires v == w.(socks := w.socks[s := d], tuns := w.tuns[t := td])
    requires d.tunnel == t && d.ispriv == w.socks[s].ispriv && (d.pollOut <==> d.wbuf != []) && (d.pollIn || d.pollOut)
    requires td.priv == w.tuns[t].priv && td.remote == w.tuns[t].remote
    requires t in v.app ==> AppOk(v, t)
    requires t in v.wait ==> WaitOk(v, t)
    ensures Shape(v)
  {
    assert SockOk(w, s);
    forall x | x in v.socks && v.socks[x].tunnel == t ensures SockOk(v, x) {
      assert SockOk(w, x);
    }
    ShapeByParts(w, v, t, t);
  }

  /** What the invariant says about the tunnel of a live socket. */
  lemma Owner(w: World, s: Sock)
    requires Shape(w) && s in w.socks
    ensures var t := w.socks[s].tunnel;
      && Known(w, s)
      && (t in w.app ==> AppOk(w, t)) && (t in w.wait ==> WaitOk(w, t))
      && (t in w.app || t in w.wait)
      && (w.socks[s].ispriv ==> t in w.app && w.tuns[t].priv == s)
      && (!w.socks[s].ispriv ==> w.tuns[t].remote == s)
      && SockOk(w, s)
  {
    assert SockOk(w, s);
    var t := w.socks[s].tunnel;
    assert t in w.wait ==> WaitOk(w, t);
    assert t in w.app ==> AppOk(w, t);
  }

  lemma ForceShutdownIs(w: World, s: Sock)
    requires Known(w, s)
    ensures var d := w.socks[s]; var td := w.tuns[d.tunnel];
      var td1 := if td.status == TmptunClose then td.(status := TmptunFree, remote := null)
                 else if s == td.remote then td.(status := TunnIdle, remote := null) else td;
      var td2 := if d.ispriv then td1.(priv := null) else td1.(remote := null);
      SockForceShutdown(w, s) == Some(Gone(w, s, d.tunnel, td2))
  {
    var d := w.socks[s];
    var td := w.tuns[d.tunnel];
    var td1 := if td.status == TmptunClose then td.(status := TmptunFree, remote := null)
               else if s == td.remote then td.(status := TunnIdle, remote := null) else td;
    PutTwice(w.tuns, d.tunnel, td1, if d.ispriv then td1.(priv := null) else td1.(remote := null));
  }

  /** Force-closing is survived by every socket except the private one of a connected tunnel, and a
      parked remote that has not been answered: its place would count as an idle tunnel. */
  lemma ForceShutdownKeeps(w: World, s: Sock)
    requires PoolInv(w) && s in w.socks
    ensures w.socks[s].tunnel in w.tuns
    ensures var td := w.tuns[w.socks[s].tunnel];
      Survives(SockForceShutdown(w, s)) <==>
        !(w.socks[s].ispriv && td.hs.state == ConnectedState) && !Unanswered(td.status)
  {
    Owner(w, s);
    var t := w.socks[s].tunnel;
    ForceShutdownIs(w, s);
    var v := SockForceShutdown(w, s).value;
    if w.socks[s].ispriv && w.tuns[t].hs.state == ConnectedState {
      assert !AppOk(v, t);
    } else if Unanswered(w.tuns[t].status) {
      assert !WaitOk(v, t);
    } else {
      Detach(w, v, t, v.tuns[t], s);
    }
  }

  lemma UnpairedPrivateEnd(w: World, s: Sock, t: Tunnel)
    requires s in w.socks && w.socks[s].ispriv && w.socks[s].tunnel == t && t in w.tuns
    requires w.tuns[t].priv == s && w.tuns[t].remote == null && w.tuns[t].status != TmptunClose
    ensures CloseDrained(w, s, t) == Some(Gone(w, s, t, w.tuns[t].(status := TunnFree, priv := null)))
  {
    ForceShutdownIs(w, s);
    PutTwice(w.tuns, t, w.tuns[t].(priv := null), w.tuns[t].(status := TunnFree, priv := null));
  }

  /** A drained private connection that ends while paired leaves an idle tunnel without private socket. */
  lemma PairedPrivateEnd(w: World, s: Sock, t: Tunnel)
    requires s in w.socks && w.socks[s].ispriv && w.socks[s].tunnel == t && t in w.tuns && t in w.app
    requires w.tuns[t].priv == s && w.tuns[t].remote != null && w.tuns[t].status == TunnRun
    requires w.tuns[t].hs.state == ConnectedState && PointsBack(w, t, w.tuns[t].remote, false)
    ensures CloseDrained(w, s, t).Some? ==> !AppOk(CloseDrained(w, s, t).value, t)
    ensures CloseDrained(w, s, t).Some? ==> !PoolInv(CloseDrained(w, s, t).value)
  {
  }

  /** A closing socket that still has bytes to write, `left` among them, stays until they are written. */
  lemma HalfCloseKeeps(w: World, s: Sock, left: seq<byte>)
    requires PoolInv(w) && s in w.socks && w.socks[s].wbuf + left != []
    requires w.socks[s].tunnel in w.wait ==> left == []
    ensures var d := w.socks[s].(state := SockHalfclosed, wbuf := w.socks[s].wbuf + left);
      PoolInv(PutSock(w, s, Poll(d, true, false)))
  {
    Owner(w, s);
    var t := w.socks[s].tunnel;
    var d := Poll(w.socks[s].(state := SockHalfclosed, wbuf := w.socks[s].wbuf + left), true, false);
    var v := PutSock(w, s, d);
    assert w.tuns == w.tuns[t := w.tuns[t]];
    Update(w, v, t, w.tuns[t], s, d);
  }

  lemma PrivateShutdownIs(w: World, s: Sock)
    requires Known(w, s) && w.socks[s].ispriv
    requires w.tuns[w.socks[s].tunnel].priv == s && w.tuns[w.socks[s].tunnel].remote != s
    ensures var d := w.socks[s].(state := SockHalfclosed);
      SockShutdown(w, s) == if d.wbuf != [] then Some(PutSock(w, s, Poll(d, true, false)))
                            else CloseDrained(PutSock(w, s, d), s, d.tunnel)
  {
    var d := w.socks[s].(state := SockHalfclosed);
    var w1 := PutSock(w, s, d);
    assert ForwardLeft(w1, s, d.tunnel) == Some(w1);
    PutTwice(w.socks, s, d, Poll(d, true, false));
  }

  lemma UnpairedEndKeeps(w: World, s: Sock)
    requires PoolInv(w) && s in w.socks && w.socks[s].ispriv && w.socks[s].tunnel in w.tuns
    requires w.tuns[w.socks[s].tunnel].remote == null && w.socks[s].wbuf == []
    ensures Survives(SockShutdown(w, s))
  {
    Owner(w, s);
    PrivateShutdownIs(w, s);
    var t := w.socks[s].tunnel;
    var w1 := PutSock(w, s, w.socks[s].(state := SockHalfclosed));
    UnpairedPrivateEnd(w1, s, t);
    var td := w.tuns[t].(status := TunnFree, priv := null);
    assert w1.socks - {s} == w.socks - {s};
    Detach(w, Gone(w, s, t, td), t, td, s);
  }

  lemma PairedEndBreaks(w: World, s: Sock)
    requires PoolInv(w) && s in w.socks && w.socks[s].ispriv && w.socks[s].tunnel in w.tuns
    requires w.tuns[w.socks[s].tunnel].remote != null && w.socks[s].wbuf == []
    ensures !Survives(SockShutdown(w, s)) && w.tuns[w.socks[s].tunnel].hs.state == ConnectedState
  {
    Owner(w, s);
    PrivateShutdownIs(w, s);
    PairedPrivateEnd(PutSock(w, s, w.socks[s].(state := SockHalfclosed)), s, w.socks[s].tunnel);
  }

  /** The private connection ends. */
  lemma ShutdownPrivateKeeps(w: World, s: Sock)
    requires PoolInv(w) && s in w.socks && w.socks[s].ispriv && w.socks[s].tunnel in w.tuns
    ensures var td := w.tuns[w.socks[s].tunnel];
      Survives(SockShutdown(w, s)) <==> !(td.hs.state == ConnectedState && td.remote != null && w.socks[s].wbuf == [])
  {
    Owner(w, s);
    if w.socks[s].wbuf != [] {
      PrivateShutdownIs(w, s);
      assert w.socks[s].wbuf + [] == w.socks[s].wbuf;
      HalfCloseKeeps(w, s, []);
    } else if w.tuns[w.socks[s].tunnel].remote == null {
      UnpairedEndKeeps(w, s);
    } else {
      PairedEndBreaks(w, s);
    }
  }

  /** `left` is what the private side still holds for the closing remote. */
  lemma RemoteShutdownIs(w: World, s: Sock, t: Tunnel) returns (left: seq<byte>)
    requires s in w.socks && !w.socks[s].ispriv && w.socks[s].tunnel == t && t in w.tuns && w.tuns[t].remote == s
    requires w.tuns[t].hs.state == ConnectedState ==> w.tuns[t].priv in w.socks && w.tuns[t].priv != s
    ensures left == if w.tuns[t].hs.state == ConnectedState then w.socks[w.tuns[t].priv].rbuf else []
    ensures SockShutdown(w, s) ==
      if w.socks[s].wbuf + left != [] then
        Some(PutSock(w, s, Poll(w.socks[s].(state := SockHalfclosed, wbuf := w.socks[s].wbuf + left), true, false)))
      else CloseDrained(PutSock(w, s, w.socks[s].(state := SockHalfclosed)), s, t)
  {
    left := if w.tuns[t].hs.state == ConnectedState then w.socks[w.tuns[t].priv].rbuf else [];
    var d0 := w.socks[s].(state := SockHalfclosed);
    var d1 := d0.(wbuf := d0.wbuf + left);
    if left == [] {
      assert d1 == d0;
      assert ForwardLeft(PutSock(w, s, d0), s, t) == Some(PutSock(w, s, d0));
    } else {
      PutTwice(w.socks, s, d0, d1);
    }
    PutTwice(w.socks, s, d1, Poll(d1, true, false));
  }

  lemma RemoteEnd(w: World, s: Sock, t: Tunnel)
    requires s in w.socks && !w.socks[s].ispriv && w.socks[s].tunnel == t && t in w.tuns
    requires w.tuns[t].remote == s && w.tuns[t].priv != s
    requires w.tuns[t].hs.state == ConnectedState || w.tuns[t].hs.state == WaittingState
    requires w.tuns[t].hs.state == ConnectedState ==> w.tuns[t].status == TunnRun
    ensures var st := if w.tuns[t].hs.state == ConnectedState then TunnIdle else TmptunFree;
      CloseDrained(w, s, t) == Some(Gone(w, s, t, w.tuns[t].(status := st, remote := null)))
  {
    var td := w.tuns[t];
    var freed := td.(status := if td.status == TmptunClose then TmptunFree else TunnIdle, remote := null);
    ForceShutdownIs(w, s);
    var st := if td.hs.state == ConnectedState then TunnIdle else TmptunFree;
    PutTwice(w.tuns, t, freed, td.(status := st, remote := null));
  }

  lemma DrainedRemoteEnds(w: World, s: Sock)
    requires PoolInv(w) && s in w.socks && !w.socks[s].ispriv && w.socks[s].wbuf == []
    ensures Survives(CloseDrained(PutSock(w, s, w.socks[s].(state := SockHalfclosed)), s, w.socks[s].tunnel))
  {
    Owner(w, s);
    var t := w.socks[s].tunnel;
    var w0 := PutSock(w, s, w.socks[s].(state := SockHalfclosed));
    RemoteEnd(w0, s, t);
    var st := if w.tuns[t].hs.state == ConnectedState then TunnIdle else TmptunFree;
    var td := w.tuns[t].(status := st, remote := null);
    assert w0.socks - {s} == w.socks - {s};
    Detach(w, Gone(w, s, t, td), t, td, s);
  }

  /** A remote connection ends. */
  lemma ShutdownRemoteKeeps(w: World, s: Sock)
    requires PoolInv(w) && s in w.socks && !w.socks[s].ispriv
    ensures Survives(SockShutdown(w, s))
  {
    Owner(w, s);
    var t := w.socks[s].tunnel;
    var left := RemoteShutdownIs(w, s, t);
    if w.socks[s].wbuf + left != [] {
      HalfCloseKeeps(w, s, left);
    } else {
      assert w.socks[s].wbuf == [];
      DrainedRemoteEnds(w, s);
    }
  }

  // ----- reading

  /** New input does not disturb the shape. */
  lemma InputKeeps(w: World, s: Sock, bytes: seq<byte>)
    requires Shape(w) && s in w.socks
    ensures var v := PutSock(w, s, w.socks[s].(rbuf := w.socks[s].rbuf + bytes));
      && Shape(v) && (Drained(w) && w.socks[s].ispriv ==> Drained(v))
      && v.tuns == w.tuns && v.app == w.app && v.wait == w.wait
  {
    Owner(w, s);
    var t := w.socks[s].tunnel;
    var d := w.socks[s].(rbuf := w.socks[s].rbuf + bytes);
    assert w.tuns == w.tuns[t := w.tuns[t]];
    Update(w, PutSock(w, s, d), t, w.tuns[t], s, d);
  }

  /** A handler that rejects has not changed the state. */
  lemma RejectKeepsState(conf: Config, h: Hs, buf: seq<byte>)
    requires InHandshake(h.state)
    ensures var o := Handle(conf, h, buf); o.verdict == Reject ==> o.h.state == h.state && o.reply == []
  {
    HandleAdvances(conf, h, buf);
  }

  lemma StateStaysPrivate(conf: Config, h: Hs, buf: seq<byte>)
    requires InHandshake(h.state)
    ensures var o := Handle(conf, h, buf);
      o.verdict == Proceed ==>
        && (InHandshake(o.h.state) || o.h.state == ConnectedState)
        && (o.h.state == ConnectedState ==> h.state == RequestState)
        && (h.state == RequestState ==> o.h.state == RequestState || o.h.state == ConnectedState)
  {
    HandleAdvances(conf, h, buf);
  }

  lemma HandshakeKeeps(w: World, s: Sock, t: Tunnel)
    requires PoolInv(w) && s in w.socks && w.socks[s].ispriv && w.socks[s].tunnel == t
    requires t in w.tuns && InHandshake(w.tuns[t].hs.state)
    ensures Survives(HandshakeHandle(w, t, s))
  {
    Owner(w, s);
    var td, d := w.tuns[t], w.socks[s];
    var o := Handle(w.conf, td.hs, d.rbuf);
    HandleResumes(w.conf, td.hs, d.rbuf, []);
    StateStaysPrivate(w.conf, td.hs, d.rbuf);
    var w1 := AfterHandler(w, t, o);
    if o.verdict == Proceed {
      Update(w, w1, t, w1.tuns[t], s, w1.socks[s]);
    } else {
      RejectKeepsState(w.conf, td.hs, d.rbuf);
      ForceShutdownIs(w1, s);
      var td1 := w1.tuns[t].(priv := null);
      PutTwice(w.tuns, t, w1.tuns[t], td1);
      assert w1.socks - {s} == w.socks - {s};
      Detach(w, Gone(w, s, t, td1), t, td1, s);
    }
  }

  /** What `from` had read is now the tail of what `to` has to write, and `to` is armed for writing. */
  function Forwarded(w: World, from: Sock, to: Sock): World
    requires from in w.socks && to in w.socks
  {
    var d := w.socks[to].(wbuf := w.socks[to].wbuf + w.socks[from].rbuf);
    w.(socks := w.socks[from := w.socks[from].(rbuf := [])][to := Poll(d, true, true)])
  }

  lemma ForwardIs(w: World, from: Sock, to: Sock)
    requires from in w.socks && to in w.socks && from != to
    ensures Forward(w, from, to) == Some(Forwarded(w, from, to))
  {
    var d := w.socks[to].(wbuf := w.socks[to].wbuf + w.socks[from].rbuf);
    var e := w.socks[from].(rbuf := []);
    assert w.socks[to := d][from := e][to := Poll(d, true, true)] == w.socks[from := e][to := Poll(d, true, true)];
  }

  /** Only the buffers of `s` and its interest differ, and a parked socket has the same to write. */
  predicate BufferChange(w: World, v: World, s: Sock) {
    && s in w.socks && s in v.socks
    && v.socks[s].tunnel == w.socks[s].tunnel && v.socks[s].ispriv == w.socks[s].ispriv
    && (v.socks[s].pollOut <==> v.socks[s].wbuf != []) && (v.socks[s].pollIn || v.socks[s].pollOut)
    && (w.socks[s].tunnel in w.wait ==> v.socks[s].wbuf == w.socks[s].wbuf)
  }

  lemma BuffersChange(w: World, v: World)
    requires Shape(w) && v == w.(socks := v.socks) && v.socks.Keys == w.socks.Keys
    requires forall s :: s in w.socks ==> BufferChange(w, v, s)
    ensures Shape(v)
  {
    forall t | t in v.app ensures AppOk(v, t) {
      assert AppOk(w, t);
    }
    forall t | t in v.wait ensures WaitOk(v, t) {
      assert WaitOk(w, t);
    }
    forall s | s in v.socks ensures SockOk(v, s) {
      assert SockOk(w, s) && BufferChange(w, v, s);
    }
  }

  lemma ForwardedSock(w: World, t: Tunnel, from: Sock, to: Sock, s: Sock)
    requires Shape(w) && t in w.app && from in w.socks && to in w.socks && from != to && s in w.socks
    requires w.socks[from].tunnel == w.socks[to].tunnel == t && w.socks[from].rbuf != []
    ensures BufferChange(w, Forwarded(w, from, to), s)
  {
    assert SockOk(w, s) && t !in w.wait;
  }

  /** Input crosses a paired tunnel. */
  lemma ForwardKeeps(w: World, t: Tunnel, from: Sock, to: Sock)
    requires Shape(w) && t in w.app && from in w.socks && to in w.socks && from != to
    requires w.socks[from].tunnel == w.socks[to].tunnel == t && w.socks[from].rbuf != []
    ensures Forward(w, from, to) == Some(Forwarded(w, from, to)) && Shape(Forwarded(w, from, to))
  {
    ForwardIs(w, from, to);
    var v := Forwarded(w, from, to);
    forall s | s in w.socks ensures BufferChange(w, v, s) {
      ForwardedSock(w, t, from, to, s);
    }
    BuffersChange(w, v);
  }

  /** Without a remote the private socket of a connected tunnel is shut down when it is woken. */
  lemma LonePrivateCloses(w: World, s: Sock, t: Tunnel)
    requires PoolInv(w) && s in w.socks && w.socks[s].ispriv && w.socks[s].tunnel == t
    requires t in w.tuns && w.tuns[t].hs.state == ConnectedState && w.tuns[t].remote == null
    ensures Dispatch(w, s) == SockShutdown(w, s)
  {
    Owner(w, s);
    PrivateShutdownIs(w, s);
    UnpairedPrivateEnd(PutSock(w, s, w.socks[s].(state := SockHalfclosed)), s, t);
  }

  lemma DispatchPairedPrivate(w: World, s: Sock, t: Tunnel, r: Sock)
    requires s in w.socks && w.socks[s].ispriv && w.socks[s].tunnel == t && r in w.socks && r != s
    requires t in w.tuns && w.tuns[t].hs.state == ConnectedState && w.tuns[t].remote == r && w.tuns[t].priv == s
    ensures Dispatch(w, s) == Some(if w.socks[s].rbuf == [] then w else Forwarded(w, s, r))
  {
    ForwardIs(w, s, r);
  }

  lemma PrivateForwardIsDrained(w: World, s: Sock, r: Sock)
    requires Drained(w) && s in w.socks && r in w.socks
    ensures Drained(Forwarded(w, s, r))
  {
  }

  lemma ConnectedPrivateKeeps(w: World, s: Sock, t: Tunnel)
    requires PoolInv(w) && s in w.socks && w.socks[s].ispriv && w.socks[s].tunnel == t
    requires t in w.tuns && w.tuns[t].hs.state == ConnectedState
    ensures Survives(Dispatch(w, s))
  {
    Owner(w, s);
    var r := w.tuns[t].remote;
    if r == null {
      LonePrivateCloses(w, s, t);
      ShutdownPrivateKeeps(w, s);
    } else {
      DispatchPairedPrivate(w, s, t, r);
      if w.socks[s].rbuf != [] {
        ForwardKeeps(w, t, s, r);
        PrivateForwardIsDrained(w, s, r);
      }
    }
  }

  /** Remotes stay drained when the one that received input no longer holds it. */
  lemma DrainedAgain(w: World, v: World, s: Sock)
    requires Drained(w) && s in v.socks && v.socks[s].rbuf == []
    requires forall x :: x in v.socks ==> x in w.socks && v.socks[x].ispriv == w.socks[x].ispriv
    requires forall x :: x in v.socks && x != s && !v.socks[x].ispriv ==> v.socks[x].rbuf == w.socks[x].rbuf
    ensures Drained(v)
  {
  }

  /** A parked remote is answered. */
  lemma WaittingKeeps(w: World, s: Sock, t: Tunnel)
    requires Shape(w) && s in w.socks && !w.socks[s].ispriv && w.socks[s].tunnel == t && t in w.wait
    ensures WaittingHandle(w, t).Some?
    ensures var v := WaittingHandle(w, t).value;
      && Shape(v) && v.socks.Keys == w.socks.Keys && v.socks[s].rbuf == [] && !v.socks[s].ispriv
      && (forall x :: x in w.socks && x != s ==> v.socks[x] == w.socks[x])
  {
    Owner(w, s);
    var v := WaittingHandle(w, t).value;
    Update(w, v, t, v.tuns[t], s, v.socks[s]);
  }

  lemma ParkedIsDrained(w: World, w1: World, v: World, s: Sock)
    requires Drained(w) && s in w.socks && s in w1.socks && w1 == PutSock(w, s, w1.socks[s])
    requires w1.socks[s].ispriv == w.socks[s].ispriv && v.socks.Keys == w1.socks.Keys && v.socks[s].rbuf == []
    requires v.socks[s].ispriv == w.socks[s].ispriv && forall x :: x in w1.socks && x != s ==> v.socks[x] == w1.socks[x]
    ensures Drained(v)
  {
    DrainedAgain(w, v, s);
  }

  lemma ParkedRemoteInput(w: World, w1: World, s: Sock, t: Tunnel)
    requires PoolInv(w) && Shape(w1) && s in w.socks && s in w1.socks && w1 == PutSock(w, s, w1.socks[s])
    requires w1.socks[s] == w.socks[s].(rbuf := w1.socks[s].rbuf)
    requires !w.socks[s].ispriv && w.socks[s].tunnel == t && t in w.wait
    ensures Survives(Dispatch(w1, s))
  {
    Owner(w1, s);
    WaittingKeeps(w1, s, t);
    assert Dispatch(w1, s) == WaittingHandle(w1, t);
    ParkedIsDrained(w, w1, WaittingHandle(w1, t).value, s);
  }

  lemma ForwardedIsDrained(w: World, w1: World, s: Sock, p: Sock)
    requires Drained(w) && s in w.socks && s in w1.socks && w1 == PutSock(w, s, w1.socks[s])
    requires p in w.socks && p != s && w.socks[p].ispriv
    ensures Drained(Forwarded(w1, s, p))
  {
  }

  lemma DispatchPairedRemote(w: World, s: Sock, t: Tunnel, p: Sock)
    requires s in w.socks && !w.socks[s].ispriv && w.socks[s].tunnel == t && w.socks[s].rbuf != []
    requires t in w.tuns && w.tuns[t].hs.state == ConnectedState && w.tuns[t].remote == s && w.tuns[t].priv == p
    requires p in w.socks && p != s
    ensures Dispatch(w, s) == Some(Forwarded(w, s, p))
  {
    ForwardIs(w, s, p);
  }

  lemma PairedRemoteInput(w: World, w1: World, s: Sock, t: Tunnel)
    requires PoolInv(w) && Shape(w1) && s in w.socks && s in w1.socks && w1 == PutSock(w, s, w1.socks[s])
    requires w1.socks[s] == w.socks[s].(rbuf := w1.socks[s].rbuf) && w1.socks[s].rbuf != []
    requires !w.socks[s].ispriv && w.socks[s].tunnel == t && t in w.app
    ensures w.tuns[t].priv in w.socks && Dispatch(w1, s) == Some(Forwarded(w1, s, w.tuns[t].priv))
    ensures PoolInv(Forwarded(w1, s, w.tuns[t].priv))
  {
    Owner(w, s);
    var p := w.tuns[t].priv;
    assert PointsBack(w, t, p, true);
    ForwardKeeps(w1, t, s, p);
    DispatchPairedRemote(w1, s, t, p);
    ForwardedIsDrained(w, w1, s, p);
  }

  /** A remote, paired or parked, sends bytes. */
  lemma RemoteInputKeeps(w: World, s: Sock, bytes: seq<byte>)
    requires PoolInv(w) && s in w.socks && !w.socks[s].ispriv && bytes != []
    ensures Survives(ReadHandle(w, s, Data(bytes)))
  {
    InputKeeps(w, s, bytes);
    var w1 := PutSock(w, s, w.socks[s].(rbuf := w.socks[s].rbuf + bytes));
    Owner(w, s);
    var t := w.socks[s].tunnel;
    if t in w.app {
      PairedRemoteInput(w, w1, s, t);
    } else {
      ParkedRemoteInput(w, w1, s, t);
    }
  }

  lemma PrivateInputKeeps(w: World, s: Sock, got: ReadResult)
    requires PoolInv(w) && s in w.socks && w.socks[s].ispriv && (got.Data? || got.ReadAgain?)
    ensures Survives(ReadHandle(w, s, got))
  {
    Owner(w, s);
    var t := w.socks[s].tunnel;
    var bytes := if got.Data? then got.bytes else [];
    InputKeeps(w, s, bytes);
    var w1 := PutSock(w, s, w.socks[s].(rbuf := w.socks[s].rbuf + bytes));
    if got.ReadAgain? {
      assert w.socks[s].rbuf + [] == w.socks[s].rbuf;
      assert w1 == w;
    }
    if InHandshake(w.tuns[t].hs.state) {
      HandshakeKeeps(w1, s, t);
    } else {
      ConnectedPrivateKeeps(w1, s, t);
    }
  }

  /** An empty wake-up of a remote: one that is parked is answered, one that is paired stays as it is. */
  lemma RemoteWakes(w: World, s: Sock)
    requires PoolInv(w) && s in w.socks && !w.socks[s].ispriv
    ensures Survives(Dispatch(w, s))
  {
    Owner(w, s);
    var t := w.socks[s].tunnel;
    if t in w.wait {
      WaittingKeeps(w, s, t);
      assert Dispatch(w, s) == WaittingHandle(w, t);
    } else {
      assert Dispatch(w, s) == Some(w);
    }
  }

  lemma EndKeeps(w: World, s: Sock, got: ReadResult)
    requires PoolInv(w) && Enabled(w, Read(s, got)) && (got.Fin? || got.ReadError?)
    ensures Survives(SockShutdown(w, s)) <==> Safe(w, Read(s, got))
  {
    Owner(w, s);
    if w.socks[s].ispriv {
      ShutdownPrivateKeeps(w, s);
    } else {
      ShutdownRemoteKeeps(w, s);
    }
  }

  lemma ReadKeeps(w: World, s: Sock, got: ReadResult)
    requires PoolInv(w) && Enabled(w, Read(s, got))
    ensures Survives(ReadHandle(w, s, got)) <==> Safe(w, Read(s, got))
  {
    if got.Fin? || got.ReadError? {
      EndKeeps(w, s, got);
    } else if w.socks[s].ispriv {
      PrivateInputKeeps(w, s, got);
    } else if got.Data? {
      RemoteInputKeeps(w, s, got.bytes);
    } else {
      RemoteWakes(w, s);
    }
  }

  // ----- writing

  /** Bytes have left the write buffer of `s`, which is still not switched. */
  lemma WrittenKeeps(w: World, s: Sock, wbuf: seq<byte>)
    requires PoolInv(w) && s in w.socks && w.socks[s].tunnel in w.tuns
    requires !Unanswered(w.tuns[w.socks[s].tunnel].status)
    ensures PoolInv(PutSock(w, s, Poll(w.socks[s].(wbuf := wbuf), wbuf != [], true)))
  {
    Owner(w, s);
    var t := w.socks[s].tunnel;
    var d := Poll(w.socks[s].(wbuf := wbuf), wbuf != [], true);
    assert w.tuns == w.tuns[t := w.tuns[t]];
    Update(w, PutSock(w, s, d), t, w.tuns[t], s, d);
  }

  /** The world in which drained remote `s` has left tunnel `t` and is parked on `c`. */
  function Parked(w: World, s: Sock, t: Tunnel, c: Tunnel, wait: seq<Tunnel>, hs: Hs): World
    requires s in w.socks && t in w.tuns
  {
    var d := Poll(w.socks[s].(wbuf := [], tunnel := c), false, true);
    World(w.conf, w.socks[s := d],
          w.tuns[t := w.tuns[t].(status := TunnIdle, remote := null)][c := TunnelData(null, s, hs, TmptunAlive)],
          w.app, wait)
  }

  lemma ParkedElsewhere(w: World, v: World, s: Sock, t: Tunnel, c: Tunnel, hs: Hs)
    requires s in w.socks && t in w.tuns && w.socks[s].tunnel == t && v == Parked(w, s, t, c, v.wait, hs)
    ensures Elsewhere(w, v, t, c)
  {
  }

  lemma ParkedParts(w: World, v: World, s: Sock, t: Tunnel, c: Tunnel, hs: Hs)
    requires s in w.socks && !w.socks[s].ispriv && t in w.tuns && t != c && AppOk(w, t) && w.tuns[t].remote == s
    requires hs.state == WaittingState && v == Parked(w, s, t, c, v.wait, hs)
    ensures AppOk(v, t) && WaitOk(v, c)
  {
  }

  lemma ParkedLists(w: World, v: World, c: Tunnel)
    requires Lists(w) && v.app == w.app && v.wait == (if c in w.tuns then w.wait else [c] + w.wait)
    requires v.tuns.Keys == w.tuns.Keys + {c}
    ensures Lists(v)
  {
    if c !in w.tuns {
      ListsGrow(w, v, c);
    }
  }

  lemma ParkedSockOk(w: World, v: World, s: Sock, t: Tunnel, c: Tunnel, hs: Hs, x: Sock)
    requires Shape(w) && s in w.socks && !w.socks[s].ispriv && w.socks[s].tunnel == t && t in w.tuns
    requires c !in w.tuns || (c in w.wait && w.tuns[c].status == TmptunFree)
    requires v == Parked(w, s, t, c, v.wait, hs) && x in v.socks && (v.socks[x].tunnel == t || v.socks[x].tunnel == c)
    ensures SockOk(v, x)
  {
    assert SockOk(w, x);
    assert c in w.wait ==> WaitOk(w, c);
    assert x != s ==> w.socks[x].tunnel == t;
  }

  lemma ParkedKeeps(w: World, s: Sock, t: Tunnel, c: Tunnel, hs: Hs)
    requires PoolInv(w) && s in w.socks && !w.socks[s].ispriv && w.socks[s].tunnel == t && t in w.app
    requires c !in w.tuns || (c in w.wait && w.tuns[c].status == TmptunFree)
    requires hs.state == WaittingState
    ensures PoolInv(Parked(w, s, t, c, if c in w.tuns then w.wait else [c] + w.wait, hs))
  {
    Owner(w, s);
    var v := Parked(w, s, t, c, if c in w.tuns then w.wait else [c] + w.wait, hs);
    ParkedLists(w, v, c);
    ParkedParts(w, v, s, t, c, hs);
    ParkedElsewhere(w, v, s, t, c, hs);
    forall x | x in v.socks && (v.socks[x].tunnel == t || v.socks[x].tunnel == c) ensures SockOk(v, x) {
      ParkedSockOk(w, v, s, t, c, hs, x);
    }
    ShapeByParts(w, v, t, c);
  }

  /** The entry that is taken from list `l`: the first with this status, or the new one. */
  function Target(w: World, l: seq<Tunnel>, st: Status, nt: Tunnel): Tunnel {
    var k := FindStatus(w.tuns, l, st);
    if k < |l| then l[k] else nt
  }

  lemma {:induction false} FindStatusSame(m: map<Tunnel, TunnelData>, m': map<Tunnel, TunnelData>, l: seq<Tunnel>,
                                          st: Status)
    requires forall u :: u in l ==> (u in m && m[u].status == st <==> u in m' && m'[u].status == st)
    ensures FindStatus(m, l, st) == FindStatus(m', l, st)
  {
    if l != [] {
      assert l[0] in l;
      FindStatusSame(m, m', l[1..], st);
    }
  }

  /** What `tunnel_switch_handle` makes of a drained remote: it moves to the first free entry, or a new one. */
  lemma SwitchIs(w: World, w1: World, s: Sock, t: Tunnel, nt: Tunnel) returns (c: Tunnel, hs: Hs)
    requires s in w.socks && t in w.tuns && w1 == PutSock(w, s, w.socks[s].(wbuf := []))
    requires w.tuns[t].remote == s && w.tuns[t].status == TunnRun && w.tuns[t].priv != null
    requires t !in w.wait && nt !in w.tuns && forall u :: u in w.wait ==> u in w.tuns
    requires forall u :: u in w.wait && w.tuns[u].status == TmptunFree ==> w.tuns[u].priv == null
    ensures c == Target(w, w.wait, TmptunFree, nt) && (c == nt || (c in w.wait && w.tuns[c].status == TmptunFree))
    ensures hs == (if c in w.tuns then w.tuns[c].hs else ZERO_HS).(state := WaittingState)
    ensures SwitchHandle(w1, s, t, nt) == Some(Parked(w, s, t, c, if c in w.tuns then w.wait else [c] + w.wait, hs))
  {
    var idle := w.tuns[t].(status := TunnIdle, remote := null);
    var w2 := PutTun(PutSock(w1, s, Poll(w1.socks[s], false, true)), t, idle);
    FindStatusSame(w.tuns, w2.tuns, w.wait, TmptunFree);
    var k := FindStatus(w2.tuns, w2.wait, TmptunFree);
    c := if k < |w.wait| then w.wait[k] else nt;
    hs := (if k < |w.wait| then w.tuns[c].hs else ZERO_HS).(state := WaittingState);
    var (w3, c') := GetWaitobj(w2, nt).value;
    var parked := TunnelData(null, s, hs, TmptunAlive);
    PutTwice(w.tuns[t := idle], c, w3.tuns[c], parked);
    var d := w.socks[s].(wbuf := []);
    PutTwice(w.socks, s, d, Poll(d, false, true));
    PutTwice(w.socks, s, Poll(d, false, true), Poll(d.(tunnel := c), false, true));
  }

  lemma SwitchKeeps(w: World, w1: World, s: Sock, t: Tunnel, nt: Tunnel)
    requires PoolInv(w) && s in w.socks && !w.socks[s].ispriv && w.socks[s].tunnel == t && t in w.app
    requires nt !in w.tuns && w1 == PutSock(w, s, w.socks[s].(wbuf := []))
    ensures Survives(SwitchHandle(w1, s, t, nt))
  {
    Owner(w, s);
    forall u | u in w.wait ensures w.tuns[u].priv == null {
      assert WaitOk(w, u);
    }
    var c, hs := SwitchIs(w, w1, s, t, nt);
    ParkedKeeps(w, s, t, c, hs);
  }

  lemma AfterWriteKeeps(w: World, s: Sock, wbuf: seq<byte>, nt: Tunnel)
    requires PoolInv(w) && s in w.socks && w.socks[s].wbuf != [] && nt !in w.tuns && w.socks[s].tunnel in w.tuns
    ensures Survives(AfterWrite(PutSock(w, s, w.socks[s].(wbuf := wbuf)), s, w.socks[s].tunnel, nt))
  {
    Owner(w, s);
    var t := w.socks[s].tunnel;
    var w1 := PutSock(w, s, w.socks[s].(wbuf := wbuf));
    PutTwice(w.socks, s, w1.socks[s], Poll(w1.socks[s], wbuf != [], true));
    WrittenKeeps(w, s, wbuf);
    if w.tuns[t].status == TunnRun && wbuf == [] && !w.socks[s].ispriv {
      SwitchKeeps(w, w1, s, t, nt);
    }
  }

  lemma WriteIs(w: World, s: Sock, put: WriteResult, nt: Tunnel)
    requires Known(w, s) && w.socks[s].wbuf != [] && !put.WriteError? && (put.Wrote? ==> put.n <= |w.socks[s].wbuf|)
    ensures var wbuf := if put.Wrote? then w.socks[s].wbuf[put.n..] else w.socks[s].wbuf;
      WriteHandle(w, s, put, nt) == AfterWrite(PutSock(w, s, w.socks[s].(wbuf := wbuf)), s, w.socks[s].tunnel, nt)
  {
    if put.WriteAgain? {
      assert w.socks == w.socks[s := w.socks[s].(wbuf := w.socks[s].wbuf)];
    }
  }

  lemma WriteKeeps(w: World, s: Sock, put: WriteResult, nt: Tunnel)
    requires PoolInv(w) && Enabled(w, Write(s, put, nt))
    ensures Survives(WriteHandle(w, s, put, nt)) <==> Safe(w, Write(s, put, nt))
  {
    Owner(w, s);
    if put.WriteError? {
      ForceShutdownKeeps(w, s);
    } else {
      var wbuf := if put.Wrote? then w.socks[s].wbuf[put.n..] else w.socks[s].wbuf;
      AfterWriteKeeps(w, s, wbuf, nt);
      WriteIs(w, s, put, nt);
    }
  }
}
