/** What an event makes of each socket and each tunnel of a pool in order, written out: which sockets are
    released, what is queued for the others, what they still hold unread, and the status, the pointers
    and the fields of every tunnel. */
module Effects {
  import opened Common
  import opened Handshake
  import opened Objects
  import opened Pool
  import opened PoolInvariant
  import opened Wiring
  import opened Pairing
  import opened PoolRuns

  // ----- bytes

  /** The bytes `e` reads from descriptor `s`, and the bytes it writes to it. */
  function BytesIn(e: Event, s: Sock): seq<byte> {
    if e.Read? && e.s == s && e.got.Data? then e.got.bytes else []
  }

  function BytesOut(w: World, e: Event, s: Sock): seq<byte> {
    if e.Write? && e.s == s && s in w.socks && e.put.Wrote? && e.put.n <= |w.socks[s].wbuf|
    then w.socks[s].wbuf[..e.put.n] else []
  }

  /** What a handler finds unread on `s`. */
  function Input(w: World, s: Sock, got: ReadResult): seq<byte>
    requires s in w.socks
  {
    w.socks[s].rbuf + if got.Data? then got.bytes else []
  }

  /** What a closing remote takes over: the unread bytes of the private side, if the tunnel is connected. */
  function Left(w: World, s: Sock): seq<byte>
    requires Known(w, s)
  {
    var td := w.tuns[w.socks[s].tunnel];
    if !w.socks[s].ispriv && td.hs.state == ConnectedState && td.priv in w.socks then w.socks[td.priv].rbuf else []
  }

  // ----- what becomes of a socket

  /** Released; or alive, with `queued` behind what it has to write, `unread` still to be handled, and, if
      `closing`, half closed. */
  datatype Fate = Released | Lives(queued: seq<byte>, unread: seq<byte>, closing: bool)

  /** The end of `s`: it stays as long as there is something to write. */
  function EndFate(w: World, s: Sock, left: seq<byte>, unread: seq<byte>): Fate
    requires s in w.socks
  {
    if w.socks[s].wbuf + left == [] then Released else Lives(left, unread, true)
  }

  /** Of the socket that reads.  A private one in its handshake gets the handler's reply, or is released; a
      connected one passes everything on, and ends if there is no one to pass it to; a parked remote is
      answered. */
  function ReaderFate(w: World, s: Sock, got: ReadResult): Fate
    requires Known(w, s)
  {
    var d, td := w.socks[s], w.tuns[w.socks[s].tunnel];
    if Ended(got) then EndFate(w, s, Left(w, s), d.rbuf)
    else if InHandshake(td.hs.state) then
      var o := Handle(w.conf, td.hs, Input(w, s, got));
      if o.verdict == Proceed then Lives(o.reply, o.buf, false) else Released
    else if td.hs.state != ConnectedState then Lives(RESPONSE, [], false)
    else if d.ispriv && td.remote == null then EndFate(w, s, [], Input(w, s, got))
    else Lives([], [], false)
  }

  /** Of the other socket of the tunnel when `x` reads: it gets all the input.  When a drained private
      socket ends it is closed as well. */
  function PartnerFate(w: World, s: Sock, x: Sock, got: ReadResult): Fate
    requires s in w.socks && x in w.socks
  {
    if !Ended(got) then Lives(Input(w, x, got), w.socks[s].rbuf, false)
    else if w.socks[x].ispriv && w.socks[x].wbuf == [] then Released
    else Lives([], w.socks[s].rbuf, false)
  }

  function FateOf(w: World, e: Event, s: Sock): Fate
    requires Known(w, s)
  {
    if e.Read? && e.s == s then ReaderFate(w, s, e.got)
    else if e.Read? && e.s in w.socks && w.socks[e.s].tunnel == w.socks[s].tunnel then PartnerFate(w, s, e.s, e.got)
    else if e.Write? && e.s == s && e.put.WriteError? then Released
    else Lives([], w.socks[s].rbuf, false)
  }

  /** The write event takes the last byte of the remote of a running tunnel, which is then parked. */
  predicate Parks(w: World, e: Event, s: Sock)
    requires Known(w, s)
  {
    && e.Write? && e.s == s && !e.put.WriteError? && !w.socks[s].ispriv
    && w.tuns[w.socks[s].tunnel].status == TunnRun && BytesOut(w, e, s) == w.socks[s].wbuf
  }

  /** From `d` to `d'` the event writes `out`: this, followed by what is still to be written, is what was to
      be written followed by what is queued.  EPOLLOUT is armed exactly while there is something to write,
      and EPOLLIN stays armed unless the socket is closing. */
  predicate Continues(d: SockData, d': SockData, out: seq<byte>, queued: seq<byte>, unread: seq<byte>, closing: bool,
                      written: bool)
  {
    && out + d'.wbuf == d.wbuf + queued
    && d'.rbuf == unread && d'.ispriv == d.ispriv
    && d'.state == (if closing then SockHalfclosed else d.state)
    && (d'.pollOut <==> d'.wbuf != [])
    && d'.pollIn == (if closing then false else d.pollIn || queued != [] || written)
  }

  /** The socket in `v` is what its fate says. */
  predicate Becomes(w: World, v: World, e: Event, s: Sock)
    requires Known(w, s)
  {
    match FateOf(w, e, s)
    case Released => s !in v.socks
    case Lives(queued, unread, closing) =>
      && s in v.socks
      && Continues(w.socks[s], v.socks[s], BytesOut(w, e, s), queued, unread, closing, e.Write? && e.s == s)
      && (e.Pair? || v.socks[s].tunnel ==
            if Parks(w, e, s) then Target(w, w.wait, TmptunFree, e.nt) else w.socks[s].tunnel)
  }

  lemma NothingHappens(w: World, v: World, e: Event, s: Sock)
    requires Known(w, s) && SockOk(w, s) && FateOf(w, e, s) == Lives([], w.socks[s].rbuf, false)
    requires s in v.socks && v.socks[s] == w.socks[s] && !(e.Write? && e.s == s)
    ensures Becomes(w, v, e, s)
  {
    assert [] + w.socks[s].wbuf == w.socks[s].wbuf + [];
  }

  // ----- accepting

  /** A new socket leaves the others as they are. */
  lemma NewcomerBecomes(w: World, v: World, e: Event, x: Sock)
    requires (e.AcceptPrivate? || e.AcceptRemote?) && e.ns !in w.socks && Known(w, x) && SockOk(w, x)
    requires e.ns in v.socks && v.socks == w.socks[e.ns := v.socks[e.ns]]
    ensures Becomes(w, v, e, x)
  {
    NothingHappens(w, v, e, x);
  }

  lemma AcceptBecomes(w: World, e: Event, x: Sock)
    requires PoolInv(w) && Enabled(w, e) && (e.AcceptPrivate? || e.AcceptRemote?) && Step(w, e).Some?
    requires x in w.socks && Known(w, x)
    ensures Becomes(w, Step(w, e).value, e, x)
  {
    assert SockOk(w, x);
    ShapeIsWired(w);
    if e.AcceptPrivate? {
      AcceptPrivateIsLocal(w, e.ns, e.nt);
    } else {
      AcceptRemoteIsLocal(w, e.ns, e.nt);
    }
    NewcomerBecomes(w, Step(w, e).value, e, x);
  }

  // ----- ends

  /** What a tunnel becomes when its socket `s` has gone. */
  function StatusLeft(w: World, s: Sock): Status
    requires Known(w, s)
  {
    var td := w.tuns[w.socks[s].tunnel];
    if w.socks[s].ispriv then TunnFree else if td.hs.state == ConnectedState then TunnIdle else TmptunFree
  }

  /** The tunnel without the pointer to `s`. */
  function Without(w: World, s: Sock, st: Status): TunnelData
    requires Known(w, s)
  {
    var td := w.tuns[w.socks[s].tunnel].(status := st);
    if w.socks[s].ispriv then td.(priv := null) else td.(remote := null)
  }

  /** The world after the end of `s`, when it does not take another socket with it. */
  function Shut(w: World, s: Sock): World
    requires Known(w, s)
  {
    var d, left := w.socks[s], Left(w, s);
    if d.wbuf + left != [] then PutSock(w, s, Poll(d.(state := SockHalfclosed, wbuf := d.wbuf + left), true, false))
    else Gone(w, s, d.tunnel, Without(w, s, StatusLeft(w, s)))
  }

  /** The end of a connection that is not a drained private one with a remote: as long as there are bytes to
      write, those taken over included, the socket stays, half closed and armed for writing only; otherwise
      it is gone and its place has the right status. */
  lemma ShutdownIs(w: World, s: Sock)
    requires PoolInv(w) && s in w.socks && Known(w, s)
    requires w.socks[s].ispriv ==> w.tuns[w.socks[s].tunnel].remote == null || w.socks[s].wbuf != []
    ensures SockShutdown(w, s) == Some(Shut(w, s))
  {
    Owner(w, s);
    var d, t := w.socks[s], w.socks[s].tunnel;
    var w0 := PutSock(w, s, d.(state := SockHalfclosed));
    assert w0.socks - {s} == w.socks - {s};
    if d.ispriv {
      PrivateShutdownIs(w, s);
      assert d.wbuf + [] == d.wbuf;
      if d.wbuf == [] {
        UnpairedPrivateEnd(w0, s, t);
      }
    } else {
      var left := RemoteShutdownIs(w, s, t);
      if d.wbuf + left == [] {
        RemoteEnd(w0, s, t);
      }
    }
  }

  lemma ReaderEnds(w: World, s: Sock, got: ReadResult)
    requires Known(w, s) && Ended(got)
    ensures Becomes(w, Shut(w, s), Read(s, got), s)
  {
    assert [] + (w.socks[s].wbuf + Left(w, s)) == w.socks[s].wbuf + Left(w, s);
  }

  lemma OtherStays(w: World, v: World, s: Sock, got: ReadResult, x: Sock)
    requires Known(w, s) && Known(w, x) && SockOk(w, x) && x != s && Ended(got)
    requires w.socks[s].tunnel == w.socks[x].tunnel && w.socks[s].ispriv ==> w.socks[s].wbuf != []
    requires x in v.socks && v.socks[x] == w.socks[x]
    ensures Becomes(w, v, Read(s, got), x)
  {
    NothingHappens(w, v, Read(s, got), x);
  }

  /** Two sockets of one tunnel of a pool in order are its private socket and its remote. */
  lemma SocksOfTunnel(w: World, s: Sock, x: Sock)
    requires PoolInv(w) && Known(w, s) && Known(w, x) && w.socks[s].tunnel == w.socks[x].tunnel && x != s
    ensures var t := w.socks[s].tunnel;
      && t in w.app && w.tuns[t].hs.state == ConnectedState && w.tuns[t].status == TunnRun
      && w.tuns[t].remote == (if w.socks[s].ispriv then x else s)
      && w.tuns[t].priv == (if w.socks[s].ispriv then s else x)
      && w.socks[x].ispriv != w.socks[s].ispriv
  {
    Owner(w, s);
    Owner(w, x);
  }

  lemma GoneTwice(w: World, s: Sock, d: SockData, r: Sock, t: Tunnel, td0: TunnelData, td: TunnelData)
    requires s in w.socks && r in w.socks && t in w.tuns
    ensures Gone(Gone(PutSock(w, s, d), s, t, td0), r, t, td)
         == w.(socks := w.socks - {s} - {r}, tuns := w.tuns[t := td])
  {
    assert w.socks[s := d] - {s} == w.socks - {s};
    PutTwice(w.tuns, t, td0, td);
  }

  /** The end of a drained private connection that is paired takes the remote with it, and leaves an idle
      tunnel without any socket. */
  lemma PairedEndIs(w: World, s: Sock)
    requires PoolInv(w) && Known(w, s) && w.socks[s].ispriv && w.socks[s].wbuf == []
    requires w.tuns[w.socks[s].tunnel].remote != null
    ensures var t := w.socks[s].tunnel; var td, r := w.tuns[t], w.tuns[t].remote;
      && r in w.socks && w.socks[r].tunnel == t && r != s
      && SockShutdown(w, s) == Some(w.(socks := w.socks - {s} - {r},
           tuns := w.tuns[t := td.(status := TunnIdle, priv := null, remote := null)]))
  {
    Owner(w, s);
    PrivateShutdownIs(w, s);
    var t, d := w.socks[s].tunnel, w.socks[s].(state := SockHalfclosed);
    var td, r, w1 := w.tuns[t], w.tuns[t].remote, PutSock(w, s, d);
    ShapeIsWired(w);
    SockChanges(w, s, d);
    ClosePrivateIs(w1, s, t);
    GoneTwice(w, s, d, r, t, td.(priv := null), td.(status := TunnIdle, priv := null, remote := null));
    assert CloseDrained(w1, s, t) == ClosePrivate(w1, s, t);
  }

  lemma BothAreReleased(w: World, v: World, s: Sock, got: ReadResult, x: Sock)
    requires Known(w, s) && Known(w, x) && Ended(got) && w.socks[s].ispriv && w.socks[s].wbuf == []
    requires w.socks[x].tunnel == w.socks[s].tunnel && x !in v.socks
    ensures Becomes(w, v, Read(s, got), x)
  {
  }

  lemma PairedEndBecomes(w: World, s: Sock, got: ReadResult, x: Sock)
    requires PoolInv(w) && Ended(got) && Known(w, s) && Known(w, x)
    requires w.socks[s].ispriv && w.tuns[w.socks[s].tunnel].remote != null && w.socks[s].wbuf == []
    ensures ReadHandle(w, s, got).Some? && Becomes(w, ReadHandle(w, s, got).value, Read(s, got), x)
  {
    PairedEndIs(w, s);
    var v := ReadHandle(w, s, got).value;
    if x == s {
      BothAreReleased(w, v, s, got, x);
    } else if w.socks[x].tunnel == w.socks[s].tunnel {
      SocksOfTunnel(w, s, x);
      BothAreReleased(w, v, s, got, x);
    } else {
      assert SockOk(w, x);
      OtherStays(w, v, s, got, x);
    }
  }

  lemma EndBecomes(w: World, s: Sock, got: ReadResult, x: Sock)
    requires PoolInv(w) && Ended(got) && Known(w, s) && Known(w, x)
    ensures ReadHandle(w, s, got).Some? && Becomes(w, ReadHandle(w, s, got).value, Read(s, got), x)
  {
    if w.socks[s].ispriv && w.tuns[w.socks[s].tunnel].remote != null && w.socks[s].wbuf == [] {
      PairedEndBecomes(w, s, got, x);
    } else {
      ShutdownIs(w, s);
      ReaderEnds(w, s, got);
      assert ReadHandle(w, s, got) == Some(Shut(w, s));
      if x != s {
        assert SockOk(w, x);
        LoneOrFull(w, s, x);
        OtherStays(w, Shut(w, s), s, got, x);
      }
    }
  }

  lemma LoneOrFull(w: World, s: Sock, x: Sock)
    requires PoolInv(w) && Known(w, s) && Known(w, x) && x != s
    requires !(w.socks[s].ispriv && w.tuns[w.socks[s].tunnel].remote != null && w.socks[s].wbuf == [])
    ensures w.socks[s].tunnel == w.socks[x].tunnel && w.socks[s].ispriv ==> w.socks[s].wbuf != []
  {
    if w.socks[s].tunnel == w.socks[x].tunnel {
      SocksOfTunnel(w, s, x);
    }
  }

  // ----- handshakes

  /** What a handler leaves of the private socket. */
  lemma HandlerIs(w: World, s: Sock, got: ReadResult)
    requires Known(w, s) && !Ended(got) && w.tuns[w.socks[s].tunnel].priv == s
    requires InHandshake(w.tuns[w.socks[s].tunnel].hs.state)
    ensures var t := w.socks[s].tunnel; var o := Handle(w.conf, w.tuns[t].hs, Input(w, s, got));
      ReadHandle(w, s, got) ==
        match o.verdict
        case Proceed => Some(AfterHandler(Arrived(w, s, got), t, o))
        case Reject => SockForceShutdown(AfterHandler(Arrived(w, s, got), t, o), s)
        case Abort => None
  {
    assert w.socks[s].rbuf + [] == w.socks[s].rbuf;
  }

  lemma ReplyIsQueued(w: World, s: Sock, got: ReadResult, o: Out)
    requires Known(w, s) && SockOk(w, s) && w.socks[s].ispriv && w.tuns[w.socks[s].tunnel].priv == s && !Ended(got)
    requires InHandshake(w.tuns[w.socks[s].tunnel].hs.state)
    requires o == Handle(w.conf, w.tuns[w.socks[s].tunnel].hs, Input(w, s, got)) && o.verdict == Proceed
    ensures Becomes(w, AfterHandler(Arrived(w, s, got), w.socks[s].tunnel, o), Read(s, got), s)
  {
    assert [] + (w.socks[s].wbuf + o.reply) == w.socks[s].wbuf + o.reply;
    assert o.reply == [] ==> w.socks[s].wbuf + o.reply == w.socks[s].wbuf;
  }

  /** No other socket belongs to a tunnel in its handshake. */
  lemma AloneInHandshake(w: World, s: Sock, x: Sock)
    requires PoolInv(w) && Known(w, s) && Known(w, x) && x != s && InHandshake(w.tuns[w.socks[s].tunnel].hs.state)
    ensures w.socks[x].tunnel != w.socks[s].tunnel
  {
    if w.socks[x].tunnel == w.socks[s].tunnel {
      SocksOfTunnel(w, s, x);
    }
  }

  lemma RefusedIsReleased(w: World, v: World, s: Sock, got: ReadResult)
    requires Known(w, s) && !Ended(got) && InHandshake(w.tuns[w.socks[s].tunnel].hs.state) && s !in v.socks
    requires Handle(w.conf, w.tuns[w.socks[s].tunnel].hs, Input(w, s, got)).verdict == Reject
    ensures Becomes(w, v, Read(s, got), s)
  {
  }

  predicate OnlyTouches(w: World, v: World, s: Sock) {
    forall x :: x in w.socks && x != s ==> x in v.socks && v.socks[x] == w.socks[x]
  }

  lemma HandlerTouches(w: World, s: Sock, t: Tunnel, got: ReadResult, o: Out)
    requires Known(w, s) && w.socks[s].tunnel == t && w.tuns[t].priv == s
    ensures var u := AfterHandler(Arrived(w, s, got), t, o); OnlyTouches(w, u, s) && Known(u, s)
  {
  }

  /** A handler is run, and its socket is answered, or released. */
  lemma HandlerBecomes(w: World, s: Sock, got: ReadResult)
    requires PoolInv(w) && Known(w, s) && !Ended(got) && InHandshake(w.tuns[w.socks[s].tunnel].hs.state)
    ensures ReadHandle(w, s, got).Some? && Becomes(w, ReadHandle(w, s, got).value, Read(s, got), s)
    ensures OnlyTouches(w, ReadHandle(w, s, got).value, s)
  {
    Owner(w, s);
    var t := w.socks[s].tunnel;
    var o := Handle(w.conf, w.tuns[t].hs, Input(w, s, got));
    HandleResumes(w.conf, w.tuns[t].hs, Input(w, s, got), []);
    HandlerIs(w, s, got);
    HandlerTouches(w, s, t, got, o);
    if o.verdict == Proceed {
      ReplyIsQueued(w, s, got, o);
    } else {
      ForceShutdownIs(AfterHandler(Arrived(w, s, got), t, o), s);
      RefusedIsReleased(w, ReadHandle(w, s, got).value, s, got);
    }
  }

  lemma HandshakeBecomes(w: World, s: Sock, got: ReadResult, x: Sock)
    requires PoolInv(w) && Known(w, s) && Known(w, x) && !Ended(got)
    requires InHandshake(w.tuns[w.socks[s].tunnel].hs.state)
    ensures ReadHandle(w, s, got).Some? && Becomes(w, ReadHandle(w, s, got).value, Read(s, got), x)
  {
    HandlerBecomes(w, s, got);
    if x != s {
      AloneInHandshake(w, s, x);
      assert SockOk(w, x);
      NothingHappens(w, ReadHandle(w, s, got).value, Read(s, got), x);
    }
  }

  // ----- the relay

  /** Input of one side of a connected tunnel moves to the other. */
  function Passed(w: World, s: Sock, to: Sock, got: ReadResult): World
    requires s in w.socks && to in w.socks
  {
    var w1 := Arrived(w, s, got);
    if Input(w, s, got) == [] then w1 else Forwarded(w1, s, to)
  }

  lemma PassedIs(w: World, s: Sock, to: Sock, got: ReadResult)
    requires PoolInv(w) && Known(w, s) && Known(w, to) && !Ended(got)
    requires to != s && w.socks[to].tunnel == w.socks[s].tunnel
    ensures ReadHandle(w, s, got) == Some(Passed(w, s, to, got))
  {
    SocksOfTunnel(w, s, to);
    var t, w1 := w.socks[s].tunnel, Arrived(w, s, got);
    assert w.socks[s].rbuf + [] == w.socks[s].rbuf;
    if w.socks[s].ispriv {
      DispatchPairedPrivate(w1, s, t, to);
    } else if Input(w, s, got) != [] {
      DispatchPairedRemote(w1, s, t, to);
    }
  }

  lemma ReaderPasses(w: World, s: Sock, to: Sock, got: ReadResult)
    requires Known(w, s) && Known(w, to) && SockOk(w, s) && to != s && !Ended(got)
    requires w.tuns[w.socks[s].tunnel].hs.state == ConnectedState
    requires w.socks[s].ispriv ==> w.tuns[w.socks[s].tunnel].remote != null
    ensures Becomes(w, Passed(w, s, to, got), Read(s, got), s)
  {
    assert [] + w.socks[s].wbuf == w.socks[s].wbuf + [];
    assert w.socks[s].rbuf + [] == w.socks[s].rbuf;
  }

  lemma PartnerGets(w: World, s: Sock, to: Sock, got: ReadResult)
    requires Known(w, s) && Known(w, to) && SockOk(w, to) && to != s && !Ended(got)
    requires w.socks[to].tunnel == w.socks[s].tunnel
    ensures Becomes(w, Passed(w, s, to, got), Read(s, got), to)
  {
    var e, i := w.socks[to], Input(w, s, got);
    assert [] + e.wbuf == e.wbuf + [] && [] + (e.wbuf + i) == e.wbuf + i;
    assert w.socks[s].rbuf + [] == w.socks[s].rbuf;
  }

  lemma RelayBecomes(w: World, s: Sock, to: Sock, got: ReadResult, x: Sock)
    requires PoolInv(w) && Known(w, s) && Known(w, to) && Known(w, x) && !Ended(got)
    requires to != s && w.socks[to].tunnel == w.socks[s].tunnel
    ensures ReadHandle(w, s, got).Some? && Becomes(w, ReadHandle(w, s, got).value, Read(s, got), x)
  {
    SocksOfTunnel(w, s, to);
    PassedIs(w, s, to, got);
    assert SockOk(w, s) && SockOk(w, to) && SockOk(w, x);
    ReaderPasses(w, s, to, got);
    PartnerGets(w, s, to, got);
    if x != s && x != to {
      if w.socks[x].tunnel == w.socks[s].tunnel {
        SocksOfTunnel(w, s, x);
      }
      NothingHappens(w, Passed(w, s, to, got), Read(s, got), x);
    }
  }

  lemma LoneIs(w: World, s: Sock, got: ReadResult)
    requires PoolInv(w) && Known(w, s) && !Ended(got) && w.socks[s].ispriv
    requires w.tuns[w.socks[s].tunnel].hs.state == ConnectedState && w.tuns[w.socks[s].tunnel].remote == null
    ensures ReadHandle(w, s, got) == Some(Shut(Arrived(w, s, got), s))
  {
    var w1 := Arrived(w, s, got);
    assert PutSock(w, s, w.socks[s]) == w;
    InputKeeps(w, s, if got.Data? then got.bytes else []);
    assert w.socks[s].rbuf + [] == w.socks[s].rbuf;
    LonePrivateCloses(w1, s, w.socks[s].tunnel);
    ShutdownIs(w1, s);
  }

  /** A private socket of a connected tunnel that has no one to pass its input to. */
  lemma LoneBecomes(w: World, s: Sock, got: ReadResult, x: Sock)
    requires PoolInv(w) && Known(w, s) && Known(w, x) && !Ended(got) && w.socks[s].ispriv
    requires w.tuns[w.socks[s].tunnel].hs.state == ConnectedState && w.tuns[w.socks[s].tunnel].remote == null
    ensures ReadHandle(w, s, got).Some? && Becomes(w, ReadHandle(w, s, got).value, Read(s, got), x)
  {
    var w1 := Arrived(w, s, got);
    LoneIs(w, s, got);
    LoneEnds(w, s, got);
    if x != s {
      if w.socks[x].tunnel == w.socks[s].tunnel {
        SocksOfTunnel(w, s, x);
      }
      assert SockOk(w, x);
      NothingHappens(w, Shut(w1, s), Read(s, got), x);
    }
  }

  lemma LoneEnds(w: World, s: Sock, got: ReadResult)
    requires Known(w, s) && !Ended(got) && w.socks[s].ispriv
    requires w.tuns[w.socks[s].tunnel].hs.state == ConnectedState && w.tuns[w.socks[s].tunnel].remote == null
    ensures Becomes(w, Shut(Arrived(w, s, got), s), Read(s, got), s)
  {
    assert [] + (w.socks[s].wbuf + []) == w.socks[s].wbuf + [];
    assert w.socks[s].rbuf + [] == w.socks[s].rbuf;
  }

  // ----- parked remotes

  lemma AnswerIs(w: World, s: Sock, got: ReadResult)
    requires Known(w, s) && !Ended(got) && w.tuns[w.socks[s].tunnel].hs.state == WaittingState
    requires w.tuns[w.socks[s].tunnel].remote == s
    ensures var d, t := w.socks[s], w.socks[s].tunnel;
      ReadHandle(w, s, got) == Some(PutTun(
        PutSock(w, s, Poll(d.(wbuf := d.wbuf + RESPONSE, rbuf := []), true, true)),
        t, w.tuns[t].(status := TmptunClose)))
  {
    var d := w.socks[s];
    PutTwice(w.socks, s, Arrived(w, s, got).socks[s], Poll(d.(wbuf := d.wbuf + RESPONSE, rbuf := []), true, true));
  }

  lemma AnswerBecomes(w: World, s: Sock, got: ReadResult, x: Sock)
    requires PoolInv(w) && Known(w, s) && Known(w, x) && !Ended(got) && w.socks[s].tunnel in w.wait
    ensures ReadHandle(w, s, got).Some? && Becomes(w, ReadHandle(w, s, got).value, Read(s, got), x)
  {
    Owner(w, s);
    AnswerIs(w, s, got);
    var v := ReadHandle(w, s, got).value;
    AnswerIsQueued(w, v, s, got);
    if x != s {
      if w.socks[x].tunnel == w.socks[s].tunnel {
        SocksOfTunnel(w, s, x);
      }
      assert SockOk(w, x);
      NothingHappens(w, v, Read(s, got), x);
    }
  }

  lemma AnswerIsQueued(w: World, v: World, s: Sock, got: ReadResult)
    requires Known(w, s) && !Ended(got) && w.tuns[w.socks[s].tunnel].hs.state == WaittingState
    requires s in v.socks && v.socks[s] == Poll(w.socks[s].(wbuf := w.socks[s].wbuf + RESPONSE, rbuf := []), true, true)
    ensures Becomes(w, v, Read(s, got), s)
  {
    assert |RESPONSE| > 0;
    assert [] + (w.socks[s].wbuf + RESPONSE) == w.socks[s].wbuf + RESPONSE;
  }

  lemma ReadBecomes(w: World, s: Sock, got: ReadResult, x: Sock)
    requires PoolInv(w) && Known(w, s) && Known(w, x)
    ensures ReadHandle(w, s, got).Some? && Becomes(w, ReadHandle(w, s, got).value, Read(s, got), x)
  {
    Owner(w, s);
    var t := w.socks[s].tunnel;
    if Ended(got) {
      EndBecomes(w, s, got, x);
    } else if InHandshake(w.tuns[t].hs.state) {
      HandshakeBecomes(w, s, got, x);
    } else if t in w.wait {
      AnswerBecomes(w, s, got, x);
    } else if w.socks[s].ispriv && w.tuns[t].remote == null {
      LoneBecomes(w, s, got, x);
    } else {
      var to := if w.socks[s].ispriv then w.tuns[t].remote else w.tuns[t].priv;
      RelayBecomes(w, s, to, got, x);
    }
  }

  // ----- writing

  /** What a write event leaves of its socket: what is still to be written, and the matching interest. */
  function Sent(w: World, s: Sock, wbuf: seq<byte>): SockData
    requires s in w.socks
  {
    Poll(w.socks[s].(wbuf := wbuf), wbuf != [], true)
  }

  /** The world in which the drained remote `s` is parked. */
  function ParkedAway(w: World, s: Sock, nt: Tunnel): World
    requires Known(w, s)
  {
    var c := Target(w, w.wait, TmptunFree, nt);
    var hs := (if c in w.tuns then w.tuns[c].hs else ZERO_HS).(state := WaittingState);
    Parked(w, s, w.socks[s].tunnel, c, if c in w.tuns then w.wait else [c] + w.wait, hs)
  }

  /** A write event of any socket: all that was not sent stays. */
  function Written(w: World, s: Sock, put: WriteResult, nt: Tunnel): World
    requires Known(w, s) && Enabled(w, Write(s, put, nt))
  {
    var td, rest := w.tuns[w.socks[s].tunnel], if put.Wrote? then w.socks[s].wbuf[put.n..] else w.socks[s].wbuf;
    if put.WriteError? then
      var td1 := if td.status == TmptunClose then td.(status := TmptunFree, remote := null)
                 else if s == td.remote then td.(status := TunnIdle, remote := null) else td.(priv := null);
      Gone(w, s, w.socks[s].tunnel, td1)
    else if Parks(w, Write(s, put, nt), s) then ParkedAway(w, s, nt)
    else PutSock(w, s, Sent(w, s, rest))
  }

  lemma DrainedWhenAllIsSent(w: World, s: Sock, put: WriteResult, nt: Tunnel)
    requires Known(w, s) && Enabled(w, Write(s, put, nt)) && w.socks[s].wbuf != [] && !put.WriteError?
    ensures var rest := if put.Wrote? then w.socks[s].wbuf[put.n..] else w.socks[s].wbuf;
      && BytesOut(w, Write(s, put, nt), s) + rest == w.socks[s].wbuf
      && (BytesOut(w, Write(s, put, nt), s) == w.socks[s].wbuf <==> rest == [])
  {
  }

  lemma WrittenIs(w: World, s: Sock, put: WriteResult, nt: Tunnel)
    requires PoolInv(w) && Known(w, s) && Enabled(w, Write(s, put, nt))
    ensures WriteHandle(w, s, put, nt) == Some(Written(w, s, put, nt))
  {
    Owner(w, s);
    var t, d := w.socks[s].tunnel, w.socks[s];
    if put.WriteError? {
      ForceShutdownIs(w, s);
    } else {
      var rest := if put.Wrote? then d.wbuf[put.n..] else d.wbuf;
      WriteIs(w, s, put, nt);
      DrainedWhenAllIsSent(w, s, put, nt);
      if Parks(w, Write(s, put, nt), s) {
        ShapeIsWired(w);
        NoPrivateWaits(w);
        var c, hs := SwitchIs(w, PutSock(w, s, d.(wbuf := rest)), s, t, nt);
      } else {
        PutTwice(w.socks, s, d.(wbuf := rest), Sent(w, s, rest));
      }
    }
  }

  lemma WriterBecomes(w: World, s: Sock, put: WriteResult, nt: Tunnel)
    requires Known(w, s) && SockOk(w, s) && Enabled(w, Write(s, put, nt)) && w.socks[s].wbuf != []
    ensures Becomes(w, Written(w, s, put, nt), Write(s, put, nt), s)
  {
    if !put.WriteError? {
      DrainedWhenAllIsSent(w, s, put, nt);
      assert w.socks[s].wbuf + [] == w.socks[s].wbuf;
    }
  }

  lemma WriteBecomes(w: World, s: Sock, put: WriteResult, nt: Tunnel, x: Sock)
    requires PoolInv(w) && Known(w, s) && Known(w, x) && Enabled(w, Write(s, put, nt))
    ensures WriteHandle(w, s, put, nt).Some?
    ensures Becomes(w, WriteHandle(w, s, put, nt).value, Write(s, put, nt), x)
  {
    WrittenIs(w, s, put, nt);
    assert SockOk(w, s) && SockOk(w, x);
    if x == s {
      WriterBecomes(w, s, put, nt);
    } else {
      NothingHappens(w, Written(w, s, put, nt), Write(s, put, nt), x);
    }
  }

  // ----- pairing

  lemma PairBecomes(w: World, x: Sock)
    requires PoolInv(w) && Known(w, x)
    ensures PairFrom(w, 0).Some? && Becomes(w, PairFrom(w, 0).value, Pair, x)
  {
    ShapeIsWired(w);
    var v, idles, waiters := PassServes(w);
    assert SockOk(w, x);
    ServedBecomes(w, v, idles, waiters, x);
  }

  lemma TakenBecomes(w: World, v: World, t: Tunnel, p: Tunnel, r: Sock)
    requires TookOver(w, v, t, p) && w.tuns[p].remote == r && Known(w, r) && SockOk(w, r) && w.socks[r].rbuf == []
    ensures Becomes(w, v, Pair, r)
  {
    assert [] + w.socks[r].wbuf == w.socks[r].wbuf + [];
  }

  lemma TakerBecomes(w: World, v: World, t: Tunnel, p: Tunnel, x: Sock)
    requires TookOver(w, v, t, p) && w.tuns[t].priv == x && Known(w, x) && SockOk(w, x)
    requires w.socks[w.tuns[p].remote].rbuf == []
    ensures Becomes(w, v, Pair, x)
  {
    assert [] + w.socks[x].wbuf == w.socks[x].wbuf + [];
  }

  lemma WaiterBecomes(w: World, v: World, idles: seq<Tunnel>, waiters: seq<Tunnel>, x: Sock)
    requires Wired(w) && Drained(w) && PairedUp(w, v, idles, waiters) && x in w.socks && SockOk(w, x)
    requires w.socks[x].tunnel in waiters && w.socks[x].tunnel in w.wait
    ensures Known(w, x) && Becomes(w, v, Pair, x)
  {
    var t := w.socks[x].tunnel;
    var k :| 0 <= k < |waiters| && waiters[k] == t;
    SockOwner(w, x);
    TakenBecomes(w, v, idles[k], t, x);
  }

  lemma IdleBecomes(w: World, v: World, idles: seq<Tunnel>, waiters: seq<Tunnel>, x: Sock)
    requires Wired(w) && Drained(w) && PairedUp(w, v, idles, waiters) && x in w.socks && SockOk(w, x)
    requires w.socks[x].tunnel in idles && w.socks[x].ispriv
    requires forall u :: u in waiters ==> u in w.wait
    ensures Known(w, x) && Becomes(w, v, Pair, x)
  {
    var t := w.socks[x].tunnel;
    var k :| 0 <= k < |idles| && idles[k] == t;
    SockOwner(w, x);
    assert TookOver(w, v, idles[k], waiters[k]) && waiters[k] in waiters && TunWired(w, waiters[k]);
    TakerBecomes(w, v, t, waiters[k], x);
  }

  lemma ServedBecomes(w: World, v: World, idles: seq<Tunnel>, waiters: seq<Tunnel>, x: Sock)
    requires Wired(w) && Drained(w) && PairedUp(w, v, idles, waiters) && Known(w, x) && SockOk(w, x)
    requires forall u :: u in waiters ==> u in w.wait
    ensures Becomes(w, v, Pair, x)
  {
    var t := w.socks[x].tunnel;
    if t in waiters {
      WaiterBecomes(w, v, idles, waiters, x);
    } else if t in idles && w.socks[x].ispriv {
      IdleBecomes(w, v, idles, waiters, x);
    } else {
      NothingHappens(w, v, Pair, x);
    }
  }

  // ----- what becomes of a tunnel

  /** The event makes `s` the socket of no one. */
  predicate IsReleased(w: World, e: Event, s: Sock?) {
    s in w.socks && w.socks[s].tunnel in w.tuns && FateOf(w, e, s).Released?
  }

  function PrivOf(w: World, e: Event, t: Tunnel): Sock?
    requires t in w.tuns
  {
    if e.AcceptPrivate? && t == Target(w, w.app, TunnFree, e.nt) then e.ns
    else if IsReleased(w, e, w.tuns[t].priv) then null
    else w.tuns[t].priv
  }

  function RemoteOf(w: World, e: Event, t: Tunnel): Sock?
    requires t in w.tuns
  {
    if e.AcceptRemote? && t == RemoteTarget(w, e.nt) then e.ns
    else if e.Write? && Known(w, e.s) && Parks(w, e, e.s) && t == w.socks[e.s].tunnel then null
    else if e.Write? && Known(w, e.s) && Parks(w, e, e.s) && t == Target(w, w.wait, TmptunFree, e.nt) then e.s
    else if IsReleased(w, e, w.tuns[t].remote) then null
    else w.tuns[t].remote
  }

  function FieldsOf(w: World, e: Event, t: Tunnel): Hs
    requires t in w.tuns
  {
    var hs := w.tuns[t].hs;
    match e
    case AcceptPrivate(_, nt) =>
      if t == Target(w, w.app, TunnFree, nt) then hs.(state := OpenState, readCount := 0) else hs
    case AcceptRemote(_, nt) =>
      if t != RemoteTarget(w, nt) then hs
      else hs.(state := if t in w.app then ConnectedState else WaittingState, readCount := 0)
    case Read(s, got) =>
      if s in w.socks && w.socks[s].tunnel == t && !Ended(got) && InHandshake(hs.state)
      then Handle(w.conf, hs, Input(w, s, got)).h else hs
    case Write(s, _, nt) =>
      if Known(w, s) && Parks(w, e, s) && t == Target(w, w.wait, TmptunFree, nt) then hs.(state := WaittingState)
      else hs
    case Pair => hs
  }

  /** The status of the tunnel of `s` after `s` has read.  A tunnel whose request has been accepted is idle;
      an answered entry is closing; and a tunnel that loses a socket is free or idle. */
  function StatusRead(w: World, s: Sock, got: ReadResult): Status
    requires Known(w, s)
  {
    var d, td := w.socks[s], w.tuns[w.socks[s].tunnel];
    if !Ended(got) && InHandshake(td.hs.state) then
      var o := Handle(w.conf, td.hs, Input(w, s, got));
      if o.verdict == Proceed && o.h.state == ConnectedState then TunnIdle else td.status
    else if ReaderFate(w, s, got).Released? then
      if d.ispriv && td.remote != null then TunnIdle else StatusLeft(w, s)
    else if !Ended(got) && td.hs.state != ConnectedState then TmptunClose
    else td.status
  }

  function StatusOf(w: World, e: Event, t: Tunnel): Status
    requires t in w.tuns
  {
    var td := w.tuns[t];
    match e
    case AcceptPrivate(_, nt) => if t == Target(w, w.app, TunnFree, nt) then TunnRun else td.status
    case AcceptRemote(_, nt) =>
      if t != RemoteTarget(w, nt) then td.status else if t in w.app then TunnRun else TmptunWait
    case Read(s, got) => if s in w.socks && w.socks[s].tunnel == t then StatusRead(w, s, got) else td.status
    case Write(s, put, nt) =>
      if !Known(w, s) then td.status
      else if Parks(w, e, s) && t == Target(w, w.wait, TmptunFree, nt) then TmptunAlive
      else if w.socks[s].tunnel != t then td.status
      else if Parks(w, e, s) then TunnIdle
      else if !put.WriteError? || w.socks[s].ispriv then td.status
      else if td.status == TmptunClose then TmptunFree
      else TunnIdle
    case Pair => td.status
  }

  predicate TunnelBecomes(w: World, v: World, e: Event, t: Tunnel)
    requires t in w.tuns
  {
    t in v.tuns && v.tuns[t] == TunnelData(PrivOf(w, e, t), RemoteOf(w, e, t), FieldsOf(w, e, t), StatusOf(w, e, t))
  }

  lemma PrivateAcceptActs(w: World, ns: Sock, nt: Tunnel, t: Tunnel)
    requires t in w.tuns && nt !in w.tuns && AcceptPriv(w, ns, nt).Some?
    ensures TunnelBecomes(w, AcceptPriv(w, ns, nt).value, AcceptPrivate(ns, nt), t)
  {
  }

  /** Where an accepted remote goes, when there is an idle tunnel and when there is none. */
  lemma IdleAcceptActs(w: World, ns: Sock, nt: Tunnel, t: Tunnel)
    requires Lists(w) && t in w.tuns && nt !in w.tuns && AcceptRmt(w, ns, nt).Some?
    requires FindStatus(w.tuns, w.app, TunnIdle) < |w.app|
    ensures TunnelBecomes(w, AcceptRmt(w, ns, nt).value, AcceptRemote(ns, nt), t)
  {
  }

  lemma EntryAcceptActs(w: World, ns: Sock, nt: Tunnel, t: Tunnel)
    requires Lists(w) && t in w.tuns && nt !in w.tuns && AcceptRmt(w, ns, nt).Some?
    requires FindStatus(w.tuns, w.app, TunnIdle) == |w.app|
    ensures TunnelBecomes(w, AcceptRmt(w, ns, nt).value, AcceptRemote(ns, nt), t)
  {
  }

  lemma RemoteAcceptActs(w: World, ns: Sock, nt: Tunnel, t: Tunnel)
    requires Lists(w) && t in w.tuns && nt !in w.tuns && AcceptRmt(w, ns, nt).Some?
    ensures TunnelBecomes(w, AcceptRmt(w, ns, nt).value, AcceptRemote(ns, nt), t)
  {
    if FindStatus(w.tuns, w.app, TunnIdle) < |w.app| {
      IdleAcceptActs(w, ns, nt, t);
    } else {
      EntryAcceptActs(w, ns, nt, t);
    }
  }

  /** The sockets a tunnel points to are live and its own. */
  predicate OwnSocks(w: World, t: Tunnel)
    requires t in w.tuns
  {
    && (w.tuns[t].priv != null ==> PointsBack(w, t, w.tuns[t].priv, true))
    && (w.tuns[t].remote != null ==> PointsBack(w, t, w.tuns[t].remote, false))
  }

  lemma SocksPointHere(w: World, t: Tunnel)
    requires PoolInv(w) && t in w.tuns
    ensures OwnSocks(w, t)
  {
    ShapeIsWired(w);
    assert TunWired(w, t);
  }

  /** An event of one socket leaves the other tunnels alone, but for the place it parks a remote on. */
  lemma OthersKept(w: World, v: World, e: Event, t: Tunnel)
    requires t in w.tuns && t in v.tuns && v.tuns[t] == w.tuns[t] && OwnSocks(w, t)
    requires (e.Read? || e.Write?) && Known(w, e.s) && w.socks[e.s].tunnel != t
    requires e.Write? && Parks(w, e, e.s) ==> t != Target(w, w.wait, TmptunFree, e.nt)
    ensures TunnelBecomes(w, v, e, t)
  {
  }

  /** An event of one socket that keeps all pointers, fields and status. */
  lemma OwnKept(w: World, v: World, s: Sock, got: ReadResult)
    requires Known(w, s) && OwnSocks(w, w.socks[s].tunnel) && w.socks[s].tunnel in v.tuns
    requires v.tuns[w.socks[s].tunnel] == w.tuns[w.socks[s].tunnel]
    requires StatusRead(w, s, got) == w.tuns[w.socks[s].tunnel].status
    requires !InHandshake(w.tuns[w.socks[s].tunnel].hs.state) || Ended(got)
    requires !IsReleased(w, Read(s, got), w.tuns[w.socks[s].tunnel].priv)
    requires !IsReleased(w, Read(s, got), w.tuns[w.socks[s].tunnel].remote)
    ensures TunnelBecomes(w, v, Read(s, got), w.socks[s].tunnel)
  {
  }

  /** The two kinds of socket, each pointed to by its tunnel. */
  predicate Owned(w: World, s: Sock)
    requires Known(w, s)
  {
    && OwnSocks(w, w.socks[s].tunnel)
    && (if w.socks[s].ispriv then w.tuns[w.socks[s].tunnel].priv == s else w.tuns[w.socks[s].tunnel].remote == s)
  }

  lemma ShutActs(w: World, s: Sock, got: ReadResult)
    requires Known(w, s) && Owned(w, s) && Ended(got)
    requires w.socks[s].ispriv ==> w.tuns[w.socks[s].tunnel].remote == null || w.socks[s].wbuf != []
    ensures TunnelBecomes(w, Shut(w, s), Read(s, got), w.socks[s].tunnel)
  {
    assert w.socks[s].wbuf + [] == w.socks[s].wbuf;
  }

  lemma PairedEndActs(w: World, v: World, s: Sock, got: ReadResult)
    requires Known(w, s) && Owned(w, s) && Ended(got) && w.socks[s].ispriv && w.socks[s].wbuf == []
    requires var t := w.socks[s].tunnel;
      && w.tuns[t].remote != null && t in v.tuns
      && v.tuns[t] == w.tuns[t].(status := TunnIdle, priv := null, remote := null)
    ensures TunnelBecomes(w, v, Read(s, got), w.socks[s].tunnel)
  {
    assert w.socks[s].wbuf + [] == w.socks[s].wbuf;
  }

  lemma EndActs(w: World, s: Sock, got: ReadResult, t: Tunnel)
    requires PoolInv(w) && Ended(got) && Known(w, s) && t in w.tuns && ReadHandle(w, s, got).Some?
    ensures TunnelBecomes(w, ReadHandle(w, s, got).value, Read(s, got), t)
  {
    Owner(w, s);
    SocksPointHere(w, w.socks[s].tunnel);
    SocksPointHere(w, t);
    if w.socks[s].ispriv && w.tuns[w.socks[s].tunnel].remote != null && w.socks[s].wbuf == [] {
      PairedEndIs(w, s);
      PairedEndActs(w, ReadHandle(w, s, got).value, s, got);
    } else {
      ShutdownIs(w, s);
      ShutActs(w, s, got);
    }
    if t != w.socks[s].tunnel {
      OthersKept(w, ReadHandle(w, s, got).value, Read(s, got), t);
    }
  }

  lemma HandlerActs(w: World, v: World, s: Sock, got: ReadResult)
    requires Known(w, s) && Owned(w, s) && w.socks[s].ispriv && w.tuns[w.socks[s].tunnel].remote == null && !Ended(got)
    requires var t := w.socks[s].tunnel; var td := w.tuns[t];
      InHandshake(td.hs.state) && t in v.tuns &&
      var o := Handle(w.conf, td.hs, Input(w, s, got));
      var u := AfterHandler(Arrived(w, s, got), t, o);
      && o.verdict != Abort
      && v.tuns[t] == if o.verdict == Proceed then u.tuns[t] else u.tuns[t].(priv := null)
    ensures TunnelBecomes(w, v, Read(s, got), w.socks[s].tunnel)
  {
    HandleAdvances(w.conf, w.tuns[w.socks[s].tunnel].hs, Input(w, s, got));
  }

  lemma HandshakeActs(w: World, s: Sock, got: ReadResult, t: Tunnel)
    requires PoolInv(w) && !Ended(got) && Known(w, s) && t in w.tuns && ReadHandle(w, s, got).Some?
    requires InHandshake(w.tuns[w.socks[s].tunnel].hs.state)
    ensures TunnelBecomes(w, ReadHandle(w, s, got).value, Read(s, got), t)
  {
    Owner(w, s);
    SocksPointHere(w, w.socks[s].tunnel);
    SocksPointHere(w, t);
    var o := Handle(w.conf, w.tuns[w.socks[s].tunnel].hs, Input(w, s, got));
    var u := AfterHandler(Arrived(w, s, got), w.socks[s].tunnel, o);
    HandlerIs(w, s, got);
    HandlerTouches(w, s, w.socks[s].tunnel, got, o);
    if o.verdict == Reject {
      HandleAdvances(w.conf, w.tuns[w.socks[s].tunnel].hs, Input(w, s, got));
      ForceShutdownIs(u, s);
    }
    HandlerActs(w, ReadHandle(w, s, got).value, s, got);
    if t != w.socks[s].tunnel {
      OthersKept(w, ReadHandle(w, s, got).value, Read(s, got), t);
    }
  }

  lemma PassActs(w: World, s: Sock, to: Sock, got: ReadResult, t: Tunnel)
    requires PoolInv(w) && !Ended(got) && Known(w, s) && Known(w, to) && t in w.tuns
    requires to != s && w.socks[to].tunnel == w.socks[s].tunnel
    ensures ReadHandle(w, s, got).Some? && TunnelBecomes(w, ReadHandle(w, s, got).value, Read(s, got), t)
  {
    SocksOfTunnel(w, s, to);
    PassedIs(w, s, to, got);
    SocksPointHere(w, t);
    if t == w.socks[s].tunnel {
      OwnKept(w, Passed(w, s, to, got), s, got);
    } else {
      OthersKept(w, Passed(w, s, to, got), Read(s, got), t);
    }
  }

  lemma LoneEndActs(w: World, s: Sock, got: ReadResult)
    requires Known(w, s) && Owned(w, s) && !Ended(got) && w.socks[s].ispriv
    requires w.tuns[w.socks[s].tunnel].hs.state == ConnectedState && w.tuns[w.socks[s].tunnel].remote == null
    ensures TunnelBecomes(w, Shut(Arrived(w, s, got), s), Read(s, got), w.socks[s].tunnel)
  {
    assert w.socks[s].wbuf + [] == w.socks[s].wbuf;
  }

  lemma LoneActs(w: World, s: Sock, got: ReadResult, t: Tunnel)
    requires PoolInv(w) && Known(w, s) && !Ended(got) && w.socks[s].ispriv && t in w.tuns
    requires w.tuns[w.socks[s].tunnel].hs.state == ConnectedState && w.tuns[w.socks[s].tunnel].remote == null
    ensures ReadHandle(w, s, got).Some? && TunnelBecomes(w, ReadHandle(w, s, got).value, Read(s, got), t)
  {
    Owner(w, s);
    LoneIs(w, s, got);
    SocksPointHere(w, w.socks[s].tunnel);
    SocksPointHere(w, t);
    LoneEndActs(w, s, got);
    if t != w.socks[s].tunnel {
      OthersKept(w, Shut(Arrived(w, s, got), s), Read(s, got), t);
    }
  }

  lemma AnsweredActs(w: World, v: World, s: Sock, got: ReadResult)
    requires Known(w, s) && Owned(w, s) && !Ended(got) && !w.socks[s].ispriv
    requires var t := w.socks[s].tunnel;
      && w.tuns[t].hs.state == WaittingState && w.tuns[t].priv == null
      && t in v.tuns && v.tuns[t] == w.tuns[t].(status := TmptunClose)
    ensures TunnelBecomes(w, v, Read(s, got), w.socks[s].tunnel)
  {
  }

  lemma AnswerActs(w: World, s: Sock, got: ReadResult, t: Tunnel)
    requires PoolInv(w) && Known(w, s) && !Ended(got) && w.socks[s].tunnel in w.wait && t in w.tuns
    ensures ReadHandle(w, s, got).Some? && TunnelBecomes(w, ReadHandle(w, s, got).value, Read(s, got), t)
  {
    Owner(w, s);
    SocksPointHere(w, w.socks[s].tunnel);
    SocksPointHere(w, t);
    AnswerIs(w, s, got);
    if t == w.socks[s].tunnel {
      AnsweredActs(w, ReadHandle(w, s, got).value, s, got);
    } else {
      OthersKept(w, ReadHandle(w, s, got).value, Read(s, got), t);
    }
  }

  lemma ReadActs(w: World, s: Sock, got: ReadResult, t: Tunnel)
    requires PoolInv(w) && Known(w, s) && t in w.tuns && ReadHandle(w, s, got).Some?
    ensures TunnelBecomes(w, ReadHandle(w, s, got).value, Read(s, got), t)
  {
    Owner(w, s);
    var o := w.socks[s].tunnel;
    if Ended(got) {
      EndActs(w, s, got, t);
    } else if InHandshake(w.tuns[o].hs.state) {
      HandshakeActs(w, s, got, t);
    } else if o in w.wait {
      AnswerActs(w, s, got, t);
    } else if w.socks[s].ispriv && w.tuns[o].remote == null {
      LoneActs(w, s, got, t);
    } else {
      PassActs(w, s, if w.socks[s].ispriv then w.tuns[o].remote else w.tuns[o].priv, got, t);
    }
  }

  lemma WriteActs(w: World, s: Sock, put: WriteResult, nt: Tunnel, t: Tunnel)
    requires PoolInv(w) && Known(w, s) && Enabled(w, Write(s, put, nt)) && t in w.tuns
    ensures WriteHandle(w, s, put, nt).Some?
    ensures TunnelBecomes(w, WriteHandle(w, s, put, nt).value, Write(s, put, nt), t)
  {
    Owner(w, s);
    WrittenIs(w, s, put, nt);
    SocksPointHere(w, w.socks[s].tunnel);
    SocksPointHere(w, t);
    var v, e := Written(w, s, put, nt), Write(s, put, nt);
    if t == w.socks[s].tunnel {
      WriterActs(w, s, put, nt);
    } else if Parks(w, e, s) && t == Target(w, w.wait, TmptunFree, nt) {
      assert WaitOk(w, t);
    } else {
      OthersKept(w, v, e, t);
    }
  }

  lemma WriterActs(w: World, s: Sock, put: WriteResult, nt: Tunnel)
    requires Known(w, s) && Owned(w, s) && Enabled(w, Write(s, put, nt))
    requires var t := w.socks[s].tunnel;
      && (t in w.wait ==> w.tuns[t].status != TmptunFree && w.tuns[t].status != TunnRun)
      && (w.socks[s].ispriv ==> w.tuns[t].status != TmptunClose)
    ensures TunnelBecomes(w, Written(w, s, put, nt), Write(s, put, nt), w.socks[s].tunnel)
  {
  }

  // ----- what is new

  /** The event needs an entry of the waitList: a remote is accepted without an idle tunnel, or parked. */
  predicate TakesEntry(w: World, e: Event) {
    || (e.AcceptRemote? && FindStatus(w.tuns, w.app, TunnIdle) == |w.app|)
    || (e.Write? && Known(w, e.s) && Parks(w, e, e.s))
  }

  /** New tunnels are in front. */
  function AppOf(w: World, e: Event): seq<Tunnel> {
    if e.AcceptPrivate? && FindStatus(w.tuns, w.app, TunnFree) == |w.app| then [e.nt] + w.app else w.app
  }

  function WaitOf(w: World, e: Event): seq<Tunnel> {
    if TakesEntry(w, e) && FindStatus(w.tuns, w.wait, TmptunFree) == |w.wait| then [e.nt] + w.wait else w.wait
  }

  /** A new tunnel has zeroed fields and the socket it was made for. */
  function NewTunnel(e: Event): TunnelData
    requires e.AcceptPrivate? || e.AcceptRemote? || e.Write?
  {
    match e
    case AcceptPrivate(ns, _) => TunnelData(ns, null, ZERO_HS, TunnIdle)
    case AcceptRemote(ns, _) => TunnelData(null, ns, ZERO_HS.(state := WaittingState), TmptunWait)
    case Write(s, _, _) => TunnelData(null, s, ZERO_HS.(state := WaittingState), TmptunAlive)
  }

  /** A new socket is connected, has nothing to read or to write, and waits for input. */
  function NewSock(w: World, e: Event): SockData
    requires e.AcceptPrivate? || e.AcceptRemote?
  {
    var t := if e.AcceptPrivate? then Target(w, w.app, TunnFree, e.nt) else RemoteTarget(w, e.nt);
    SockData(e.AcceptPrivate?, SockConnected, [], [], t, true, false)
  }

  /** Beyond what was there, only a socket and a tunnel that the event has made. */
  predicate Adds(w: World, v: World, e: Event) {
    && v.conf == w.conf && v.app == AppOf(w, e) && v.wait == WaitOf(w, e)
    && (e.AcceptPrivate? || e.AcceptRemote? ==> e.ns in v.socks && v.socks[e.ns] == NewSock(w, e))
    && (forall x :: x in v.socks && x !in w.socks ==> (e.AcceptPrivate? || e.AcceptRemote?) && x == e.ns)
    && (forall t :: t in v.tuns && t !in w.tuns ==>
          (e.AcceptPrivate? || e.AcceptRemote? || e.Write?) && t == e.nt && v.tuns[t] == NewTunnel(e))
  }

  lemma PrivateAcceptAdds(w: World, ns: Sock, nt: Tunnel)
    requires Lists(w) && ns !in w.socks && nt !in w.tuns && AcceptPriv(w, ns, nt).Some?
    ensures Adds(w, AcceptPriv(w, ns, nt).value, AcceptPrivate(ns, nt))
  {
  }

  lemma RemoteAcceptAdds(w: World, ns: Sock, nt: Tunnel)
    requires Lists(w) && ns !in w.socks && nt !in w.tuns && AcceptRmt(w, ns, nt).Some?
    ensures Adds(w, AcceptRmt(w, ns, nt).value, AcceptRemote(ns, nt))
  {
  }

  lemma AcceptAdds(w: World, e: Event)
    requires Wired(w) && Enabled(w, e) && (e.AcceptPrivate? || e.AcceptRemote?) && Step(w, e).Some?
    ensures Adds(w, Step(w, e).value, e)
  {
    if e.AcceptPrivate? {
      PrivateAcceptAdds(w, e.ns, e.nt);
    } else {
      RemoteAcceptAdds(w, e.ns, e.nt);
    }
  }

  lemma WriteAdds(w: World, s: Sock, put: WriteResult, nt: Tunnel)
    requires PoolInv(w) && Known(w, s) && Enabled(w, Write(s, put, nt))
    ensures WriteHandle(w, s, put, nt).Some? && Adds(w, WriteHandle(w, s, put, nt).value, Write(s, put, nt))
  {
    WrittenIs(w, s, put, nt);
    TargetIsListed(w, nt);
    WrittenAdds(w, s, put, nt);
  }

  lemma WrittenAdds(w: World, s: Sock, put: WriteResult, nt: Tunnel)
    requires Known(w, s) && Enabled(w, Write(s, put, nt))
    requires Target(w, w.wait, TmptunFree, nt) in w.tuns <==> FindStatus(w.tuns, w.wait, TmptunFree) < |w.wait|
    ensures Adds(w, Written(w, s, put, nt), Write(s, put, nt))
  {
  }

  lemma TargetIsListed(w: World, nt: Tunnel)
    requires PoolInv(w) && nt !in w.tuns
    ensures Target(w, w.wait, TmptunFree, nt) in w.tuns <==> FindStatus(w.tuns, w.wait, TmptunFree) < |w.wait|
  {
  }

  // ----- every event

  lemma RemoteIsRefused(w: World, ns: Sock, nt: Tunnel)
    requires PoolInv(w) && Enabled(w, AcceptRemote(ns, nt))
    ensures AcceptRmt(w, ns, nt).None? <==> !IdleIsAttached(w)
  {
    if IdleIsAttached(w) {
      AcceptRemoteKeeps(w, ns, nt);
    }
  }

  /** One event of a pool in order fails only when a remote is accepted while the first idle tunnel has no
      private socket. */
  lemma OnlyRemotesFail(w: World, e: Event)
    requires PoolInv(w) && Enabled(w, e)
    ensures Step(w, e).None? <==> e.AcceptRemote? && !IdleIsAttached(w)
  {
    match e
    case AcceptPrivate(ns, nt) => AcceptPrivateKeeps(w, ns, nt);
    case AcceptRemote(ns, nt) => RemoteIsRefused(w, ns, nt);
    case Read(s, got) =>
      Owner(w, s);
      ReadBecomes(w, s, got, s);
    case Write(s, put, nt) =>
      Owner(w, s);
      WrittenIs(w, s, put, nt);
    case Pair =>
      ShapeIsWired(w);
      PairingPass(w);
  }

  /** One event of a pool in order, safe or not: every socket becomes what its fate says. */
  lemma SocketsAct(w: World, e: Event, s: Sock)
    requires PoolInv(w) && Enabled(w, e) && Step(w, e).Some? && s in w.socks
    ensures Known(w, s) && Becomes(w, Step(w, e).value, e, s)
  {
    Owner(w, s);
    match e
    case AcceptPrivate(ns, nt) => AcceptBecomes(w, e, s);
    case AcceptRemote(ns, nt) => AcceptBecomes(w, e, s);
    case Read(x, got) =>
      Owner(w, x);
      ReadBecomes(w, x, got, s);
    case Write(x, put, nt) =>
      Owner(w, x);
      WriteBecomes(w, x, put, nt, s);
    case Pair => PairBecomes(w, s);
  }

  /** One event of a pool in order, safe or not, but for a pairing pass: the pointers, the fields and the
      status of every tunnel, and what is new. */
  lemma TunnelsAct(w: World, e: Event, t: Tunnel)
    requires PoolInv(w) && Enabled(w, e) && Step(w, e).Some? && !e.Pair?
    ensures t in w.tuns ==> TunnelBecomes(w, Step(w, e).value, e, t)
    ensures Adds(w, Step(w, e).value, e)
  {
    ShapeIsWired(w);
    match e
    case AcceptPrivate(ns, nt) =>
      AcceptAdds(w, e);
      if t in w.tuns {
        PrivateAcceptActs(w, ns, nt, t);
      }
    case AcceptRemote(ns, nt) =>
      AcceptAdds(w, e);
      if t in w.tuns {
        RemoteAcceptActs(w, ns, nt, t);
      }
    case Read(s, got) =>
      Owner(w, s);
      ReadIsLocal(w, s, got);
      if t in w.tuns {
        ReadActs(w, s, got, t);
      }
    case Write(s, put, nt) =>
      Owner(w, s);
      WriteAdds(w, s, put, nt);
      if t in w.tuns {
        WriteActs(w, s, put, nt, t);
      }
  }

  // ----- three kinds of event in full

  /** The end of a connection of a pool in order.  As long as there are bytes for it, those included that the
      private side of a connected tunnel still holds, the socket stays, half closed, with exactly these
      bytes, and is armed for writing only.  Otherwise it is released, and its place is free or idle. */
  lemma EndOfConnection(w: World, s: Sock, got: ReadResult)
    requires PoolInv(w) && Enabled(w, Read(s, got)) && (got.Fin? || got.ReadError?) && Safe(w, Read(s, got))
    ensures Known(w, s) && Step(w, Read(s, got)).Some?
    ensures var v, d, t := Step(w, Read(s, got)).value, w.socks[s], w.socks[s].tunnel; var td := w.tuns[t];
      var taken := !d.ispriv && td.hs.state == ConnectedState && td.priv in w.socks;
      var left := if taken then w.socks[td.priv].rbuf else [];
      && t in v.tuns
      && if d.wbuf + left != [] then
           && s in v.socks && v.tuns[t] == td
           && v.socks[s].wbuf == d.wbuf + left && v.socks[s].state == SockHalfclosed
           && v.socks[s].pollOut && !v.socks[s].pollIn
         else
           && s !in v.socks
           && if d.ispriv then v.tuns[t] == td.(status := TunnFree, priv := null)
              else if td.hs.state == ConnectedState then v.tuns[t] == td.(status := TunnIdle, remote := null)
              else v.tuns[t] == td.(status := TmptunFree, remote := null)
  {
    Owner(w, s);
    ShutdownIs(w, s);
    assert w.socks[s].wbuf + [] == w.socks[s].wbuf;
  }

  /** A write of any socket of a pool in order, unless it fails: what was not sent stays, EPOLLOUT is armed
      exactly if that is anything, and what is unread stays too. */
  lemma WhatIsNotSentStays(w: World, s: Sock, put: WriteResult, nt: Tunnel)
    requires PoolInv(w) && Enabled(w, Write(s, put, nt)) && !put.WriteError?
    ensures Step(w, Write(s, put, nt)).Some? && s in Step(w, Write(s, put, nt)).value.socks
    ensures var d, d' := w.socks[s], Step(w, Write(s, put, nt)).value.socks[s];
      && d'.wbuf == (if put.Wrote? then d.wbuf[put.n..] else d.wbuf)
      && (d'.pollOut <==> d'.wbuf != []) && d'.pollIn && d'.rbuf == d.rbuf && d'.state == d.state
  {
    Owner(w, s);
    WrittenIs(w, s, put, nt);
    DrainedWhenAllIsSent(w, s, put, nt);
  }

  /** Input during the handshake: the handler runs on all of it.  If it goes on, its reply is behind what the
      socket has to write, which is armed; if it refuses, the socket is released. */
  lemma ReplyReachesTheClient(w: World, s: Sock, bytes: seq<byte>)
    requires PoolInv(w) && Enabled(w, Read(s, Data(bytes))) && Known(w, s)
    requires InHandshake(w.tuns[w.socks[s].tunnel].hs.state)
    ensures Step(w, Read(s, Data(bytes))).Some?
    ensures var v, d, t := Step(w, Read(s, Data(bytes))).value, w.socks[s], w.socks[s].tunnel;
      var o := Handle(w.conf, w.tuns[t].hs, d.rbuf + bytes);
      && t in v.tuns && v.tuns[t].hs == o.h
      && if o.verdict == Proceed then
           && s in v.socks && v.socks[s].wbuf == d.wbuf + o.reply && v.socks[s].rbuf == o.buf
           && (v.socks[s].wbuf != [] ==> v.socks[s].pollOut)
         else s !in v.socks && v.tuns[t].priv == null
  {
    Owner(w, s);
    var o := Handle(w.conf, w.tuns[w.socks[s].tunnel].hs, Input(w, s, Data(bytes)));
    HandlerBecomes(w, s, Data(bytes));
    HandshakeActs(w, s, Data(bytes), w.socks[s].tunnel);
    if o.verdict == Proceed {
      assert [] + Step(w, Read(s, Data(bytes))).value.socks[s].wbuf == w.socks[s].wbuf + o.reply;
    }
  }

  /** Without a private socket a connected tunnel cannot survive its remote: whatever is read from the remote
      next, its end included, the program follows a NULL pointer. */
  lemma RemoteWithoutPrivateFails(w: World, s: Sock, got: ReadResult)
    requires Known(w, s) && !w.socks[s].ispriv
    requires var td := w.tuns[w.socks[s].tunnel]; td.hs.state == ConnectedState && td.remote == s && td.priv == null
    ensures ReadHandle(w, s, got).None?
  {
  }

  // ----- runs

  /** All bytes the run reads from `s`, and all it writes to `s`. */
  function AllIn(es: seq<Event>, s: Sock): seq<byte> {
    if es == [] then [] else BytesIn(es[0], s) + AllIn(es[1..], s)
  }

  function AllOut(w: World, es: seq<Event>, s: Sock): seq<byte>
    decreases |es|
  {
    if es == [] || Step(w, es[0]).None? then []
    else BytesOut(w, es[0], s) + AllOut(Step(w, es[0]).value, es[1..], s)
  }

  /** All that the run queues for `s`. */
  function AllQueued(w: World, es: seq<Event>, s: Sock): seq<byte>
    decreases |es|
  {
    if es == [] || !Known(w, s) || Step(w, es[0]).None? || FateOf(w, es[0], s).Released? then []
    else FateOf(w, es[0], s).queued + AllQueued(Step(w, es[0]).value, es[1..], s)
  }

  /** `s` is not released during the run. */
  predicate Stays(w: World, es: seq<Event>, s: Sock)
    decreases |es|
  {
    es == [] || (Step(w, es[0]).Some? && s in Step(w, es[0]).value.socks && Stays(Step(w, es[0]).value, es[1..], s))
  }

  lemma Chain(out: seq<byte>, outs: seq<byte>, w0: seq<byte>, w1: seq<byte>, w2: seq<byte>,
              i: seq<byte>, ins: seq<byte>)
    requires out + w1 == w0 + i && outs + w2 == w1 + ins
    ensures (out + outs) + w2 == w0 + (i + ins)
  {
    assert (out + outs) + w2 == out + (outs + w2) == out + (w1 + ins);
    assert out + (w1 + ins) == (out + w1) + ins == (w0 + i) + ins == w0 + (i + ins);
  }

  /** No byte is lost, doubled or overtaken on its way out, for any socket, joined or not: as long as it
      lives, what a safe run has written to it, followed by what is still to be written, is what was to be
      written at first, followed by everything that has been queued for it since. */
  lemma {:induction false} EverythingQueuedIsWritten(w: World, es: seq<Event>, s: Sock)
    requires PoolInv(w) && SafeRun(w, es) && s in w.socks && Stays(w, es, s)
    ensures Run(w, es).Some? && s in Run(w, es).value.socks
    ensures AllOut(w, es, s) + Run(w, es).value.socks[s].wbuf == w.socks[s].wbuf + AllQueued(w, es, s)
    decreases |es|
  {
    if es == [] {
      assert [] + w.socks[s].wbuf == w.socks[s].wbuf + [];
    } else {
      var v := Step(w, es[0]).value;
      SocketsAct(w, es[0], s);
      StepKeepsPool(w, es[0]);
      EverythingQueuedIsWritten(v, es[1..], s);
      Chain(BytesOut(w, es[0], s), AllOut(v, es[1..], s), w.socks[s].wbuf, v.socks[s].wbuf,
            Run(v, es[1..]).value.socks[s].wbuf, FateOf(w, es[0], s).queued, AllQueued(v, es[1..], s));
    }
  }
}
