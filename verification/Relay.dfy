/** The relay: what goes in on one side of a paired tunnel comes out on the other, in order. */
module Relay {
  import opened Common
  import opened Handshake
  import opened Objects
  import opened Pool
  import opened PoolInvariant
  import opened Wiring
  import opened Pairing
  import opened PoolRuns
  import opened Effects

  /** Nothing that was read is waiting, and EPOLLOUT is armed only for bytes to be written. */
  predicate Passing(d: SockData) {
    d.rbuf == [] && (d.pollOut ==> d.wbuf != [])
  }

  /** `t` joins private socket `p` and remote `r`, and no other socket points to it. */
  predicate Joined(w: World, t: Tunnel, p: Sock, r: Sock) {
    && t in w.tuns && w.tuns[t].priv == p && w.tuns[t].remote == r && t in w.app
    && w.tuns[t].status == TunnRun && w.tuns[t].hs.state == ConnectedState
    && p in w.socks && r in w.socks && Passing(w.socks[p]) && Passing(w.socks[r])
    && forall s :: s in w.socks && w.socks[s].tunnel == t ==> s == p || s == r
  }

  /** In a pool in order this is what a private socket and a remote with one tunnel are, as soon as
      nothing is unread on the private side. */
  lemma PairsAreJoined(w: World, t: Tunnel, p: Sock, r: Sock)
    requires PoolInv(w) && t in w.app && w.tuns[t].priv == p && w.tuns[t].remote == r
    requires p in w.socks && w.socks[p].rbuf == []
    ensures Joined(w, t, p, r)
  {
    assert AppOk(w, t) && SockOk(w, p) && SockOk(w, r);
    forall s | s in w.socks && w.socks[s].tunnel == t ensures s == p || s == r {
      assert SockOk(w, s);
    }
  }

  /** The two sockets point back, and are of their kinds. */
  lemma BothPointBack(w: World, t: Tunnel, p: Sock, r: Sock)
    requires Wired(w) && Joined(w, t, p, r)
    ensures PointsBack(w, t, p, true) && PointsBack(w, t, r, false) && p != r && t !in w.wait
  {
    assert TunWired(w, t);
  }

  /** One event conserves one direction: written, then still to be written, is what was to be written,
      then what was read on the other side. */
  predicate Conserves(w: World, v: World, e: Event, from: Sock, to: Sock) {
    && to in w.socks && to in v.socks
    && BytesOut(w, e, to) + v.socks[to].wbuf == w.socks[to].wbuf + BytesIn(e, from)
  }

  /** Both directions are conserved. */
  predicate Balanced(w: World, v: World, e: Event, p: Sock, r: Sock) {
    Conserves(w, v, e, p, r) && Conserves(w, v, e, r, p)
  }

  /** `s` is one side of the pair and `to` the other. */
  predicate Sides(p: Sock, r: Sock, s: Sock, to: Sock) {
    (s == p && to == r) || (s == r && to == p)
  }

  /** Read by one side: everything goes to the write buffer of the other at once. */
  lemma PairReadIs(w: World, t: Tunnel, p: Sock, r: Sock, s: Sock, to: Sock, got: ReadResult)
    requires Wired(w) && Joined(w, t, p, r) && Sides(p, r, s, to)
    requires got.ReadAgain? || (got.Data? && got.bytes != [])
    ensures ReadHandle(w, s, got) == Some(if got.Data? then Forwarded(Arrived(w, s, got), s, to) else w)
  {
    BothPointBack(w, t, p, r);
    if got.Data? {
      ForwardIs(Arrived(w, s, got), s, to);
    }
  }

  lemma PairRead(w: World, t: Tunnel, p: Sock, r: Sock, s: Sock, to: Sock, got: ReadResult)
    requires Wired(w) && Joined(w, t, p, r) && Sides(p, r, s, to)
    requires got.ReadAgain? || (got.Data? && got.bytes != [])
    ensures var v := ReadHandle(w, s, got);
      v.Some? && Balanced(w, v.value, Read(s, got), p, r) && Joined(v.value, t, p, r)
  {
    BothPointBack(w, t, p, r);
    PairReadIs(w, t, p, r, s, to, got);
    assert [] + w.socks[s].wbuf == w.socks[s].wbuf + [] && [] + w.socks[to].wbuf == w.socks[to].wbuf + [];
    if got.Data? {
      assert w.socks[s].rbuf + got.bytes == got.bytes;
      assert [] + (w.socks[to].wbuf + got.bytes) == w.socks[to].wbuf + got.bytes;
    }
  }

  /** The event has written the last byte for the remote. */
  predicate Drains(v: World, e: Event, r: Sock) {
    e.Write? && e.s == r && r in v.socks && v.socks[r].wbuf == []
  }

  /** The switch: the tunnel is idle again and keeps its private socket; the remote is parked, alive and
      not pairable. */
  predicate Switched(v: World, t: Tunnel, p: Sock, r: Sock) {
    && t in v.tuns && v.tuns[t].status == TunnIdle && v.tuns[t].remote == null && v.tuns[t].priv == p
    && r in v.socks && v.socks[r].tunnel in v.wait && v.socks[r].tunnel in v.tuns
    && v.tuns[v.socks[r].tunnel].status == TmptunAlive && !Pairable(v, v.socks[r].tunnel)
  }

  /** A write event of the pair: its socket is drained further, and a drained remote is parked. */
  lemma PairWriteIs(w: World, t: Tunnel, p: Sock, r: Sock, s: Sock, put: WriteResult, nt: Tunnel)
    returns (wbuf: seq<byte>, c: Tunnel, hs: Hs)
    requires Wired(w) && Joined(w, t, p, r) && (s == p || s == r)
    requires Enabled(w, Write(s, put, nt)) && !put.WriteError?
    ensures wbuf == w.socks[s].wbuf[if put.Wrote? then put.n else 0..]
    ensures s == r && wbuf == [] ==> c !in w.tuns || (c in w.wait && w.tuns[c].status == TmptunFree)
    ensures WriteHandle(w, s, put, nt) == Some(
      if s == r && wbuf == [] then Parked(w, r, t, c, if c in w.tuns then w.wait else [c] + w.wait, hs)
      else PutSock(w, s, Sent(w, s, wbuf)))
  {
    BothPointBack(w, t, p, r);
    wbuf := w.socks[s].wbuf[if put.Wrote? then put.n else 0..];
    assert put.WriteAgain? ==> wbuf == w.socks[s].wbuf;
    WriteIs(w, s, put, nt);
    c, hs := nt, w.tuns[t].hs;
    if s == r && wbuf == [] {
      NoPrivateWaits(w);
      c, hs := SwitchIs(w, PutSock(w, s, w.socks[s].(wbuf := wbuf)), r, t, nt);
    } else {
      PutTwice(w.socks, s, w.socks[s].(wbuf := wbuf), Sent(w, s, wbuf));
    }
  }

  lemma WrittenAndLeft(b: seq<byte>, n: nat)
    requires n <= |b|
    ensures b[..n] + b[n..] == b + []
  {
  }

  lemma PairWrite(w: World, t: Tunnel, p: Sock, r: Sock, s: Sock, put: WriteResult, nt: Tunnel)
    requires Wired(w) && Joined(w, t, p, r) && (s == p || s == r)
    requires Enabled(w, Write(s, put, nt)) && !put.WriteError?
    ensures var v := WriteHandle(w, s, put, nt); v.Some? && Balanced(w, v.value, Write(s, put, nt), p, r)
    ensures var v := WriteHandle(w, s, put, nt).value;
      if Drains(v, Write(s, put, nt), r) then Switched(v, t, p, r) else Joined(v, t, p, r)
  {
    BothPointBack(w, t, p, r);
    var wbuf, c, hs := PairWriteIs(w, t, p, r, s, put, nt);
    WrittenAndLeft(w.socks[s].wbuf, if put.Wrote? then put.n else 0);
    assert [] + w.socks[p].wbuf == w.socks[p].wbuf + [] && [] + w.socks[r].wbuf == w.socks[r].wbuf + [];
  }

  // ----- events elsewhere

  /** Tunnel `t` and the sockets `p` and `r` are as they were. */
  predicate Apart(w: World, v: World, t: Tunnel, p: Sock, r: Sock) {
    && t in w.tuns && t in v.tuns && v.tuns[t] == w.tuns[t]
    && p in w.socks && p in v.socks && v.socks[p] == w.socks[p]
    && r in w.socks && r in v.socks && v.socks[r] == w.socks[r]
  }

  /** What touches only other tunnels leaves the pair alone. */
  lemma ElsewhereIsApart(w: World, v: World, o: Tunnel, c: Tunnel, t: Tunnel, p: Sock, r: Sock)
    requires Wired(w) && Wired(v) && Joined(w, t, p, r) && Elsewhere(w, v, o, c) && t != o && t != c
    requires t in v.tuns && t !in v.wait
    ensures Apart(w, v, t, p, r) && Joined(v, t, p, r)
  {
    BothPointBack(w, t, p, r);
  }

  lemma ServedIsApart(w: World, v: World, idles: seq<Tunnel>, waiters: seq<Tunnel>, t: Tunnel, p: Sock, r: Sock)
    requires Wired(w) && Joined(w, t, p, r) && PairedUp(w, v, idles, waiters) && t !in idles && t !in waiters
    requires forall x :: x in idles ==> x in w.app
    requires forall x :: x in waiters ==> x in w.wait
    ensures Apart(w, v, t, p, r) && Joined(v, t, p, r)
  {
    BothPointBack(w, t, p, r);
    forall s | s in v.socks && v.socks[s].tunnel == t ensures s == p || s == r {
      SockInPass(w, v, s, idles, waiters);
    }
  }

  lemma PassIsApart(w: World, t: Tunnel, p: Sock, r: Sock)
    requires Wired(w) && Joined(w, t, p, r)
    ensures PairFrom(w, 0).Some?
    ensures var v := PairFrom(w, 0).value; Apart(w, v, t, p, r) && Joined(v, t, p, r)
  {
    var v, idles, waiters := PassServes(w);
    BothPointBack(w, t, p, r);
    ServedIsApart(w, v, idles, waiters, t, p, r);
  }

  /** Every event that is not an event of `p` or `r` leaves the pair alone, safe or not. */
  lemma OtherEventsAreApart(w: World, e: Event, t: Tunnel, p: Sock, r: Sock)
    requires Wired(w) && Joined(w, t, p, r) && Enabled(w, e) && Step(w, e).Some?
    requires (e.Read? || e.Write?) ==> e.s != p && e.s != r
    ensures var v := Step(w, e).value; Apart(w, v, t, p, r) && Joined(v, t, p, r)
  {
    BothPointBack(w, t, p, r);
    StepKeepsWired(w, e);
    var v := Step(w, e).value;
    match e
    case AcceptPrivate(ns, nt) =>
      AcceptPrivateIsLocal(w, ns, nt);
      var o := Target(w, w.app, TunnFree, nt);
      ElsewhereIsApart(w, v, o, o, t, p, r);
    case AcceptRemote(ns, nt) =>
      AcceptRemoteIsLocal(w, ns, nt);
      ElsewhereIsApart(w, v, RemoteTarget(w, nt), RemoteTarget(w, nt), t, p, r);
    case Read(s, got) =>
      ReadIsLocal(w, s, got);
      ElsewhereIsApart(w, v, w.socks[s].tunnel, w.socks[s].tunnel, t, p, r);
    case Write(s, put, nt) =>
      var c := WriteIsLocal(w, s, put, nt);
      ElsewhereIsApart(w, v, w.socks[s].tunnel, c, t, p, r);
    case Pair => PassIsApart(w, t, p, r);
  }

  // ----- runs

  /** The end of the relay between `p` and `r`: one of them ends or fails. */
  predicate Ends(e: Event, p: Sock, r: Sock) {
    || (e.Read? && (e.s == p || e.s == r) && (e.got.Fin? || e.got.ReadError?))
    || (e.Write? && (e.s == p || e.s == r) && e.put.WriteError?)
  }

  lemma ApartIsBalanced(w: World, v: World, e: Event, t: Tunnel, p: Sock, r: Sock)
    requires Apart(w, v, t, p, r)
    requires BytesIn(e, p) == [] && BytesIn(e, r) == [] && BytesOut(w, e, p) == [] && BytesOut(w, e, r) == []
    ensures Balanced(w, v, e, p, r)
  {
    assert [] + w.socks[p].wbuf == w.socks[p].wbuf + [] && [] + w.socks[r].wbuf == w.socks[r].wbuf + [];
  }

  /** One event of any run, safe or not: both directions are conserved, and the pair stays joined until
      the event that writes the last byte for the remote, which is the one that switches it away. */
  lemma StepBalances(w: World, e: Event, t: Tunnel, p: Sock, r: Sock)
    requires Wired(w) && Joined(w, t, p, r) && Enabled(w, e) && Step(w, e).Some? && !Ends(e, p, r)
    ensures Balanced(w, Step(w, e).value, e, p, r)
    ensures var v := Step(w, e).value; if Drains(v, e, r) then Switched(v, t, p, r) else Joined(v, t, p, r)
  {
    BothPointBack(w, t, p, r);
    if e.Read? && e.s == p {
      PairRead(w, t, p, r, p, r, e.got);
    } else if e.Read? && e.s == r {
      PairRead(w, t, p, r, r, p, e.got);
    } else if e.Write? && (e.s == p || e.s == r) {
      PairWrite(w, t, p, r, e.s, e.put, e.nt);
    } else {
      OtherEventsAreApart(w, e, t, p, r);
      ApartIsBalanced(w, Step(w, e).value, e, t, p, r);
    }
  }

  /** The relay lasts over `es`: it is not ended, and if the remote is switched away, then by the last event. */
  predicate Lasts(w: World, es: seq<Event>, t: Tunnel, p: Sock, r: Sock)
    decreases |es|
  {
    es == []
    || (!Ends(es[0], p, r) && Step(w, es[0]).Some?
        && (es[1..] == [] || (Joined(Step(w, es[0]).value, t, p, r) && Lasts(Step(w, es[0]).value, es[1..], t, p, r))))
  }

  /** From `w` over `es` to `v`, this direction is conserved. */
  predicate Delivered(w: World, es: seq<Event>, v: World, from: Sock, to: Sock) {
    && to in w.socks && to in v.socks
    && AllOut(w, es, to) + v.socks[to].wbuf == w.socks[to].wbuf + AllIn(es, from)
  }

  lemma DeliveredCons(w: World, es: seq<Event>, v: World, end: World, from: Sock, to: Sock)
    requires es != [] && Step(w, es[0]) == Some(v)
    requires Conserves(w, v, es[0], from, to) && Delivered(v, es[1..], end, from, to)
    ensures Delivered(w, es, end, from, to)
  {
    Chain(BytesOut(w, es[0], to), AllOut(v, es[1..], to), w.socks[to].wbuf, v.socks[to].wbuf, end.socks[to].wbuf,
          BytesIn(es[0], from), AllIn(es[1..], from));
  }

  lemma NothingDelivered(w: World, from: Sock, to: Sock)
    requires to in w.socks
    ensures Delivered(w, [], w, from, to)
  {
    assert [] + w.socks[to].wbuf == w.socks[to].wbuf + [];
  }

  /** Relay conservation, in every run.  While the relay lasts, among any other events, safe or not, in
      each direction the bytes written to the destination, followed by those still to be written, are
      the bytes that were to be written at first, followed by all bytes read from the source, in order. */
  lemma {:induction false} RelayConserves(w: World, es: seq<Event>, t: Tunnel, p: Sock, r: Sock)
    requires Wired(w) && Joined(w, t, p, r) && Run(w, es).Some? && Lasts(w, es, t, p, r)
    ensures Delivered(w, es, Run(w, es).value, p, r) && Delivered(w, es, Run(w, es).value, r, p)
    decreases |es|
  {
    if es == [] {
      NothingDelivered(w, p, r);
      NothingDelivered(w, r, p);
    } else {
      var v := Step(w, es[0]).value;
      StepBalances(w, es[0], t, p, r);
      StepKeepsWired(w, es[0]);
      if es[1..] == [] {
        assert es[1..] == [] && Run(v, []) == Some(v);
        NothingDelivered(v, p, r);
        NothingDelivered(v, r, p);
      } else {
        RelayConserves(v, es[1..], t, p, r);
      }
      DeliveredCons(w, es, v, Run(w, es).value, p, r);
      DeliveredCons(w, es, v, Run(w, es).value, r, p);
    }
  }
}
