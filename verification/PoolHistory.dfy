/** Properties of all runs, safe or not: EPOLLOUT interest, the lengths of the two lists, and the
    tunnels that are held back until their handshake is finished. */
module PoolHistory {
  import opened Common
  import opened Handshake
  import opened Objects
  import opened Pool
  import opened PoolInvariant
  import opened PoolRuns

  // ----- no lost wake-up

  /** EPOLLOUT is armed while there is something to write, and some interest always is. */
  predicate Awake(d: SockData) {
    (d.wbuf != [] ==> d.pollOut) && (d.pollIn || d.pollOut)
  }

  predicate Armed(w: World) {
    forall s :: s in w.socks ==> Awake(w.socks[s])
  }

  /** Success means: interest still matches, and the lists are the same. */
  predicate Quiet(w: World, r: Option<World>) {
    r.Some? ==> Armed(r.value) && r.value.app == w.app && r.value.wait == w.wait
  }

  lemma ForceShutdownIsQuiet(w: World, s: Sock)
    requires Armed(w)
    ensures Quiet(w, SockForceShutdown(w, s))
  {
  }

  lemma ClosePrivateIsQuiet(w: World, s: Sock, t: Tunnel)
    requires Armed(w)
    ensures Quiet(w, ClosePrivate(w, s, t))
  {
    ForceShutdownIsQuiet(w, s);
    if t in w.tuns && s == w.tuns[t].priv && SockForceShutdown(w, s).Some? {
      var w1 := SockForceShutdown(w, s).value;
      if t in w1.tuns {
        var w2 := PutTun(w1, t, w1.tuns[t].(status := TunnFree, priv := null));
        if w2.tuns[t].remote != null {
          ForceShutdownIsQuiet(w2, w2.tuns[t].remote);
        }
      }
    }
  }

  lemma CloseIsQuiet(w: World, s: Sock, t: Tunnel)
    requires Armed(w)
    ensures Quiet(w, CloseDrained(w, s, t))
  {
    ClosePrivateIsQuiet(w, s, t);
    var w1 := ClosePrivate(w, s, t);
    if w1.Some? {
      ForceShutdownIsQuiet(w1.value, s);
      var w2 := CloseRemote(w1.value, s, t);
      if w2.Some? {
        ForceShutdownIsQuiet(w2.value, s);
      }
    }
  }

  lemma ShutdownIsQuiet(w: World, s: Sock)
    requires Armed(w)
    ensures Quiet(w, SockShutdown(w, s))
  {
    if Known(w, s) {
      var t := w.socks[s].tunnel;
      var w1 := ForwardLeft(PutSock(w, s, w.socks[s].(state := SockHalfclosed)), s, t);
      if w1.Some? && w1.value.socks[s].wbuf == [] {
        CloseIsQuiet(w1.value, s, t);
      }
    }
  }

  lemma TunnelShutdownIsQuiet(w: World, t: Tunnel, s: Sock)
    requires Armed(w)
    ensures Quiet(w, TunnelShutdown(w, t, s))
  {
    ShutdownIsQuiet(w, s);
    if t in w.tuns {
      var w1 := if s == w.tuns[t].priv then SockShutdown(w, s) else Some(w);
      if w1.Some? {
        ShutdownIsQuiet(w1.value, s);
      }
    }
  }

  lemma ConnectedIsQuiet(w: World, t: Tunnel, s: Sock)
    requires Armed(w)
    ensures var r := ConnectedHandle(w, t, s); r.Some? ==> Quiet(w, Some(r.value.0))
  {
  }

  lemma HandshakeIsQuiet(w: World, t: Tunnel, s: Sock)
    requires Armed(w) && t in w.tuns && InHandshake(w.tuns[t].hs.state)
    ensures Quiet(w, HandshakeHandle(w, t, s))
  {
    var p := w.tuns[t].priv;
    if p in w.socks {
      var o := Handle(w.conf, w.tuns[t].hs, w.socks[p].rbuf);
      assert o.reply == [] ==> w.socks[p].wbuf + o.reply == w.socks[p].wbuf;
      ForceShutdownIsQuiet(AfterHandler(w, t, o), s);
    }
  }

  lemma DispatchIsQuiet(w: World, s: Sock)
    requires Armed(w)
    ensures Quiet(w, Dispatch(w, s))
  {
    if Known(w, s) {
      var t := w.socks[s].tunnel;
      if InHandshake(w.tuns[t].hs.state) {
        HandshakeIsQuiet(w, t, s);
      } else if w.tuns[t].hs.state == ConnectedState {
        ConnectedIsQuiet(w, t, s);
        var r := ConnectedHandle(w, t, s);
        if r.Some? {
          TunnelShutdownIsQuiet(r.value.0, t, s);
        }
      }
    }
  }

  lemma ReadIsQuiet(w: World, s: Sock, got: ReadResult)
    requires Armed(w)
    ensures Quiet(w, ReadHandle(w, s, got))
  {
    if s in w.socks {
      var bytes := if got.Data? then got.bytes else [];
      DispatchIsQuiet(w, s);
      DispatchIsQuiet(PutSock(w, s, w.socks[s].(rbuf := w.socks[s].rbuf + bytes)), s);
      ShutdownIsQuiet(w, s);
    }
  }

  // ----- how the lists grow

  predicate IsFree(w: World, t: Tunnel, free: Status) {
    t in w.tuns && w.tuns[t].status == free
  }

  predicate NoneFree(w: World, l: seq<Tunnel>, free: Status) {
    forall i :: 0 <= i < |l| ==> !IsFree(w, l[i], free)
  }

  /** The waitList is as before, or one entry longer and then none of its entries is free. */
  predicate WaitGrows(w: World, v: World) {
    v.app == w.app && (v.wait == w.wait || (|v.wait| == |w.wait| + 1 && NoneFree(v, v.wait, TmptunFree)))
  }

  predicate AppGrows(w: World, v: World) {
    v.wait == w.wait && (v.app == w.app || (|v.app| == |w.app| + 1 && NoneFree(v, v.app, TunnFree)))
  }

  lemma SwitchGrows(w: World, s: Sock, t: Tunnel, nt: Tunnel)
    ensures var r := SwitchHandle(w, s, t, nt); r.Some? ==> WaitGrows(w, r.value)
    ensures var r := SwitchHandle(w, s, t, nt); r.Some? && Armed(w) ==> Armed(r.value)
  {
    if s in w.socks && t in w.tuns && w.socks[s].wbuf == [] && s == w.tuns[t].remote {
      var w1 := PutSock(w, s, Poll(w.socks[s], false, true));
      var td := w.tuns[t];
      var w2 := if td.status != TunnRun then w1 else PutTun(w1, t, td.(status := TunnIdle, remote := null));
      var g := GetWaitobj(w2, nt);
      if (td.status != TunnRun || td.priv != null) && g.Some? {
        var (w3, c) := g.value;
        var v := Park(w3, s, c);
        assert SwitchHandle(w, s, t, nt) == Some(v);
        if v.wait != w.wait {
          forall i | 0 <= i < |v.wait| ensures !IsFree(v, v.wait[i], TmptunFree) {
            assert i > 0 ==> v.wait[i] == w.wait[i - 1];
          }
        }
      }
    }
  }

  /** Switching sets the interest of its socket whatever it was. */
  lemma SwitchIgnoresInterest(w: World, s: Sock, t: Tunnel, nt: Tunnel)
    requires s in w.socks
    ensures SwitchHandle(PutSock(w, s, Poll(w.socks[s], true, true)), s, t, nt) == SwitchHandle(w, s, t, nt)
  {
    var d := Poll(w.socks[s], true, true);
    PutTwice(w.socks, s, d, Poll(d, true, true));
    PutTwice(w.socks, s, d, Poll(d, false, true));
  }

  lemma AfterWriteGrows(w: World, s: Sock, wbuf: seq<byte>, nt: Tunnel)
    requires Known(w, s)
    ensures var r := AfterWrite(PutSock(w, s, w.socks[s].(wbuf := wbuf)), s, w.socks[s].tunnel, nt);
      r.Some? ==> WaitGrows(w, r.value) && (Armed(w) ==> Armed(r.value))
  {
    var w1 := PutSock(w, s, w.socks[s].(wbuf := wbuf));
    if w.tuns[w.socks[s].tunnel].status == TunnRun {
      SwitchGrows(PutSock(w1, s, Poll(w1.socks[s], true, true)), s, w.socks[s].tunnel, nt);
      SwitchIgnoresInterest(w1, s, w.socks[s].tunnel, nt);
    }
  }

  lemma WriteGrows(w: World, s: Sock, put: WriteResult, nt: Tunnel)
    ensures var r := WriteHandle(w, s, put, nt); r.Some? ==> WaitGrows(w, r.value)
    ensures var r := WriteHandle(w, s, put, nt); r.Some? && Armed(w) ==> Armed(r.value)
  {
    if Known(w, s) {
      var d := w.socks[s];
      if d.wbuf != [] && put.Wrote? {
        if put.n <= |d.wbuf| {
          AfterWriteGrows(w, s, d.wbuf[put.n..], nt);
        }
      } else if (d.wbuf != [] && put.WriteError?) || (d.wbuf == [] && d.state == SockHalfclosed) {
        ForceShutdownIs(w, s);
      } else {
        assert d.(wbuf := d.wbuf) == d && PutSock(w, s, d) == w;
        AfterWriteGrows(w, s, d.wbuf, nt);
      }
    }
  }

  lemma AcceptPrivGrows(w: World, ns: Sock, nt: Tunnel)
    ensures var r := AcceptPriv(w, ns, nt); r.Some? ==> AppGrows(w, r.value) && (Armed(w) ==> Armed(r.value))
  {
    var r := AcceptPriv(w, ns, nt);
    if r.Some? && r.value.app != w.app {
      var v := r.value;
      forall i | 0 <= i < |v.app| ensures !IsFree(v, v.app[i], TunnFree) {
        assert i > 0 ==> v.app[i] == w.app[i - 1];
      }
    }
  }

  lemma AcceptRmtGrows(w: World, ns: Sock, nt: Tunnel)
    ensures var r := AcceptRmt(w, ns, nt); r.Some? ==> WaitGrows(w, r.value) && (Armed(w) ==> Armed(r.value))
  {
    var r := AcceptRmt(w, ns, nt);
    if r.Some? && r.value.wait != w.wait {
      var v := r.value;
      forall i | 0 <= i < |v.wait| ensures !IsFree(v, v.wait[i], TmptunFree) {
        assert i > 0 ==> v.wait[i] == w.wait[i - 1];
      }
    }
  }

  lemma PairOneIsQuiet(w: World, t: Tunnel, p: Tunnel)
    requires Armed(w)
    ensures Quiet(w, PairOne(w, t, p))
  {
    if t in w.tuns && p in w.tuns && w.tuns[p].remote in w.socks {
      var r := w.tuns[p].remote;
      var w1 := PutTun(w, t, w.tuns[t].(status := TunnRun, remote := r));
      ConnectedIsQuiet(PutSock(w1, r, w1.socks[r].(tunnel := t)), t, r);
    }
  }

  lemma {:induction false} PassIsQuiet(w: World, i: nat)
    requires i <= |w.app| && Armed(w)
    ensures Quiet(w, PairFrom(w, i))
    decreases |w.app| - i
  {
    if i < |w.app| && w.app[i] in w.tuns {
      if w.tuns[w.app[i]].status != TunnIdle {
        PassIsQuiet(w, i + 1);
      } else if FindPairable(w, w.wait) < |w.wait| {
        var p := w.wait[FindPairable(w, w.wait)];
        PairOneIsQuiet(w, w.app[i], p);
        if PairOne(w, w.app[i], p).Some? {
          PassIsQuiet(PairOne(w, w.app[i], p).value, i + 1);
        }
      }
    }
  }

  /** One event of any run: interest still matches, and a list grows only when none of its entries is free. */
  lemma StepHistory(w: World, e: Event)
    requires Armed(w) && Step(w, e).Some?
    ensures var v := Step(w, e).value; Armed(v) && (WaitGrows(w, v) || AppGrows(w, v))
  {
    match e
    case AcceptPrivate(ns, nt) => AcceptPrivGrows(w, ns, nt);
    case AcceptRemote(ns, nt) => AcceptRmtGrows(w, ns, nt);
    case Read(s, got) => ReadIsQuiet(w, s, got);
    case Write(s, put, nt) => WriteGrows(w, s, put, nt);
    case Pair => PassIsQuiet(w, 0);
  }

  /** No lost wake-up, in every run: a live socket with something to write is armed for writing. */
  lemma {:induction false} NoLostWakeUp(w: World, es: seq<Event>)
    requires Armed(w)
    ensures Run(w, es).Some? ==> Armed(Run(w, es).value)
    decreases |es|
  {
    if es != [] && Enabled(w, es[0]) && Step(w, es[0]).Some? {
      StepHistory(w, es[0]);
      NoLostWakeUp(Step(w, es[0]).value, es[1..]);
    }
  }

  // ----- high-water mark

  function Busy(w: World, l: seq<Tunnel>, free: Status): (n: nat)
    ensures n <= |l|
  {
    if l == [] then 0 else (if IsFree(w, l[0], free) then 0 else 1) + Busy(w, l[1..], free)
  }

  function Max(a: nat, b: nat): nat {
    if a > b then a else b
  }

  /** The largest number of simultaneously busy entries at any point of a run. */
  function PeakWait(w: World, es: seq<Event>): nat
    decreases |es|
  {
    var now := Busy(w, w.wait, TmptunFree);
    if es == [] || Step(w, es[0]).None? then now else Max(now, PeakWait(Step(w, es[0]).value, es[1..]))
  }

  function PeakApp(w: World, es: seq<Event>): nat
    decreases |es|
  {
    var now := Busy(w, w.app, TunnFree);
    if es == [] || Step(w, es[0]).None? then now else Max(now, PeakApp(Step(w, es[0]).value, es[1..]))
  }

  lemma {:induction false} AllBusy(w: World, l: seq<Tunnel>, free: Status)
    requires NoneFree(w, l, free)
    ensures Busy(w, l, free) == |l|
  {
    if l != [] {
      forall i | 0 <= i < |l[1..]| ensures !IsFree(w, l[1..][i], free) {
        assert l[1..][i] == l[i + 1];
      }
      AllBusy(w, l[1..], free);
    }
  }

  lemma StepPeak(w: World, v: World)
    requires WaitGrows(w, v) || AppGrows(w, v)
    ensures |v.wait| == Max(|w.wait|, Busy(v, v.wait, TmptunFree))
    ensures |v.app| == Max(|w.app|, Busy(v, v.app, TunnFree))
  {
    if NoneFree(v, v.wait, TmptunFree) {
      AllBusy(v, v.wait, TmptunFree);
    }
    if NoneFree(v, v.app, TunnFree) {
      AllBusy(v, v.app, TunnFree);
    }
  }

  lemma {:induction false} PeakAlong(w: World, es: seq<Event>)
    requires Armed(w) && Run(w, es).Some?
    ensures |Run(w, es).value.wait| == Max(|w.wait|, PeakWait(w, es))
    ensures |Run(w, es).value.app| == Max(|w.app|, PeakApp(w, es))
    decreases |es|
  {
    if es != [] {
      var v := Step(w, es[0]).value;
      StepHistory(w, es[0]);
      StepPeak(w, v);
      PeakAlong(v, es[1..]);
    }
  }

  /** High-water mark: entries are reused before new ones are made and are never removed, so after every
      run each list is as long as the largest number of its entries that were in use at one time. */
  lemma HighWaterMark(conf: Config, es: seq<Event>)
    requires Run(Start(conf), es).Some?
    ensures var v := Run(Start(conf), es).value;
      |v.wait| == PeakWait(Start(conf), es) && |v.app| == PeakApp(Start(conf), es)
  {
    PeakAlong(Start(conf), es);
  }
}
