/** Whole runs of the server: what every event keeps, and for which runs. */
module PoolRuns {
  import opened Common
  import opened Handshake
  import opened Objects
  import opened Pool
  import opened PoolInvariant
  import opened Wiring
  import opened Pairing

  // ----- the pairing pass as an event

  lemma PairOneLeaves(w: World, a: Tunnel, p: Tunnel, t: Tunnel)
    requires t in w.tuns && t != a && t != p && PairOne(w, a, p).Some?
    ensures t in PairOne(w, a, p).value.tuns && PairOne(w, a, p).value.tuns[t] == w.tuns[t]
  {
  }

  /** The pass does not come back to a tunnel that is not idle. */
  lemma {:induction false} PassLeaves(w: World, i: nat, t: Tunnel)
    requires i <= |w.app| && t in w.tuns && w.tuns[t].status != TunnIdle && t !in w.wait
    ensures var r := PairFrom(w, i);
      r.Some? ==> t in r.value.tuns && r.value.tuns[t] == w.tuns[t] && r.value.app == w.app
    decreases |w.app| - i
  {
    if i < |w.app| && w.app[i] in w.tuns {
      if w.tuns[w.app[i]].status != TunnIdle {
        PassLeaves(w, i + 1, t);
      } else if FindPairable(w, w.wait) < |w.wait| {
        var p := w.wait[FindPairable(w, w.wait)];
        var u := PairOne(w, w.app[i], p);
        if u.Some? {
          PairOneLeaves(w, w.app[i], p, t);
          PassLeaves(u.value, i + 1, t);
        }
      }
    }
  }

  /** Pairing a tunnel whose handshake is not finished breaks the pool. */
  lemma EarlyPairingBreaks(w: World, i: nat)
    requires PoolInv(w) && i < |w.app| && Pairables(w, w.wait) != []
    requires w.tuns[w.app[i]].status == TunnIdle && w.tuns[w.app[i]].hs.state != ConnectedState
    ensures !Survives(PairFrom(w, i))
  {
    var t := w.app[i];
    var p := FirstWaiter(w);
    assert AppOk(w, t) && WaitOk(w, p);
    var r := w.tuns[p].remote;
    PairOneIs(w, t, p, r);
    var u := Relinked(w, t, p, r);
    UnfoldPass(w, u, i, p);
    PassLeaves(u, i + 1, t);
    var end := PairFrom(u, i + 1);
    if end.Some? {
      assert t in end.value.app && !AppOk(end.value, t);
    }
  }

  lemma {:induction false} NothingToPair(w: World, i: nat)
    requires Lists(w) && i <= |w.app| && (i == |w.app| || FindPairable(w, w.wait) == |w.wait|)
    ensures PairFrom(w, i) == Some(w)
    decreases |w.app| - i
  {
    if i < |w.app| && w.tuns[w.app[i]].status != TunnIdle {
      NothingToPair(w, i + 1);
    }
  }

  lemma OnePairingKeepsDrained(w: World, u: World, t: Tunnel, p: Tunnel)
    requires PoolInv(w) && t in w.app && p in w.wait && w.tuns[t].priv != null
    requires TookOver(w, u, t, p) && Untouched(w, u, [t], [p])
    ensures Drained(u)
  {
    forall s | s in u.socks && !u.socks[s].ispriv ensures u.socks[s].rbuf == [] {
      assert SockOk(w, s);
      assert WaitOk(w, p) && AppOk(w, t);
    }
  }

  lemma FirstStepInOrder(w: World, i: nat) returns (u: World)
    requires PoolInv(w) && i < |w.app| && w.tuns[w.app[i]].hs.state == ConnectedState
    requires w.tuns[w.app[i]].status == TunnIdle && Pairables(w, w.wait) != []
    ensures PoolInv(u) && u.app == w.app && PairFrom(w, i) == PairFrom(u, i + 1)
    ensures PairSafe(w, i) <==> PairSafe(u, i + 1)
  {
    var p;
    assert AppOk(w, w.app[i]);
    ShapeIsWired(w);
    u, p := FirstStep(w, i);
    PairOneKeepsShape(w, u, w.app[i], p);
    OnePairingKeepsDrained(w, u, w.app[i], p);
    SafeAfterOne(w, u, i, p);
  }

  /** A pass keeps a pool in order exactly when every tunnel it gives a remote has finished its handshake. */
  lemma {:induction false} PassKeepsPool(w: World, i: nat)
    requires PoolInv(w) && i <= |w.app|
    ensures Survives(PairFrom(w, i)) <==> PairSafe(w, i)
    decreases |w.app| - i
  {
    if i == |w.app| || Pairables(w, w.wait) == [] {
      FirstPairable(w, w.wait);
      NothingToPair(w, i);
    } else if w.tuns[w.app[i]].status != TunnIdle {
      IdlesSkip(w, w.app, i);
      PassKeepsPool(w, i + 1);
    } else if w.tuns[w.app[i]].hs.state != ConnectedState {
      if PairSafe(w, i) {
        FirstIdleIsSafe(w, i);
      }
      EarlyPairingBreaks(w, i);
    } else {
      var u := FirstStepInOrder(w, i);
      PassKeepsPool(u, i + 1);
    }
  }

  // ----- every event

  /** One event.  From a pool in order, an event that epoll can deliver succeeds and leaves the pool in
      order if and only if it is safe. */
  lemma StepKeepsPool(w: World, e: Event)
    requires PoolInv(w) && Enabled(w, e)
    ensures Survives(Step(w, e)) <==> Safe(w, e)
  {
    match e
    case AcceptPrivate(ns, nt) => AcceptPrivateKeeps(w, ns, nt);
    case AcceptRemote(ns, nt) => AcceptRemoteKeeps(w, ns, nt);
    case Read(s, got) => ReadKeeps(w, s, got);
    case Write(s, put, nt) => WriteKeeps(w, s, put, nt);
    case Pair => PassKeepsPool(w, 0);
  }

  /** Any event, safe or not: what it makes of a wired world is wired. */
  lemma StepKeepsWired(w: World, e: Event)
    requires Wired(w) && Enabled(w, e) && Step(w, e).Some?
    ensures Wired(Step(w, e).value)
  {
    match e
    case AcceptPrivate(ns, nt) => AcceptPrivateIsLocal(w, ns, nt);
    case AcceptRemote(ns, nt) => AcceptRemoteIsLocal(w, ns, nt);
    case Read(s, got) => ReadIsLocal(w, s, got);
    case Write(s, put, nt) => var c := WriteIsLocal(w, s, put, nt);
    case Pair => PairingPass(w);
  }

  /** A run: None when an event cannot happen or the program fails. */
  function Run(w: World, es: seq<Event>): Option<World>
    decreases |es|
  {
    if es == [] then Some(w)
    else if !Enabled(w, es[0]) then None
    else
      var r := Step(w, es[0]);
      if r.None? then None else Run(r.value, es[1..])
  }

  /** A run that has not failed leaves the pointers and the lists wired. */
  lemma {:induction false} RunKeepsWired(w: World, es: seq<Event>)
    requires Wired(w) && Run(w, es).Some?
    ensures Wired(Run(w, es).value)
    decreases |es|
  {
    if es != [] {
      StepKeepsWired(w, es[0]);
      RunKeepsWired(Step(w, es[0]).value, es[1..]);
    }
  }

  /** Every run of the server, safe or not, is wired; so a pairing pass at its end succeeds, and serves
      tunnels and waiters in the order of the lists. */
  lemma EveryRunIsWired(conf: Config, es: seq<Event>)
    requires Run(Start(conf), es).Some?
    ensures Wired(Run(Start(conf), es).value) && PairFrom(Run(Start(conf), es).value, 0).Some?
  {
    RunKeepsWired(Start(conf), es);
    PairingPass(Run(Start(conf), es).value);
  }

  /** Two runs, one after the other. */
  lemma {:induction false} RunTwice(w: World, es: seq<Event>, fs: seq<Event>)
    requires Run(w, es).Some?
    ensures Run(w, es + fs) == Run(Run(w, es).value, fs)
    decreases |es|
  {
    if es == [] {
      assert es + fs == fs;
    } else {
      assert (es + fs)[0] == es[0] && (es + fs)[1..] == es[1..] + fs;
      RunTwice(Step(w, es[0]).value, es[1..], fs);
    }
  }

  /** Every event of the run can happen and is safe when it does. */
  predicate SafeRun(w: World, es: seq<Event>)
    decreases |es|
  {
    es == []
    || (Enabled(w, es[0]) && Safe(w, es[0]) && (Step(w, es[0]).Some? ==> SafeRun(Step(w, es[0]).value, es[1..])))
  }

  /** Every event of the run can happen, succeeds, and leaves the pool in order. */
  predicate InOrder(w: World, es: seq<Event>)
    decreases |es|
  {
    es == [] || (Enabled(w, es[0]) && Survives(Step(w, es[0])) && InOrder(Step(w, es[0]).value, es[1..]))
  }

  /** A run keeps the pool in order at every point exactly when each of its events is safe. */
  lemma {:induction false} SafeRunsAreInOrder(w: World, es: seq<Event>)
    requires PoolInv(w)
    ensures SafeRun(w, es) <==> InOrder(w, es)
    ensures SafeRun(w, es) ==> Survives(Run(w, es))
    decreases |es|
  {
    if es != [] && Enabled(w, es[0]) {
      StepKeepsPool(w, es[0]);
      if Safe(w, es[0]) {
        SafeRunsAreInOrder(Step(w, es[0]).value, es[1..]);
      }
    }
  }

  /** In particular from the start of the server. */
  lemma ServerKeepsPool(conf: Config, es: seq<Event>)
    ensures SafeRun(Start(conf), es) <==> InOrder(Start(conf), es)
    ensures SafeRun(Start(conf), es) ==> Survives(Run(Start(conf), es))
  {
    SafeRunsAreInOrder(Start(conf), es);
  }

  /** What the invariant means for remotes: each is the remote of exactly one tunnel over both lists,
      and points back to it. */
  lemma EveryRemoteHasOneTunnel(w: World, s: Sock)
    requires PoolInv(w) && s in w.socks && !w.socks[s].ispriv
    ensures HasOneTunnel(w, s) && (w.socks[s].tunnel in w.app <==> w.socks[s].tunnel !in w.wait)
  {
    ShapeIsWired(w);
    Owner(w, s);
    OneTunnel(w, s);
  }

  /** A remote that was parked after use is never paired again: a kept-alive remote that speaks is
      answered and marked for closing before the next pass, and one that is silent is not pairable. */
  lemma AliveIsNeverPaired(conf: Config, es: seq<Event>, t: Tunnel)
    requires SafeRun(Start(conf), es)
    ensures Run(Start(conf), es).Some?
    ensures var w := Run(Start(conf), es).value;
      t in w.wait ==> t in w.tuns && (Pairable(w, t) <==> w.tuns[t].status == TmptunWait)
  {
    ServerKeepsPool(conf, es);
    var w := Run(Start(conf), es).value;
    if t in w.wait {
      assert WaitOk(w, t);
    }
  }

  // ----- ends of a handshake that was not finished

  /** A tunnel reaches `connected_state` with a remote, straight from its handshake. */
  predicate Skips(w: World, v: World, t: Tunnel) {
    && t in w.tuns && t in v.tuns
    && InHandshake(w.tuns[t].hs.state) && v.tuns[t].hs.state == ConnectedState && v.tuns[t].remote != null
  }

  lemma AcceptSucceeds(w: World, ns: Sock, nt: Tunnel)
    requires ns !in w.socks && nt !in w.tuns && IdleIsAttached(w)
    ensures AcceptRmt(w, ns, nt).Some?
  {
  }

  /** Of the tunnels on AppList, an accepted remote changes only the one it joins. */
  lemma AcceptTouchesOne(w: World, ns: Sock, nt: Tunnel, t: Tunnel)
    requires t in w.app && t in w.tuns && t !in w.wait && nt !in w.tuns && AcceptRmt(w, ns, nt).Some?
    ensures var k := FindStatus(w.tuns, w.app, TunnIdle); var v := AcceptRmt(w, ns, nt).value;
      && t in v.tuns
      && if k < |w.app| && t == w.app[k] then v.tuns[t].hs.state == ConnectedState && v.tuns[t].remote == ns
         else v.tuns[t] == w.tuns[t]
  {
    assert forall j :: 0 <= j < |w.wait| ==> w.wait[j] != t;
  }

  /** Accepting a remote ends a handshake that is not finished exactly when the first idle tunnel is
      still in it.  The pool stays in order all the same. */
  lemma EarlyAcceptSkips(w: World, ns: Sock, nt: Tunnel, t: Tunnel)
    requires PoolInv(w) && Enabled(w, AcceptRemote(ns, nt)) && Safe(w, AcceptRemote(ns, nt))
    ensures Step(w, AcceptRemote(ns, nt)).Some?
    ensures var k := FindStatus(w.tuns, w.app, TunnIdle);
      Skips(w, Step(w, AcceptRemote(ns, nt)).value, t) <==>
        k < |w.app| && t == w.app[k] && InHandshake(w.tuns[t].hs.state)
  {
    AcceptSucceeds(w, ns, nt);
    if t in w.wait {
      assert WaitOk(w, t);
    } else if t in w.tuns {
      assert AppOk(w, t);
      AcceptTouchesOne(w, ns, nt, t);
    }
  }

  // ----- where a remote goes

  /** An accepted remote joins the first idle tunnel in AppList order; if there is none it waits, and is
      pairable, on an entry of the waitList that was free or is new. */
  lemma AcceptedRemoteIsPlaced(w: World, ns: Sock, nt: Tunnel)
    requires PoolInv(w) && Enabled(w, AcceptRemote(ns, nt)) && Safe(w, AcceptRemote(ns, nt))
    ensures Step(w, AcceptRemote(ns, nt)).Some?
    ensures var v := Step(w, AcceptRemote(ns, nt)).value; var k := FindStatus(w.tuns, w.app, TunnIdle);
      && ns in v.socks && v.socks[ns].tunnel in v.tuns
      && var t := v.socks[ns].tunnel;
      && v.tuns[t].remote == ns
      && if k < |w.app| then
           t == w.app[k] && v.tuns[t].status == TunnRun && v.tuns[t].hs.state == ConnectedState && v.wait == w.wait
         else
           && t in v.wait && Pairable(v, t) && (t in w.tuns ==> v.wait == w.wait)
           && (t in w.wait ==> t in w.tuns && w.tuns[t].status == TmptunFree)
  {
    AcceptRemoteKeeps(w, ns, nt);
    var j := FindStatus(w.tuns, w.wait, TmptunFree);
    assert j < |w.wait| ==> w.wait[j] in w.wait && WaitOk(w, w.wait[j]);
  }

  /** A parked remote that speaks is answered, armed for writing, and no longer pairable; what it said is
      dropped. */
  lemma ParkedRemoteIsAnswered(w: World, s: Sock, bytes: seq<byte>)
    requires PoolInv(w) && s in w.socks && !w.socks[s].ispriv && w.socks[s].tunnel in w.wait && bytes != []
    ensures Step(w, Read(s, Data(bytes))).Some?
    ensures var v := Step(w, Read(s, Data(bytes))).value;
      && s in v.socks && v.socks[s].wbuf == w.socks[s].wbuf + RESPONSE && v.socks[s].rbuf == [] && v.socks[s].pollOut
      && v.socks[s].tunnel == w.socks[s].tunnel && !Pairable(v, v.socks[s].tunnel)
  {
    Owner(w, s);
    RemoteInputKeeps(w, s, bytes);
  }

  /** In a pool in order a write event finds something to write, so `tunnel_write_handle` never takes the
      branch that force-closes a half-closed socket: a socket stays through every write that does not
      fail. */
  lemma WritingKeepsTheSocket(w: World, s: Sock, put: WriteResult, nt: Tunnel)
    requires PoolInv(w) && Enabled(w, Write(s, put, nt)) && !put.WriteError?
    ensures w.socks[s].wbuf != [] && Step(w, Write(s, put, nt)).Some?
    ensures s in Step(w, Write(s, put, nt)).value.socks
  {
    Owner(w, s);
    WriteKeeps(w, s, put, nt);
    WriteIs(w, s, put, nt);
  }
}
