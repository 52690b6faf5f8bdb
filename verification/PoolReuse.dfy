/** A private tunnel that is used again: no remote reaches it before its new handshake is finished.
    This holds in every run, safe or not. */
module PoolReuse {
  import opened Common
  import opened Handshake
  import opened Objects
  import opened Pool
  import opened PoolInvariant
  import opened Wiring
  import opened PoolRuns

  /** `t` is free, or it was found free and is in its new handshake.  Either way it has no remote. */
  predicate Withheld(w: World, t: Tunnel) {
    && t in w.tuns && t !in w.wait && w.tuns[t].remote == null
    && (InHandshake(w.tuns[t].hs.state) || w.tuns[t].hs.state == ConnectedState)
    && (|| (w.tuns[t].status == TunnRun && InHandshake(w.tuns[t].hs.state))
        || (w.tuns[t].status == TunnFree && w.tuns[t].priv == null))
  }

  /** The event that makes it available: `tunnel_request_handle` accepts the request. */
  predicate Finishes(w: World, v: World, t: Tunnel) {
    && t in w.tuns && t in v.tuns && t !in v.wait
    && w.tuns[t].hs.state == RequestState && v.tuns[t].hs.state == ConnectedState
    && v.tuns[t].status == TunnIdle && v.tuns[t].remote == null
  }

  predicate StillWithheld(r: Option<World>, t: Tunnel) {
    r.Some? ==> Withheld(r.value, t)
  }

  lemma ForceShutdownWithholds(w: World, s: Sock, t: Tunnel)
    requires Withheld(w, t)
    ensures StillWithheld(SockForceShutdown(w, s), t)
  {
  }

  lemma ClosePrivateWithholds(w: World, s: Sock, o: Tunnel, t: Tunnel)
    requires Withheld(w, t)
    ensures StillWithheld(ClosePrivate(w, s, o), t)
  {
    ForceShutdownWithholds(w, s, t);
    if o in w.tuns && s == w.tuns[o].priv && SockForceShutdown(w, s).Some? {
      var w1 := SockForceShutdown(w, s).value;
      if o in w1.tuns {
        var w2 := PutTun(w1, o, w1.tuns[o].(status := TunnFree, priv := null));
        if w2.tuns[o].remote != null {
          ForceShutdownWithholds(w2, w2.tuns[o].remote, t);
        }
      }
    }
  }

  lemma CloseRemoteWithholds(w: World, s: Sock, o: Tunnel, t: Tunnel)
    requires Withheld(w, t)
    ensures StillWithheld(CloseRemote(w, s, o), t)
  {
    ForceShutdownWithholds(w, s, t);
  }

  lemma CloseWithholds(w: World, s: Sock, o: Tunnel, t: Tunnel)
    requires Withheld(w, t)
    ensures StillWithheld(CloseDrained(w, s, o), t)
  {
    ClosePrivateWithholds(w, s, o, t);
    var w1 := ClosePrivate(w, s, o);
    if w1.Some? {
      CloseRemoteWithholds(w1.value, s, o, t);
      var w2 := CloseRemote(w1.value, s, o);
      if w2.Some? {
        ForceShutdownWithholds(w2.value, s, t);
      }
    }
  }

  lemma ShutdownWithholds(w: World, s: Sock, t: Tunnel)
    requires Withheld(w, t)
    ensures StillWithheld(SockShutdown(w, s), t)
  {
    if Known(w, s) {
      var o := w.socks[s].tunnel;
      var w1 := ForwardLeft(PutSock(w, s, w.socks[s].(state := SockHalfclosed)), s, o);
      if w1.Some? {
        CloseWithholds(w1.value, s, o, t);
      }
    }
  }

  lemma TunnelShutdownWithholds(w: World, o: Tunnel, s: Sock, t: Tunnel)
    requires Withheld(w, t)
    ensures StillWithheld(TunnelShutdown(w, o, s), t)
  {
    ShutdownWithholds(w, s, t);
    if o in w.tuns {
      var w1 := if s == w.tuns[o].priv then SockShutdown(w, s) else Some(w);
      if w1.Some? {
        ShutdownWithholds(w1.value, s, t);
      }
    }
  }

  predicate StillOrDone(w: World, r: Option<World>, t: Tunnel) {
    r.Some? ==> Withheld(r.value, t) || Finishes(w, r.value, t)
  }

  lemma HandshakeWithholds(w: World, o: Tunnel, s: Sock, t: Tunnel)
    requires Withheld(w, t) && o in w.tuns && InHandshake(w.tuns[o].hs.state)
    ensures StillOrDone(w, HandshakeHandle(w, o, s), t)
  {
    var p := w.tuns[o].priv;
    if p in w.socks {
      var out := Handle(w.conf, w.tuns[o].hs, w.socks[p].rbuf);
      StateStaysPrivate(w.conf, w.tuns[o].hs, w.socks[p].rbuf);
      RejectKeepsState(w.conf, w.tuns[o].hs, w.socks[p].rbuf);
      var w1 := AfterHandler(w, o, out);
      if out.verdict == Reject {
        ForceShutdownWithholds(w1, s, t);
      }
    }
  }

  lemma DispatchWithholds(w: World, s: Sock, t: Tunnel)
    requires Withheld(w, t)
    ensures StillOrDone(w, Dispatch(w, s), t)
  {
    if Known(w, s) {
      var o := w.socks[s].tunnel;
      if InHandshake(w.tuns[o].hs.state) {
        HandshakeWithholds(w, o, s, t);
      } else if w.tuns[o].hs.state == ConnectedState {
        var r := ConnectedHandle(w, o, s);
        if r.Some? {
          TunnelShutdownWithholds(r.value.0, o, s, t);
        }
      }
    }
  }

  lemma ReadWithholds(w: World, s: Sock, got: ReadResult, t: Tunnel)
    requires Withheld(w, t)
    ensures StillOrDone(w, ReadHandle(w, s, got), t)
  {
    if s in w.socks {
      var bytes := if got.Data? then got.bytes else [];
      DispatchWithholds(w, s, t);
      DispatchWithholds(PutSock(w, s, w.socks[s].(rbuf := w.socks[s].rbuf + bytes)), s, t);
      ShutdownWithholds(w, s, t);
    }
  }

  lemma SwitchWithholds(w: World, s: Sock, o: Tunnel, nt: Tunnel, t: Tunnel)
    requires Withheld(w, t)
    ensures StillWithheld(SwitchHandle(w, s, o, nt), t)
  {
    assert forall k :: 0 <= k < |w.wait| ==> w.wait[k] != t;
  }

  lemma AfterWriteWithholds(w: World, s: Sock, o: Tunnel, nt: Tunnel, t: Tunnel)
    requires Withheld(w, t) && s in w.socks && o in w.tuns
    ensures StillWithheld(AfterWrite(w, s, o, nt), t)
  {
    SwitchWithholds(w, s, o, nt, t);
  }

  lemma WriteWithholds(w: World, s: Sock, put: WriteResult, nt: Tunnel, t: Tunnel)
    requires Withheld(w, t)
    ensures StillWithheld(WriteHandle(w, s, put, nt), t)
  {
    if Known(w, s) {
      var d := w.socks[s];
      if put.Wrote? && put.n <= |d.wbuf| {
        AfterWriteWithholds(PutSock(w, s, d.(wbuf := d.wbuf[put.n..])), s, d.tunnel, nt, t);
      }
      AfterWriteWithholds(w, s, d.tunnel, nt, t);
      ForceShutdownWithholds(w, s, t);
    }
  }

  lemma AcceptPrivWithholds(w: World, ns: Sock, nt: Tunnel, t: Tunnel)
    requires Withheld(w, t)
    ensures StillWithheld(AcceptPriv(w, ns, nt), t)
  {
  }

  lemma AcceptRmtWithholds(w: World, ns: Sock, nt: Tunnel, t: Tunnel)
    requires Withheld(w, t)
    ensures StillWithheld(AcceptRmt(w, ns, nt), t)
  {
    assert forall k :: 0 <= k < |w.wait| ==> w.wait[k] != t;
  }

  lemma {:induction false} PassWithholds(w: World, i: nat, t: Tunnel)
    requires i <= |w.app| && Withheld(w, t)
    ensures StillWithheld(PairFrom(w, i), t)
    decreases |w.app| - i
  {
    if i < |w.app| && w.app[i] in w.tuns {
      if w.tuns[w.app[i]].status != TunnIdle {
        PassWithholds(w, i + 1, t);
      } else if FindPairable(w, w.wait) < |w.wait| {
        var p := w.wait[FindPairable(w, w.wait)];
        if PairOne(w, w.app[i], p).Some? {
          PairOneLeaves(w, w.app[i], p, t);
          PassWithholds(PairOne(w, w.app[i], p).value, i + 1, t);
        }
      }
    }
  }

  /** One event: `t` stays withheld unless the event is the end of its handshake, and even that event
      does not give it a remote. */
  lemma StepWithholds(w: World, e: Event, t: Tunnel)
    requires Withheld(w, t)
    ensures StillOrDone(w, Step(w, e), t)
  {
    match e
    case AcceptPrivate(ns, nt) => AcceptPrivWithholds(w, ns, nt, t);
    case AcceptRemote(ns, nt) => AcceptRmtWithholds(w, ns, nt, t);
    case Read(s, got) => ReadWithholds(w, s, got, t);
    case Write(s, put, nt) => WriteWithholds(w, s, put, nt, t);
    case Pair => PassWithholds(w, 0, t);
  }

  /** At some point of the run `t` finished a handshake. */
  predicate FinishedIn(w: World, es: seq<Event>, t: Tunnel)
    decreases |es|
  {
    es != [] && Step(w, es[0]).Some?
    && (Finishes(w, Step(w, es[0]).value, t) || FinishedIn(Step(w, es[0]).value, es[1..], t))
  }

  /** Over every run, a tunnel that was found free gets a remote, from an accept or from a pairing pass,
      only after `tunnel_request_handle` has put it in `connected_state`. */
  lemma {:induction false} NoRemoteBeforeHandshake(w: World, es: seq<Event>, t: Tunnel)
    requires Withheld(w, t) && Run(w, es).Some?
    ensures var v := Run(w, es).value; t in v.tuns && v.tuns[t].remote != null ==> FinishedIn(w, es, t)
    decreases |es|
  {
    if es != [] {
      StepWithholds(w, es[0], t);
      var v := Step(w, es[0]).value;
      if !Finishes(w, v, t) {
        NoRemoteBeforeHandshake(v, es[1..], t);
      }
    }
  }

  /** After any run, safe or not, a free tunnel is in such a state, and so is the one that a private
      connection takes over. */
  lemma ReuseIsWithheld(conf: Config, es: seq<Event>, t: Tunnel, ns: Sock, nt: Tunnel)
    requires Run(Start(conf), es).Some? && t in Run(Start(conf), es).value.tuns
    requires Run(Start(conf), es).value.tuns[t].status == TunnFree
    ensures var w := Run(Start(conf), es).value;
      Withheld(w, t) && (AcceptPriv(w, ns, nt).Some? ==> Withheld(AcceptPriv(w, ns, nt).value, t))
  {
    var w := Run(Start(conf), es).value;
    EveryRunIsWired(conf, es);
    assert TunWired(w, t);
    AcceptPrivWithholds(w, ns, nt, t);
  }

  /** From the start of the server: whatever happened before, and whatever follows, a tunnel that is free
      at some point gets a remote after it only if `tunnel_request_handle` accepts a request on it in
      between. */
  lemma NoRemoteAfterReuse(conf: Config, es: seq<Event>, fs: seq<Event>, t: Tunnel)
    requires Run(Start(conf), es + fs).Some? && Run(Start(conf), es).Some?
    requires t in Run(Start(conf), es).value.tuns && Run(Start(conf), es).value.tuns[t].status == TunnFree
    ensures var w, v := Run(Start(conf), es).value, Run(Start(conf), es + fs).value;
      t in v.tuns && v.tuns[t].remote != null ==> FinishedIn(w, fs, t)
  {
    var w := Run(Start(conf), es).value;
    EveryRunIsWired(conf, es);
    assert TunWired(w, t);
    RunTwice(Start(conf), es, fs);
    NoRemoteBeforeHandshake(w, fs, t);
  }
}
