/** Logins over runs of the server: which events change the handshake fields of a tunnel, what these
    fields hold after any run, and what the bytes of one client have to do with the state of its
    tunnel. */
module LoginRuns {
  import opened Common
  import opened Protocol
  import opened Handshake
  import opened Session
  import opened Objects
  import opened Pool
  import opened PoolInvariant
  import opened Wiring
  import opened Pairing
  import opened PoolRuns
  import opened Effects

  // ----- the events that change the fields

  /** A read event runs one handler on the private input of `t`. */
  predicate Handles(w: World, e: Event, t: Tunnel, h: Hs)
    requires t in w.tuns
  {
    && e.Read? && !Ended(e.got) && e.s in w.socks && w.socks[e.s].tunnel == t && InHandshake(w.tuns[t].hs.state)
    && w.tuns[t].priv in Arrived(w, e.s, e.got).socks
    && var o := Handle(w.conf, w.tuns[t].hs, Arrived(w, e.s, e.got).socks[w.tuns[t].priv].rbuf);
    o.verdict != Abort && h == o.h
  }

  /** The four things that can happen to the handshake fields of an AppList tunnel: nothing; a private
      accept opens it again; a remote accept puts it in `connected_state`; or one handler runs. */
  predicate FieldsBecome(w: World, e: Event, t: Tunnel, h: Hs)
    requires t in w.tuns
  {
    var was := w.tuns[t].hs;
    || h == was
    || (e.AcceptPrivate? && w.tuns[t].status == TunnFree && h == Opened(was).h)
    || (e.AcceptRemote? && t == RemoteTarget(w, e.nt) && t in w.app
        && h == was.(state := ConnectedState, readCount := 0))
    || Handles(w, e, t, h)
  }

  lemma PrivateAcceptChanges(w: World, ns: Sock, nt: Tunnel, t: Tunnel)
    requires Wired(w) && ns !in w.socks && nt !in w.tuns && t in w.app && AcceptPriv(w, ns, nt).Some?
    ensures var v := AcceptPriv(w, ns, nt).value;
      t in v.tuns && t in v.app && v.conf == w.conf && FieldsBecome(w, AcceptPrivate(ns, nt), t, v.tuns[t].hs)
  {
    AcceptPrivateIsLocal(w, ns, nt);
    var v := AcceptPriv(w, ns, nt).value;
    assert Lists(v);
  }

  lemma PassKeepsFields(w: World, t: Tunnel)
    requires Wired(w) && t in w.app
    ensures PairFrom(w, 0).Some?
    ensures var v := PairFrom(w, 0).value; t in v.tuns && t in v.app && v.conf == w.conf && v.tuns[t].hs == w.tuns[t].hs
  {
    var v, idles, waiters := PassServes(w);
    if t in idles {
      var k :| 0 <= k < |idles| && idles[k] == t;
      assert TookOver(w, v, idles[k], waiters[k]);
    }
  }

  /** One event of any run: no other thing happens to them. */
  lemma FieldsChange(w: World, e: Event, t: Tunnel)
    requires Wired(w) && Enabled(w, e) && Step(w, e).Some? && t in w.app
    ensures var v := Step(w, e).value;
      t in v.tuns && t in v.app && v.conf == w.conf && FieldsBecome(w, e, t, v.tuns[t].hs)
  {
    var v := Step(w, e).value;
    match e
    case AcceptPrivate(ns, nt) => PrivateAcceptChanges(w, ns, nt, t);
    case AcceptRemote(ns, nt) => AcceptRemoteIsLocal(w, ns, nt);
    case Read(s, got) =>
      ReadIsLocal(w, s, got);
      if !Ended(got) && w.socks[s].tunnel == t {
        ArrivalIsLocal(w, s, got);
        assert Arrived(w, s, got).tuns == w.tuns;
      }
    case Write(s, put, nt) => var c := WriteIsLocal(w, s, put, nt);
    case Pair => PassKeepsFields(w, t);
  }

  /** What an event can put on AppList: a tunnel that waits for a greeting. */
  lemma NewTunnelIsOpen(w: World, e: Event, t: Tunnel)
    requires Wired(w) && Enabled(w, e) && Step(w, e).Some? && t !in w.app && t in Step(w, e).value.app
    ensures t in Step(w, e).value.tuns && Step(w, e).value.tuns[t].hs == ZERO_HS
  {
    match e
    case AcceptPrivate(ns, nt) => AcceptPrivateIsLocal(w, ns, nt);
    case AcceptRemote(ns, nt) => AcceptRemoteIsLocal(w, ns, nt);
    case Read(s, got) => ReadIsLocal(w, s, got);
    case Write(s, put, nt) => var c := WriteIsLocal(w, s, put, nt);
    case Pair => PairingPass(w);
  }

  // ----- what the fields hold

  lemma AuthVets(conf: Config, h: Hs, buf: seq<byte>)
    requires h.state == AuthState
    ensures var o := AuthHandle(conf, h, buf);
      o.h.state == AuthState || (o.h.state == RequestState && HoldsCredentials(conf, o.h.ap))
  {
  }

  lemma RequestKeepsLogin(h: Hs, buf: seq<byte>, reply: seq<byte>)
    requires h.state == RequestState
    ensures RequestHandle(h, buf, reply).h.ap == h.ap
  {
  }

  /** With credentials configured, a handler leaves `request_state` behind only with the credentials in
      the fields; and the handler of that state keeps them. */
  lemma HandlerVets(conf: Config, h: Hs, buf: seq<byte>)
    requires conf.Auth() && InHandshake(h.state)
    ensures var o := Handle(conf, h, buf);
      && (o.verdict != Abort && o.h.state == RequestState ==>
            HoldsCredentials(conf, o.h.ap) || (h.state == RequestState && o.h.ap == h.ap))
      && (o.verdict != Abort && o.h.state == ConnectedState ==> h.state == RequestState && o.h.ap == h.ap)
  {
    match h.state
    case OpenState =>
    case AuthState => AuthVets(conf, h, buf);
    case RequestState => RequestKeepsLogin(h, buf, NotifyConnected(conf));
  }

  /** `tunnel_request_handle` is reached only with the credentials in the fields. */
  predicate Vetted(w: World, t: Tunnel) {
    t in w.app && t in w.tuns && w.tuns[t].hs.state == RequestState ==> HoldsCredentials(w.conf, w.tuns[t].hs.ap)
  }

  /** And so is `connected_state`. */
  predicate VettedThrough(w: World, t: Tunnel) {
    t in w.app && t in w.tuns && w.tuns[t].hs.state == ConnectedState ==> HoldsCredentials(w.conf, w.tuns[t].hs.ap)
  }

  /** An accepted remote takes `t` out of a handshake that is not finished. */
  predicate Skipped(w: World, e: Event, t: Tunnel) {
    e.AcceptRemote? && t in w.tuns && t in w.app && t == RemoteTarget(w, e.nt) && InHandshake(w.tuns[t].hs.state)
  }

  lemma StepKeepsVetted(w: World, e: Event, t: Tunnel)
    requires w.conf.Auth() && Wired(w) && Enabled(w, e) && Step(w, e).Some? && Vetted(w, t)
    ensures var v := Step(w, e).value;
      Vetted(v, t) && (VettedThrough(w, t) ==> VettedThrough(v, t) || Skipped(w, e, t))
  {
    var v := Step(w, e).value;
    if t in w.app {
      FieldsChange(w, e, t);
      assert TunWired(w, t);
      if Handles(w, e, t, v.tuns[t].hs) {
        HandlerVets(w.conf, w.tuns[t].hs, Arrived(w, e.s, e.got).socks[w.tuns[t].priv].rbuf);
      }
    } else if t in v.app {
      NewTunnelIsOpen(w, e, t);
    }
  }

  /** At some point of the run that happens. */
  predicate SkippedIn(w: World, es: seq<Event>, t: Tunnel)
    decreases |es|
  {
    es != [] && (Skipped(w, es[0], t) || (Step(w, es[0]).Some? && SkippedIn(Step(w, es[0]).value, es[1..], t)))
  }

  /** `t` is in `connected_state` now and after every event of the run. */
  predicate StaysConnected(w: World, es: seq<Event>, t: Tunnel)
    decreases |es|
  {
    && t in w.app && t in w.tuns && w.tuns[t].hs.state == ConnectedState
    && (es == [] || (Step(w, es[0]).Some? && StaysConnected(Step(w, es[0]).value, es[1..], t)))
  }

  /** At some point of the run an accepted remote takes `t` out of a handshake that is not finished, and it
      has been in `connected_state` since. */
  predicate SkippedSince(w: World, es: seq<Event>, t: Tunnel)
    decreases |es|
  {
    && es != [] && Step(w, es[0]).Some?
    && var u := Step(w, es[0]).value;
    (Skipped(w, es[0], t) && StaysConnected(u, es[1..], t)) || SkippedSince(u, es[1..], t)
  }

  lemma StepKeepsConf(w: World, e: Event)
    requires Wired(w) && Enabled(w, e) && Step(w, e).Some?
    ensures Step(w, e).value.conf == w.conf
  {
    match e
    case AcceptPrivate(ns, nt) => AcceptPrivateIsLocal(w, ns, nt);
    case AcceptRemote(ns, nt) => AcceptRemoteIsLocal(w, ns, nt);
    case Read(s, got) => ReadIsLocal(w, s, got);
    case Write(s, put, nt) => var c := WriteIsLocal(w, s, put, nt);
    case Pair => PairingPass(w);
  }

  /** A run keeps what `request_state` says; and a tunnel that ends up in `connected_state` without the
      credentials was so all along, or was skipped and has stayed there since. */
  lemma {:induction false} RunKeepsVetted(w: World, es: seq<Event>, t: Tunnel)
    requires w.conf.Auth() && Wired(w) && Run(w, es).Some? && Vetted(w, t)
    ensures Run(w, es).value.conf == w.conf && Vetted(Run(w, es).value, t)
    ensures !VettedThrough(Run(w, es).value, t) ==>
      (!VettedThrough(w, t) && StaysConnected(w, es, t)) || SkippedSince(w, es, t)
    decreases |es|
  {
    if es != [] {
      var u := Step(w, es[0]).value;
      StepKeepsVetted(w, es[0], t);
      StepKeepsWired(w, es[0]);
      StepKeepsConf(w, es[0]);
      RunKeepsVetted(u, es[1..], t);
    }
  }

  /** After any run, safe or not, of a server with both credentials configured: a tunnel in
      `request_state` holds them, and one in `connected_state` does too unless an accepted remote took it
      out of its handshake and it has stayed connected since.  They may have been sent by an earlier
      client. */
  lemma CredentialsOrEarlyRemote(conf: Config, es: seq<Event>, t: Tunnel)
    requires conf.Auth() && Run(Start(conf), es).Some?
    ensures var w := Run(Start(conf), es).value;
      t in w.app ==>
        && t in w.tuns
        && (w.tuns[t].hs.state == RequestState ==> HoldsCredentials(conf, w.tuns[t].hs.ap))
        && (w.tuns[t].hs.state == ConnectedState ==>
              HoldsCredentials(conf, w.tuns[t].hs.ap) || SkippedSince(Start(conf), es, t))
  {
    RunKeepsVetted(Start(conf), es, t);
    EveryRunIsWired(conf, es);
  }

  // ----- what one client has sent

  /** The bytes of the read events of socket `s`, event by event. */
  function ReadsOf(es: seq<Event>, s: Sock): seq<seq<byte>> {
    if es == [] then []
    else if es[0].Read? && es[0].s == s && !Ended(es[0].got) then
      [if es[0].got.Data? then es[0].got.bytes else []] + ReadsOf(es[1..], s)
    else ReadsOf(es[1..], s)
  }

  /** `s` is the private socket of `t`, and `x` is where its session stands. */
  predicate Tracks(w: World, t: Tunnel, s: Sock, x: Session) {
    && Good(x) && x.Live? && s in w.socks && w.socks[s].ispriv && w.socks[s].tunnel == t
    && t in w.tuns && t in w.app && w.tuns[t].priv == s && w.tuns[t].hs == x.h
    && (InHandshake(x.h.state) ==> w.socks[s].rbuf == x.buf)
  }

  lemma ReadTracks(w: World, s: Sock, got: ReadResult, t: Tunnel, x: Session)
    requires Wired(w) && s in w.socks && ReadHandle(w, s, got).Some? && !Ended(got)
    requires s in ReadHandle(w, s, got).value.socks && Tracks(w, t, s, x)
    ensures Tracks(ReadHandle(w, s, got).value, t, s, FeedAll(w.conf, x, ReadsOf([Read(s, got)], s)))
  {
    var c: seq<byte> := if got.Data? then got.bytes else [];
    assert [Read(s, got)][1..] == [];
    assert ReadsOf([Read(s, got)], s) == [c] + [];
    assert [c][1..] == [];
    assert FeedAll(w.conf, x, [c]) == Feed(w.conf, x, c);
    WakeEarly(w.conf, Append(x, c), []);
    ReadIsLocal(w, s, got);
    ArrivalIsLocal(w, s, got);
    assert got.ReadAgain? ==> x.buf + [] == x.buf;
  }

  /** In a pool in order no other socket drives the handshake of `t`. */
  lemma OwnInputOnly(w: World, x: Sock, t: Tunnel, s: Sock)
    requires PoolInv(w) && t in w.app && t in w.tuns && w.tuns[t].priv == s && x in w.socks
    requires w.socks[x].tunnel == t && InHandshake(w.tuns[t].hs.state)
    ensures x == s
  {
    assert AppOk(w, t) && SockOk(w, x);
  }

  lemma ServedKeepsInput(w: World, v: World, s: Sock, idles: seq<Tunnel>, waiters: seq<Tunnel>)
    requires Wired(w) && s in w.socks && w.socks[s].ispriv && PairedUp(w, v, idles, waiters)
    requires forall x :: x in idles ==> x in w.app
    requires forall x :: x in waiters ==> x in w.wait
    ensures s in v.socks && v.socks[s].ispriv
    ensures v.socks[s].tunnel == w.socks[s].tunnel && v.socks[s].rbuf == w.socks[s].rbuf
  {
    SockInPass(w, v, s, idles, waiters);
    SockOwner(w, s);
    if w.socks[s].tunnel in idles {
      var k :| 0 <= k < |idles| && idles[k] == w.socks[s].tunnel;
      assert TookOver(w, v, idles[k], waiters[k]);
    }
  }

  lemma PassKeepsPrivateInput(w: World, s: Sock)
    requires Wired(w) && s in w.socks && w.socks[s].ispriv
    ensures PairFrom(w, 0).Some? && s in PairFrom(w, 0).value.socks
    ensures var d := PairFrom(w, 0).value.socks[s];
      d.tunnel == w.socks[s].tunnel && d.ispriv && d.rbuf == w.socks[s].rbuf
  {
    var v, idles, waiters := PassServes(w);
    ServedKeepsInput(w, v, s, idles, waiters);
  }

  /** A private socket that lives on belongs to the same tunnel, and its input changes only by a read event
      of that tunnel. */
  lemma PrivateSockStays(w: World, e: Event, s: Sock)
    requires Wired(w) && Enabled(w, e) && Step(w, e).Some?
    requires s in w.socks && w.socks[s].ispriv && s in Step(w, e).value.socks
    ensures var v := Step(w, e).value;
      && v.socks[s].tunnel == w.socks[s].tunnel && v.socks[s].ispriv
      && ((e.Read? && !Ended(e.got) && w.socks[e.s].tunnel == w.socks[s].tunnel) || v.socks[s].rbuf == w.socks[s].rbuf)
  {
    match e
    case AcceptPrivate(ns, nt) => AcceptPrivateIsLocal(w, ns, nt);
    case AcceptRemote(ns, nt) => AcceptRemoteIsLocal(w, ns, nt);
    case Read(x, got) => ReadIsLocal(w, x, got);
    case Write(x, put, nt) => var c := WriteIsLocal(w, x, put, nt);
    case Pair => PassKeepsPrivateInput(w, s);
  }

  /** Every other event leaves the fields and the unread bytes alone. */
  lemma OthersTrack(w: World, e: Event, t: Tunnel, s: Sock, x: Session)
    requires PoolInv(w) && Enabled(w, e) && Step(w, e).Some? && s in Step(w, e).value.socks
    requires Tracks(w, t, s, x) && !Skipped(w, e, t) && !(e.Read? && e.s == s && !Ended(e.got))
    ensures Tracks(Step(w, e).value, t, s, x)
  {
    ShapeIsWired(w);
    StepKeepsWired(w, e);
    FieldsChange(w, e, t);
    PrivateSockStays(w, e, s);
    if e.Read? && w.socks[e.s].tunnel == t && InHandshake(w.tuns[t].hs.state) {
      OwnInputOnly(w, e.s, t, s);
    }
    assert TunWired(w, t) && SockWired(Step(w, e).value, s);
  }

  /** One event of a safe run: while the socket lives, and unless an accepted remote ends the handshake,
      the session moves by the bytes the event reads from it and by nothing else. */
  lemma StepTracks(w: World, e: Event, t: Tunnel, s: Sock, x: Session)
    requires PoolInv(w) && Enabled(w, e) && Safe(w, e) && Step(w, e).Some? && s in Step(w, e).value.socks
    requires Tracks(w, t, s, x) && !Skipped(w, e, t)
    ensures Tracks(Step(w, e).value, t, s, FeedAll(w.conf, x, ReadsOf([e], s)))
  {
    ShapeIsWired(w);
    StepKeepsWired(w, e);
    var v := Step(w, e).value;
    FieldsChange(w, e, t);
    assert TunWired(w, t) && SockWired(v, s);
    if e.Read? && e.s == s && !Ended(e.got) {
      ReadTracks(w, s, e.got, t, x);
    } else {
      assert [e][1..] == [];
      assert ReadsOf([e], s) == [];
      OthersTrack(w, e, t, s, x);
    }
  }

  lemma ReadsOneByOne(conf: Config, x: Session, es: seq<Event>, s: Sock)
    requires es != []
    ensures FeedAll(conf, x, ReadsOf(es, s))
         == FeedAll(conf, FeedAll(conf, x, ReadsOf([es[0]], s)), ReadsOf(es[1..], s))
  {
    assert [es[0]][1..] == [];
    var rest := ReadsOf(es[1..], s);
    if es[0].Read? && es[0].s == s && !Ended(es[0].got) {
      var c: seq<byte> := if es[0].got.Data? then es[0].got.bytes else [];
      assert ReadsOf([es[0]], s) == [c] + [] && [c][1..] == [];
      assert ([c] + rest)[1..] == rest;
      assert FeedAll(conf, x, [c]) == Feed(conf, x, c);
    } else {
      assert ReadsOf([es[0]], s) == [];
    }
  }

  // ----- what the client is sent

  /** `sent` has been written to `s`.  With what is still to be written it is what the session has answered,
      as long as the handshake lasts, and starts with it from then on. */
  predicate Answers(w: World, s: Sock, x: Session, sent: seq<byte>) {
    && s in w.socks && x.Live?
    && x.out <= sent + w.socks[s].wbuf
    && (InHandshake(x.h.state) ==> x.out == sent + w.socks[s].wbuf)
  }

  /** What an event queues for a private socket in its handshake is what its session answers. */
  lemma OnlyRepliesAreQueued(w: World, e: Event, t: Tunnel, s: Sock, x: Session)
    requires PoolInv(w) && Enabled(w, e) && Known(w, s) && FateOf(w, e, s).Lives?
    requires Tracks(w, t, s, x) && FeedAll(w.conf, x, ReadsOf([e], s)).Live?
    ensures var x' := FeedAll(w.conf, x, ReadsOf([e], s));
      if InHandshake(x.h.state) then x'.out == x.out + FateOf(w, e, s).queued else x'.out == x.out && x'.h == x.h
  {
    assert [e][1..] == [];
    assert x.out + [] == x.out;
    if e.Read? && e.s == s && !Ended(e.got) {
      var c: seq<byte> := if e.got.Data? then e.got.bytes else [];
      assert ReadsOf([e], s) == [c] + [] && [c][1..] == [];
      assert FeedAll(w.conf, x, [c]) == Feed(w.conf, x, c);
    } else {
      assert ReadsOf([e], s) == [];
      if InHandshake(x.h.state) && e.Read? && e.s != s {
        Owner(w, e.s);
        AloneInHandshake(w, s, e.s);
      }
    }
  }

  lemma StepAnswers(w: World, e: Event, t: Tunnel, s: Sock, x: Session, sent: seq<byte>)
    requires PoolInv(w) && Enabled(w, e) && Safe(w, e) && Step(w, e).Some? && s in Step(w, e).value.socks
    requires Tracks(w, t, s, x) && !Skipped(w, e, t) && Answers(w, s, x, sent)
    ensures Answers(Step(w, e).value, s, FeedAll(w.conf, x, ReadsOf([e], s)), sent + BytesOut(w, e, s))
  {
    var v, x' := Step(w, e).value, FeedAll(w.conf, x, ReadsOf([e], s));
    StepTracks(w, e, t, s, x);
    SocketsAct(w, e, s);
    OnlyRepliesAreQueued(w, e, t, s, x);
    AnswersGrow(x, x', sent, w.socks[s].wbuf, BytesOut(w, e, s), v.socks[s].wbuf, FateOf(w, e, s).queued);
  }

  lemma AnswersGrow(x: Session, x': Session, sent: seq<byte>, wbuf: seq<byte>, out: seq<byte>, wbuf': seq<byte>,
                    queued: seq<byte>)
    requires x.Live? && x'.Live? && out + wbuf' == wbuf + queued && x.out <= sent + wbuf
    requires InHandshake(x.h.state) ==> x.out == sent + wbuf && x'.out == x.out + queued
    requires !InHandshake(x.h.state) ==> x'.out == x.out && x'.h == x.h
    ensures x'.out <= sent + out + wbuf' && (InHandshake(x'.h.state) ==> x'.out == sent + out + wbuf')
  {
    assert sent + out + wbuf' == sent + (out + wbuf') == sent + (wbuf + queued) == sent + wbuf + queued;
  }

  // ----- whole runs

  /** Both, after one event of a safe run. */
  lemma StepKeepsBoth(w: World, e: Event, t: Tunnel, s: Sock, x: Session, sent: seq<byte>)
    requires PoolInv(w) && Enabled(w, e) && Safe(w, e) && Step(w, e).Some? && s in Step(w, e).value.socks
    requires Tracks(w, t, s, x) && !Skipped(w, e, t) && Answers(w, s, x, sent)
    ensures var v, x' := Step(w, e).value, FeedAll(w.conf, x, ReadsOf([e], s));
      PoolInv(v) && v.conf == w.conf && Tracks(v, t, s, x') && Answers(v, s, x', sent + BytesOut(w, e, s))
  {
    StepTracks(w, e, t, s, x);
    StepAnswers(w, e, t, s, x, sent);
    StepKeepsPool(w, e);
    ShapeIsWired(w);
    StepKeepsConf(w, e);
  }

  lemma Regrouped(a: seq<byte>, b: seq<byte>, c: seq<byte>)
    ensures a + (b + c) == a + b + c
  {
  }

  lemma OutOneByOne(w: World, es: seq<Event>, s: Sock, sent: seq<byte>)
    requires es != [] && Step(w, es[0]).Some?
    ensures sent + AllOut(w, es, s) == sent + BytesOut(w, es[0], s) + AllOut(Step(w, es[0]).value, es[1..], s)
  {
    Regrouped(sent, BytesOut(w, es[0], s), AllOut(Step(w, es[0]).value, es[1..], s));
  }

  lemma {:induction false} RunTracks(w: World, es: seq<Event>, t: Tunnel, s: Sock, x: Session, sent: seq<byte>)
    requires PoolInv(w) && SafeRun(w, es) && Stays(w, es, s) && !SkippedIn(w, es, t)
    requires Tracks(w, t, s, x) && Answers(w, s, x, sent)
    ensures Run(w, es).Some?
    ensures var v, x' := Run(w, es).value, FeedAll(w.conf, x, ReadsOf(es, s));
      Tracks(v, t, s, x') && Answers(v, s, x', sent + AllOut(w, es, s))
    decreases |es|
  {
    if es == [] {
      assert sent + AllOut(w, es, s) == sent;
      assert FeedAll(w.conf, x, ReadsOf(es, s)) == x && Run(w, es) == Some(w);
    } else {
      var v := Step(w, es[0]).value;
      StepKeepsBoth(w, es[0], t, s, x, sent);
      RunTracks(v, es[1..], t, s, FeedAll(w.conf, x, ReadsOf([es[0]], s)), sent + BytesOut(w, es[0], s));
      ReadsOneByOne(w.conf, x, es, s);
      OutOneByOne(w, es, s, sent);
      assert Run(w, es) == Run(v, es[1..]);
    }
  }

  /** The tunnel a private connection gets, and what its last user has left in it. */
  function LeftIn(w: World, t: Tunnel): Hs {
    if t in w.tuns then w.tuns[t].hs else ZERO_HS
  }

  /** Which bytes get a client past the login, in a pool in order and over any safe run.  As long as the
      connection lives and no accepted remote takes its tunnel out of the handshake, the state of the
      tunnel is the state of the session of exactly the bytes read from this connection, started on what
      the last user of the tunnel has left, and what has been written to it and is to be written is what
      this session answers, and later starts with it.  So it is past the login only behind a login that these
      leftovers admit; and with that login, and no bad request behind it, it gets there as soon as the
      handlers have run as far as they can. */
  lemma LoginDecides(w: World, ns: Sock, nt: Tunnel, fs: seq<Event>, k: nat)
    requires PoolInv(w) && Enabled(w, AcceptPrivate(ns, nt)) && k >= 3
    requires AcceptPriv(w, ns, nt).Some?
    requires SafeRun(AcceptPriv(w, ns, nt).value, fs) && Stays(AcceptPriv(w, ns, nt).value, fs, ns)
    requires !SkippedIn(AcceptPriv(w, ns, nt).value, fs, Target(w, w.app, TunnFree, nt))
    ensures Run(AcceptPriv(w, ns, nt).value, fs).Some?
    ensures var v, t := Run(AcceptPriv(w, ns, nt).value, fs).value, Target(w, w.app, TunnFree, nt);
      var x, b := FeedAll(w.conf, Opened(LeftIn(w, t)), ReadsOf(fs, ns)), Concat(ReadsOf(fs, ns));
      && Tracks(v, t, ns, x) && Answers(v, ns, x, AllOut(AcceptPriv(w, ns, nt).value, fs, ns))
      && (PastLogin(x) ==> RequestMessage(w.conf, LeftIn(w, t).ap, b).Some?)
      && (PastLogin(WakeUps(w.conf, x, k)) <==> Clears(w.conf, LeftIn(w, t).ap, b))
  {
    var u, t := AcceptPriv(w, ns, nt).value, Target(w, w.app, TunnFree, nt);
    ShapeIsWired(w);
    AcceptPrivateIsLocal(w, ns, nt);
    AcceptPrivateKeeps(w, ns, nt);
    RunTracks(u, fs, t, ns, Opened(LeftIn(w, t)), []);
    assert [] + AllOut(u, fs, ns) == AllOut(u, fs, ns);
    OnlyAdmittedConnect(w.conf, LeftIn(w, t), ReadsOf(fs, ns), k);
  }

  lemma {:induction false} SafeRunSplits(w: World, es: seq<Event>, fs: seq<Event>)
    requires SafeRun(w, es + fs)
    ensures SafeRun(w, es)
    ensures Run(w, es).Some? ==> SafeRun(Run(w, es).value, fs)
    decreases |es|
  {
    if es == [] {
      assert es + fs == fs;
    } else {
      assert (es + fs)[0] == es[0] && (es + fs)[1..] == es[1..] + fs;
      if Step(w, es[0]).Some? {
        SafeRunSplits(Step(w, es[0]).value, es[1..], fs);
      }
    }
  }

  /** Every private accept of a safe run from the start of the server is such a point. */
  lemma EveryAcceptIsInOrder(conf: Config, es: seq<Event>, ns: Sock, nt: Tunnel, fs: seq<Event>)
    requires SafeRun(Start(conf), es + [AcceptPrivate(ns, nt)] + fs)
    ensures Run(Start(conf), es).Some? && PoolInv(Run(Start(conf), es).value)
    ensures var w := Run(Start(conf), es).value;
      && Enabled(w, AcceptPrivate(ns, nt)) && AcceptPriv(w, ns, nt).Some? && SafeRun(AcceptPriv(w, ns, nt).value, fs)
      && Run(Start(conf), es + [AcceptPrivate(ns, nt)] + fs) == Run(AcceptPriv(w, ns, nt).value, fs)
  {
    var e := AcceptPrivate(ns, nt);
    assert es + [e] + fs == es + ([e] + fs);
    SafeRunSplits(Start(conf), es, [e] + fs);
    ServerKeepsPool(conf, es);
    var w := Run(Start(conf), es).value;
    StepKeepsPool(w, e);
    assert ([e] + fs)[0] == e && ([e] + fs)[1..] == fs;
    RunTwice(Start(conf), es, [e] + fs);
  }
}
