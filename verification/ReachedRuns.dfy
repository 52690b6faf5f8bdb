/** Runs from the start of the server, event by event: the four kinds of event that a pool in order does
    not survive do come up, and a login does depend on what an earlier client left behind. */
module ReachedRuns {
  import opened Common
  import opened Protocol
  import opened Handshake
  import opened Session
  import opened Objects
  import opened Pool
  import opened PoolInvariant
  import opened PoolRuns

  /** The safe run `es` leads from the start to `w`. */
  predicate Leads(conf: Config, es: seq<Event>, w: World) {
    SafeRun(Start(conf), es) && Run(Start(conf), es) == Some(w)
  }

  lemma Begins(conf: Config)
    ensures Leads(conf, [], Start(conf))
  {
  }

  lemma {:induction false} ExtendRun(w0: World, es: seq<Event>, w: World, e: Event, v: World)
    requires SafeRun(w0, es) && Run(w0, es) == Some(w) && Enabled(w, e) && Safe(w, e) && Step(w, e) == Some(v)
    ensures SafeRun(w0, es + [e]) && Run(w0, es + [e]) == Some(v)
    decreases |es|
  {
    if es == [] {
      assert [] + [e] == [e] && [e][1..] == [];
      assert SafeRun(v, []) && Run(v, []) == Some(v);
    } else {
      assert (es + [e])[0] == es[0] && (es + [e])[1..] == es[1..] + [e];
      ExtendRun(Step(w0, es[0]).value, es[1..], w, e, v);
    }
  }

  /** One more safe event. */
  lemma Then(conf: Config, es: seq<Event>, w: World, e: Event, v: World)
    requires Leads(conf, es, w) && Enabled(w, e) && Safe(w, e) && Step(w, e) == Some(v)
    ensures Leads(conf, es + [e], v)
  {
    ExtendRun(Start(conf), es, w, e, v);
  }

  // ----- a server with one tunnel

  /** AppList holds `t` alone, and the waitList is empty. */
  function Solo(conf: Config, socks: map<Sock, SockData>, t: Tunnel, td: TunnelData): World {
    World(conf, socks, map[t := td], [t], [])
  }

  /** The tunnel of the first private connection. */
  function First(s: Sock): TunnelData {
    TunnelData(s, null, ZERO_HS, TunnIdle)
  }

  lemma OneAccepted(conf: Config, s: Sock, t: Tunnel)
    ensures Leads(conf, [AcceptPrivate(s, t)], Solo(conf, map[s := FreshSock(true, t)], t, First(s)))
  {
    var v := Solo(conf, map[s := FreshSock(true, t)], t, First(s));
    PutTwice(map[], t, First(s).(priv := null), First(s));
    assert [t] + [] == [t];
    assert AcceptPriv(Start(conf), s, t) == Some(v);
    Begins(conf);
    Then(conf, [], Start(conf), AcceptPrivate(s, t), v);
    assert [] + [AcceptPrivate(s, t)] == [AcceptPrivate(s, t)];
  }

  /** What a private socket holds after a handler: its unread bytes and what it has to write. */
  function Holding(t: Tunnel, rbuf: seq<byte>, wbuf: seq<byte>): SockData {
    SockData(true, SockConnected, rbuf, wbuf, t, true, wbuf != [])
  }

  /** Bytes arrive on the private socket during the handshake. */
  lemma HandlerRuns(conf: Config, s: Sock, t: Tunnel, td: TunnelData, wbuf: seq<byte>, bytes: seq<byte>)
    requires InHandshake(td.hs.state)
    ensures Step(Solo(conf, map[s := Holding(t, [], wbuf)], t, td), Read(s, Data(bytes)))
         == HandshakeHandle(Solo(conf, map[s := Holding(t, bytes, wbuf)], t, td), t, s)
  {
    assert [] + bytes == bytes;
    assert map[s := Holding(t, [], wbuf)][s := Holding(t, bytes, wbuf)] == map[s := Holding(t, bytes, wbuf)];
  }

  lemma HandlerLeaves(conf: Config, s: Sock, t: Tunnel, td: TunnelData, wbuf: seq<byte>, bytes: seq<byte>, o: Out)
    requires td.priv == s && InHandshake(td.hs.state)
    requires o.h.state == td.hs.state || td.hs.state != RequestState
    ensures AfterHandler(Solo(conf, map[s := Holding(t, bytes, wbuf)], t, td), t, o)
         == Solo(conf, map[s := Holding(t, o.buf, wbuf + o.reply)], t, td.(hs := o.h))
  {
    var d, d1 := Holding(t, bytes, wbuf), Holding(t, o.buf, wbuf + o.reply);
    assert map[s := d][s := d1] == map[s := d1];
    assert map[t := td][t := td.(hs := o.h)] == map[t := td.(hs := o.h)];
    assert wbuf + [] == wbuf;
  }

  /** Bytes arrive on the private socket, and the handler goes on. */
  lemma HandlerProceeds(conf: Config, s: Sock, t: Tunnel, td: TunnelData, wbuf: seq<byte>, bytes: seq<byte>, o: Out)
    requires td.priv == s && InHandshake(td.hs.state)
    requires o == Handle(conf, td.hs, bytes) && o.verdict == Proceed && o.h.state != ConnectedState
    ensures Step(Solo(conf, map[s := Holding(t, [], wbuf)], t, td), Read(s, Data(bytes)))
         == Some(Solo(conf, map[s := Holding(t, o.buf, wbuf + o.reply)], t, td.(hs := o.h)))
  {
    HandlerRuns(conf, s, t, td, wbuf, bytes);
    HandleAdvances(conf, td.hs, bytes);
    HandlerLeaves(conf, s, t, td, wbuf, bytes, o);
  }

  lemma SoloCloses(conf: Config, s: Sock, t: Tunnel, td: TunnelData, d: SockData)
    requires td.priv == s && td.remote == null && td.status != TmptunClose && d.tunnel == t && d.ispriv
    ensures SockForceShutdown(Solo(conf, map[s := d], t, td), s) == Some(Solo(conf, map[], t, td.(priv := null)))
  {
    ForceShutdownIs(Solo(conf, map[s := d], t, td), s);
    assert map[s := d] - {s} == map[];
    assert map[t := td][t := td.(priv := null)] == map[t := td.(priv := null)];
  }

  /** Bytes arrive on the private socket, and the handler refuses them. */
  lemma HandlerRefuses(conf: Config, s: Sock, t: Tunnel, td: TunnelData, wbuf: seq<byte>, bytes: seq<byte>, o: Out)
    requires td.priv == s && td.remote == null && td.status != TmptunClose && InHandshake(td.hs.state)
    requires o == Handle(conf, td.hs, bytes) && o.verdict == Reject
    ensures Step(Solo(conf, map[s := Holding(t, [], wbuf)], t, td), Read(s, Data(bytes)))
         == Some(Solo(conf, map[], t, td.(hs := o.h, priv := null)))
  {
    HandlerRuns(conf, s, t, td, wbuf, bytes);
    HandleAdvances(conf, td.hs, bytes);
    HandlerLeaves(conf, s, t, td, wbuf, bytes, o);
    SoloCloses(conf, s, t, td.(hs := o.h), Holding(t, o.buf, wbuf + o.reply));
  }

  /** The write buffer leaves in one write. */
  lemma AllIsSent(conf: Config, s: Sock, t: Tunnel, td: TunnelData, rbuf: seq<byte>, wbuf: seq<byte>, nt: Tunnel)
    requires td.priv == s && td.status == TunnIdle && wbuf != [] && nt != t
    ensures var w, e := Solo(conf, map[s := Holding(t, rbuf, wbuf)], t, td), Write(s, Wrote(|wbuf|), nt);
      Enabled(w, e) && Step(w, e) == Some(Solo(conf, map[s := Holding(t, rbuf, [])], t, td))
  {
    var d := Holding(t, rbuf, wbuf);
    assert wbuf[|wbuf|..] == [];
    PutTwice(map[s := d], s, d.(wbuf := []), Holding(t, rbuf, []));
    assert map[s := d][s := Holding(t, rbuf, [])] == map[s := Holding(t, rbuf, [])];
  }

  /** The private connection ends with nothing left to write, during the handshake. */
  lemma ClientLeaves(conf: Config, s: Sock, t: Tunnel, td: TunnelData, rbuf: seq<byte>)
    requires td.priv == s && td.remote == null && td.status != TmptunClose && InHandshake(td.hs.state)
    ensures var w := Solo(conf, map[s := Holding(t, rbuf, [])], t, td);
      Step(w, Read(s, Fin)) == Some(Solo(conf, map[], t, td.(priv := null, status := TunnFree)))
  {
    var w := Solo(conf, map[s := Holding(t, rbuf, [])], t, td);
    var w1 := PutSock(w, s, w.socks[s].(state := SockHalfclosed));
    UnpairedPrivateEnd(w1, s, t);
    assert w1.socks - {s} == map[];
    assert map[t := td][t := td.(priv := null, status := TunnFree)] == map[t := td.(priv := null, status := TunnFree)];
  }

  /** The next private connection takes the free tunnel, with everything its last user left in it. */
  lemma TunnelIsReused(conf: Config, s: Sock, t: Tunnel, td: TunnelData, nt: Tunnel)
    requires td.priv == null && td.status == TunnFree && nt != t
    ensures var w, e := Solo(conf, map[], t, td), AcceptPrivate(s, nt);
      && Enabled(w, e)
      && Step(w, e) == Some(Solo(conf, map[s := Holding(t, [], [])], t,
                                 td.(priv := s, status := TunnRun, hs := Opened(td.hs).h)))
  {
    var w := Solo(conf, map[], t, td);
    assert FindStatus(w.tuns, w.app, TunnFree) == 0;
    var end := td.(priv := s, status := TunnRun, hs := Opened(td.hs).h);
    PutTwice(w.tuns, t, td.(status := TunnRun, hs := td.hs.(state := OpenState)), end);
    assert map[t := td][t := end] == map[t := end];
  }

  // ----- what the guards shut out

  /** After the safe run `es` the pool is in order, and the event `e` can happen and is not survived. */
  predicate Breaks(conf: Config, es: seq<Event>, w: World, e: Event) {
    Leads(conf, es, w) && PoolInv(w) && Enabled(w, e) && !Safe(w, e) && !Survives(Step(w, e))
  }

  lemma UnsafeBreaks(conf: Config, es: seq<Event>, w: World, e: Event)
    requires Leads(conf, es, w) && Enabled(w, e) && !Safe(w, e)
    ensures Breaks(conf, es, w, e)
  {
    ServerKeepsPool(conf, es);
    StepKeepsPool(w, e);
  }

  /** The first idle tunnel has lost its private socket: its greeting was refused.  The next remote makes
      the program follow a NULL pointer. */
  lemma RefusedThenRemote(conf: Config, s1: Sock, t: Tunnel, s2: Sock, nt: Tunnel) returns (w: World)
    requires nt != t
    ensures Breaks(conf, [AcceptPrivate(s1, t), Read(s1, Data([0x04, 0x00]))], w, AcceptRemote(s2, nt))
    ensures Step(w, AcceptRemote(s2, nt)).None?
  {
    OneAccepted(conf, s1, t);
    var bytes: seq<byte> := [0x04, 0x00];
    var o := Handle(conf, ZERO_HS, bytes);
    HandlerRefuses(conf, s1, t, First(s1), [], bytes, o);
    w := Solo(conf, map[], t, First(s1).(hs := o.h, priv := null));
    Then(conf, [AcceptPrivate(s1, t)], Solo(conf, map[s1 := FreshSock(true, t)], t, First(s1)),
         Read(s1, Data(bytes)), w);
    assert [AcceptPrivate(s1, t)] + [Read(s1, Data(bytes))] == [AcceptPrivate(s1, t), Read(s1, Data([0x04, 0x00]))];
    assert FindStatus(w.tuns, w.app, TunnIdle) == 0;
    UnsafeBreaks(conf, [AcceptPrivate(s1, t), Read(s1, Data([0x04, 0x00]))], w, AcceptRemote(s2, nt));
  }

  /** A tunnel that was joined by a remote before its handshake. */
  function JoinedEarly(s1: Sock, s2: Sock): TunnelData {
    TunnelData(s1, s2, ZERO_HS.(state := ConnectedState), TunnRun)
  }

  lemma RemoteJoins(conf: Config, s1: Sock, t: Tunnel, s2: Sock, nt: Tunnel)
    requires s1 != s2 && nt != t
    ensures Leads(conf, [AcceptPrivate(s1, t), AcceptRemote(s2, nt)],
                  Solo(conf, map[s1 := FreshSock(true, t), s2 := FreshSock(false, t)], t, JoinedEarly(s1, s2)))
  {
    OneAccepted(conf, s1, t);
    var w := Solo(conf, map[s1 := FreshSock(true, t)], t, First(s1));
    var v := Solo(conf, map[s1 := FreshSock(true, t), s2 := FreshSock(false, t)], t, JoinedEarly(s1, s2));
    assert FindStatus(w.tuns, w.app, TunnIdle) == 0;
    PutTwice(w.tuns, t, First(s1).(status := TunnRun), JoinedEarly(s1, s2));
    assert w.tuns[t := JoinedEarly(s1, s2)] == v.tuns;
    assert w.socks[s2 := FreshSock(false, t)] == v.socks;
    Then(conf, [AcceptPrivate(s1, t)], w, AcceptRemote(s2, nt), v);
    assert [AcceptPrivate(s1, t)] + [AcceptRemote(s2, nt)] == [AcceptPrivate(s1, t), AcceptRemote(s2, nt)];
  }

  /** A private connection ends while it is paired and has nothing left to write. */
  lemma PairedThenLeaves(conf: Config, s1: Sock, t: Tunnel, s2: Sock, nt: Tunnel) returns (w: World)
    requires s1 != s2 && nt != t
    ensures Breaks(conf, [AcceptPrivate(s1, t), AcceptRemote(s2, nt)], w, Read(s1, Fin))
  {
    RemoteJoins(conf, s1, t, s2, nt);
    w := Solo(conf, map[s1 := FreshSock(true, t), s2 := FreshSock(false, t)], t, JoinedEarly(s1, s2));
    UnsafeBreaks(conf, [AcceptPrivate(s1, t), AcceptRemote(s2, nt)], w, Read(s1, Fin));
  }

  lemma RemoteSends(conf: Config, s1: Sock, t: Tunnel, s2: Sock, bytes: seq<byte>)
    requires s1 != s2 && bytes != []
    ensures Step(Solo(conf, map[s1 := FreshSock(true, t), s2 := FreshSock(false, t)], t, JoinedEarly(s1, s2)),
                 Read(s2, Data(bytes)))
         == Some(Solo(conf, map[s1 := Holding(t, [], bytes), s2 := FreshSock(false, t)], t, JoinedEarly(s1, s2)))
  {
    var w := Solo(conf, map[s1 := FreshSock(true, t), s2 := FreshSock(false, t)], t, JoinedEarly(s1, s2));
    assert [] + bytes == bytes;
    var w1 := PutSock(w, s2, FreshSock(false, t).(rbuf := bytes));
    DispatchPairedRemote(w1, s2, t, s1);
    assert Forwarded(w1, s2, s1).socks == map[s1 := Holding(t, [], bytes), s2 := FreshSock(false, t)];
  }

  /** Writing what the remote has sent to the private connection fails. */
  lemma RelayedThenFails(conf: Config, s1: Sock, t: Tunnel, s2: Sock, nt: Tunnel, x: byte) returns (w: World)
    requires s1 != s2 && nt != t
    ensures Breaks(conf, [AcceptPrivate(s1, t), AcceptRemote(s2, nt), Read(s2, Data([x]))], w,
                   Write(s1, WriteError, nt))
  {
    RemoteJoins(conf, s1, t, s2, nt);
    var td := JoinedEarly(s1, s2);
    var w0 := Solo(conf, map[s1 := FreshSock(true, t), s2 := FreshSock(false, t)], t, td);
    w := Solo(conf, map[s1 := Holding(t, [], [x]), s2 := FreshSock(false, t)], t, td);
    RemoteSends(conf, s1, t, s2, [x]);
    Then(conf, [AcceptPrivate(s1, t), AcceptRemote(s2, nt)], w0, Read(s2, Data([x])), w);
    assert [AcceptPrivate(s1, t), AcceptRemote(s2, nt)] + [Read(s2, Data([x]))]
        == [AcceptPrivate(s1, t), AcceptRemote(s2, nt), Read(s2, Data([x]))];
    UnsafeBreaks(conf, [AcceptPrivate(s1, t), AcceptRemote(s2, nt), Read(s2, Data([x]))], w, Write(s1, WriteError, nt));
  }

  lemma NotFinished(w: World, t1: Tunnel, t2: Tunnel)
    requires w.app == [t2] && w.wait == [t1] && t2 in w.tuns && Pairable(w, t1)
    requires w.tuns[t2].status == TunnIdle && w.tuns[t2].hs.state != ConnectedState
    ensures !PairSafe(w, 0)
  {
    assert w.app[0..] == [t2] && Idles(w, [t2]) == [t2] + Idles(w, []);
    assert Pairables(w, w.wait) == [t1] + Pairables(w, []);
    assert w.tuns[Idles(w, w.app[0..])[0]].hs.state != ConnectedState;
  }

  /** A fresh private tunnel counts as idle before its handshake: a remote that was accepted first is then
      paired with it at once. */
  lemma RemoteThenPrivate(conf: Config, s1: Sock, t1: Tunnel, s2: Sock, t2: Tunnel) returns (w: World)
    requires s1 != s2 && t1 != t2
    ensures Breaks(conf, [AcceptRemote(s1, t1), AcceptPrivate(s2, t2)], w, Pair)
  {
    var e1, e2 := AcceptRemote(s1, t1), AcceptPrivate(s2, t2);
    var parked := TunnelData(null, s1, ZERO_HS.(state := WaittingState), TmptunWait);
    var w1 := World(conf, map[s1 := FreshSock(false, t1)], map[t1 := parked], [], [t1]);
    w := World(conf, map[s1 := FreshSock(false, t1), s2 := FreshSock(true, t2)],
               map[t1 := parked, t2 := First(s2)], [t2], [t1]);
    PutTwice(map[], t1, parked.(remote := null), parked);
    assert [t1] + [] == [t1];
    assert Step(Start(conf), e1) == Some(w1);
    Begins(conf);
    Then(conf, [], Start(conf), e1, w1);
    PutTwice(w1.tuns, t2, First(s2).(priv := null), First(s2));
    assert w1.tuns[t2 := First(s2)] == w.tuns && w1.socks[s2 := FreshSock(true, t2)] == w.socks;
    assert [t2] + [] == [t2];
    assert Step(w1, e2) == Some(w);
    Then(conf, [] + [e1], w1, e2, w);
    assert [] + [e1] + [e2] == [e1, e2];
    NotFinished(w, t1, t2);
    UnsafeBreaks(conf, [e1, e2], w, Pair);
  }

  // ----- logins

  /** A client greets and sends its login. */
  function Visit(s: Sock, l: Login): seq<Event>
    requires |l.uname| < 256 && |l.passwd| < 256
  {
    [Read(s, Data([VERSION, 0x00])), Read(s, Data(EncodeLogin(l)))]
  }

  lemma GreetingIsTaken(conf: Config, h: Hs)
    requires conf.Auth() && h.state == OpenState && h.readCount == 0
    ensures var o := Handle(conf, h, [VERSION, 0x00]);
      && o.verdict == Proceed && o.buf == [] && o.reply == MethodReply(conf)
      && o.h.state == AuthState && o.h.readCount == 0 && o.h.ap == h.ap
  {
    var b: seq<byte> := [VERSION, 0x00];
    GreetingFollowsGrammar(conf, h, b);
    assert ParseGreeting(b).Got? && ParseGreeting(b).rest == [];
  }

  lemma LoginIsTaken(conf: Config, h: Hs, l: Login)
    requires h.state == AuthState && h.readCount == 0
    requires |l.uname| <= MAX_UNAME_LEN && |l.passwd| <= MAX_PASSWD_LEN
    ensures var o := Handle(conf, h, EncodeLogin(l));
      if Admits(conf, h.ap, l) then
        && o.verdict == Proceed && o.buf == [] && o.reply == [l.ver, 0x00]
        && o.h.state == RequestState && o.h.readCount == 0 && HoldsCredentials(conf, o.h.ap)
      else o.verdict == Reject
  {
    var b := EncodeLogin(l);
    assert b + [] == b;
    LoginRoundTrip(b, l, []);
    LoginFollowsGrammar(conf, h, b);
  }

  lemma GreetingLeads(conf: Config, es: seq<Event>, s: Sock, t: Tunnel, td: TunnelData) returns (td': TunnelData)
    requires conf.Auth() && td.priv == s && td.hs.state == OpenState && td.hs.readCount == 0
    requires Leads(conf, es, Solo(conf, map[s := Holding(t, [], [])], t, td))
    ensures td' == td.(hs := td'.hs) && td'.hs.state == AuthState && td'.hs.readCount == 0 && td'.hs.ap == td.hs.ap
    ensures Leads(conf, es + [Read(s, Data([VERSION, 0x00]))],
                  Solo(conf, map[s := Holding(t, [], MethodReply(conf))], t, td'))
  {
    var hello: seq<byte> := [VERSION, 0x00];
    GreetingIsTaken(conf, td.hs);
    var o := Handle(conf, td.hs, hello);
    HandlerProceeds(conf, s, t, td, [], hello, o);
    assert [] + MethodReply(conf) == MethodReply(conf);
    td' := td.(hs := o.h);
    Then(conf, es, Solo(conf, map[s := Holding(t, [], [])], t, td), Read(s, Data(hello)),
         Solo(conf, map[s := Holding(t, [], MethodReply(conf))], t, td'));
  }

  /** A login that the tunnel admits takes it to `request_state`, where it holds the credentials. */
  lemma VisitSucceeds(conf: Config, es: seq<Event>, s: Sock, t: Tunnel, td: TunnelData, l: Login)
    returns (td': TunnelData)
    requires conf.Auth() && |l.uname| <= MAX_UNAME_LEN && |l.passwd| <= MAX_PASSWD_LEN && Admits(conf, td.hs.ap, l)
    requires td.priv == s && td.hs.state == OpenState && td.hs.readCount == 0
    requires Leads(conf, es, Solo(conf, map[s := Holding(t, [], [])], t, td))
    ensures td' == td.(hs := td'.hs) && td'.hs.state == RequestState && HoldsCredentials(conf, td'.hs.ap)
    ensures Leads(conf, es + Visit(s, l),
                  Solo(conf, map[s := Holding(t, [], MethodReply(conf) + [l.ver, 0x00])], t, td'))
  {
    var td1 := GreetingLeads(conf, es, s, t, td);
    LoginIsTaken(conf, td1.hs, l);
    var o := Handle(conf, td1.hs, EncodeLogin(l));
    HandlerProceeds(conf, s, t, td1, MethodReply(conf), EncodeLogin(l), o);
    td' := td.(hs := o.h);
    Then(conf, es + [Read(s, Data([VERSION, 0x00]))], Solo(conf, map[s := Holding(t, [], MethodReply(conf))], t, td1),
         Read(s, Data(EncodeLogin(l))),
         Solo(conf, map[s := Holding(t, [], MethodReply(conf) + [l.ver, 0x00])], t, td'));
    assert es + [Read(s, Data([VERSION, 0x00]))] + [Read(s, Data(EncodeLogin(l)))] == es + Visit(s, l);
  }

  /** The credentials can be sent in a login, and read back. */
  predicate Sendable(conf: Config) {
    && conf.Auth() && |conf.username| <= MAX_UNAME_LEN && |conf.passwd| <= MAX_PASSWD_LEN
    && CString(conf.username) == conf.username && CString(conf.passwd) == conf.passwd
  }

  /** A client takes its answers and leaves; the next one gets its tunnel. */
  function Leaves(s1: Sock, n: nat, s2: Sock, nt: Tunnel): seq<Event> {
    [Write(s1, Wrote(n), nt), Read(s1, Fin), AcceptPrivate(s2, nt)]
  }

  lemma TunnelIsFreed(conf: Config, es: seq<Event>, s: Sock, t: Tunnel, td: TunnelData, rbuf: seq<byte>,
                      out: seq<byte>, nt: Tunnel)
    requires td.priv == s && td.remote == null && td.status == TunnIdle && InHandshake(td.hs.state)
    requires out != [] && nt != t && Leads(conf, es, Solo(conf, map[s := Holding(t, rbuf, out)], t, td))
    ensures Leads(conf, es + [Write(s, Wrote(|out|), nt)] + [Read(s, Fin)],
                  Solo(conf, map[], t, td.(priv := null, status := TunnFree)))
  {
    var w1 := Solo(conf, map[s := Holding(t, rbuf, [])], t, td);
    AllIsSent(conf, s, t, td, rbuf, out, nt);
    Then(conf, es, Solo(conf, map[s := Holding(t, rbuf, out)], t, td), Write(s, Wrote(|out|), nt), w1);
    ClientLeaves(conf, s, t, td, rbuf);
    Then(conf, es + [Write(s, Wrote(|out|), nt)], w1, Read(s, Fin),
         Solo(conf, map[], t, td.(priv := null, status := TunnFree)));
  }

  lemma FieldsAreLeft(conf: Config, es: seq<Event>, s1: Sock, t: Tunnel, td: TunnelData, rbuf: seq<byte>,
                      out: seq<byte>, s2: Sock, nt: Tunnel) returns (td': TunnelData)
    requires td.priv == s1 && td.remote == null && td.status == TunnIdle && InHandshake(td.hs.state)
    requires out != [] && nt != t && Leads(conf, es, Solo(conf, map[s1 := Holding(t, rbuf, out)], t, td))
    ensures td'.priv == s2 && td'.remote == null && td'.status == TunnRun && td'.hs == Opened(td.hs).h
    ensures Leads(conf, es + Leaves(s1, |out|, s2, nt), Solo(conf, map[s2 := Holding(t, [], [])], t, td'))
  {
    var e1, e2, e3 := Write(s1, Wrote(|out|), nt), Read(s1, Fin), AcceptPrivate(s2, nt);
    var free := td.(priv := null, status := TunnFree);
    TunnelIsFreed(conf, es, s1, t, td, rbuf, out, nt);
    td' := free.(priv := s2, status := TunnRun, hs := Opened(td.hs).h);
    TunnelIsReused(conf, s2, t, free, nt);
    Then(conf, es + [e1] + [e2], Solo(conf, map[], t, free), e3, Solo(conf, map[s2 := Holding(t, [], [])], t, td'));
    assert es + [e1] + [e2] + [e3] == es + Leaves(s1, |out|, s2, nt);
  }

  /** A client logs in and leaves, and the next one sends an empty user name and an empty password. */
  function EmptyLoginRun(conf: Config, s1: Sock, t: Tunnel, s2: Sock, nt: Tunnel): seq<Event>
    requires Sendable(conf)
  {
    [AcceptPrivate(s1, t)] + Visit(s1, Login(1, conf.username, conf.passwd)) + Leaves(s1, 4, s2, nt)
    + Visit(s2, Login(1, [], []))
  }

  /** The leftover login lets in: in this safe run from the start, the second client gets past the login
      although its user name and password are not the configured ones. */
  lemma EmptyLoginPasses(conf: Config, s1: Sock, t: Tunnel, s2: Sock, nt: Tunnel) returns (w: World)
    requires Sendable(conf) && nt != t
    ensures Leads(conf, EmptyLoginRun(conf, s1, t, s2, nt), w)
    ensures t in w.tuns && w.tuns[t].priv == s2 && w.tuns[t].hs.state == RequestState
    ensures !Matches(conf, Login(1, [], []))
  {
    var l := Login(1, conf.username, conf.passwd);
    ZeroedAdmits(conf, ZERO_HS.ap, l);
    OneAccepted(conf, s1, t);
    var es := [AcceptPrivate(s1, t)] + Visit(s1, l);
    var td1 := VisitSucceeds(conf, [AcceptPrivate(s1, t)], s1, t, First(s1), l);
    var td2 := FieldsAreLeft(conf, es, s1, t, td1, [], MethodReply(conf) + [l.ver, 0x00], s2, nt);
    ReusedAdmits(conf, td2.hs.ap, Login(1, [], []));
    var td3 := VisitSucceeds(conf, es + Leaves(s1, 4, s2, nt), s2, t, td2, Login(1, [], []));
    w := Solo(conf, map[s2 := Holding(t, [], MethodReply(conf) + [1, 0x00])], t, td3);
  }

  /** The first part of a login: version, length and user name. */
  function LongName(conf: Config, x: byte): seq<byte>
    requires Sendable(conf)
  {
    [1, |conf.username| + 1] + (conf.username + [x])
  }

  /** A client sends a user name that is one byte longer than the configured one and leaves; the next one
      sends the configured login. */
  function LongNameRun(conf: Config, x: byte, s1: Sock, t: Tunnel, s2: Sock, nt: Tunnel): seq<Event>
    requires Sendable(conf)
  {
    [AcceptPrivate(s1, t)] + [Read(s1, Data([VERSION, 0x00]))] + [Read(s1, Data(LongName(conf, x)))]
    + Leaves(s1, 2, s2, nt) + Visit(s2, Login(1, conf.username, conf.passwd))
  }

  lemma LongNameIsStored(conf: Config, h: Hs, x: byte)
    requires Sendable(conf) && |conf.username| < MAX_UNAME_LEN && h.state == AuthState && h.readCount == 0
    ensures var o := Handle(conf, h, LongName(conf, x));
      && o.verdict == Proceed && o.buf == [] && o.reply == [] && o.h.state == AuthState
      && o.h.ap.uname[|conf.username|] == x
  {
    var b := LongName(conf, x);
    assert b[NHEADER..] == conf.username + [x];
    assert (conf.username + [x])[..|conf.username| + 1] == conf.username + [x];
  }

  lemma ConfiguredIsRefused(conf: Config, h: Hs) returns (o: Out)
    requires Sendable(conf) && h.ap.uname[|conf.username|] != 0 && h.state == AuthState && h.readCount == 0
    ensures o == Handle(conf, h, EncodeLogin(Login(1, conf.username, conf.passwd))) && o.verdict == Reject
  {
    var l := Login(1, conf.username, conf.passwd);
    ConfiguredAdmits(conf, h.ap, 1);
    LoginIsTaken(conf, h, l);
    o := Handle(conf, h, EncodeLogin(l));
  }

  /** The configured login on a tunnel that has something behind the user name. */
  lemma VisitFails(conf: Config, es: seq<Event>, s: Sock, t: Tunnel, td: TunnelData) returns (w: World)
    requires Sendable(conf) && td.hs.ap.uname[|conf.username|] != 0
    requires td.priv == s && td.remote == null && td.status == TunnRun
    requires td.hs.state == OpenState && td.hs.readCount == 0
    requires Leads(conf, es, Solo(conf, map[s := Holding(t, [], [])], t, td))
    ensures Leads(conf, es + Visit(s, Login(1, conf.username, conf.passwd)), w)
    ensures t in w.tuns && w.tuns[t].priv == null && s !in w.socks
  {
    var l := Login(1, conf.username, conf.passwd);
    var td1 := GreetingLeads(conf, es, s, t, td);
    var o := ConfiguredIsRefused(conf, td1.hs);
    HandlerRefuses(conf, s, t, td1, MethodReply(conf), EncodeLogin(l), o);
    w := Solo(conf, map[], t, td1.(hs := o.h, priv := null));
    Then(conf, es + [Read(s, Data([VERSION, 0x00]))], Solo(conf, map[s := Holding(t, [], MethodReply(conf))], t, td1),
         Read(s, Data(EncodeLogin(l))), w);
    assert es + [Read(s, Data([VERSION, 0x00]))] + [Read(s, Data(EncodeLogin(l)))] == es + Visit(s, l);
  }

  /** The leftover login shuts out: in this safe run from the start the second client is refused although
      it sends the configured user name and password. */
  lemma ConfiguredLoginRefused(conf: Config, x: byte, s1: Sock, t: Tunnel, s2: Sock, nt: Tunnel) returns (w: World)
    requires Sendable(conf) && |conf.username| < MAX_UNAME_LEN && x != 0 && nt != t
    ensures Leads(conf, LongNameRun(conf, x, s1, t, s2, nt), w)
    ensures t in w.tuns && w.tuns[t].priv == null && s2 !in w.socks
    ensures Matches(conf, Login(1, conf.username, conf.passwd))
  {
    OneAccepted(conf, s1, t);
    var es, td0 := [AcceptPrivate(s1, t)], First(s1);
    var td1 := GreetingLeads(conf, es, s1, t, td0);
    var es1 := es + [Read(s1, Data([VERSION, 0x00]))];
    LongNameIsStored(conf, td1.hs, x);
    var o := Handle(conf, td1.hs, LongName(conf, x));
    HandlerProceeds(conf, s1, t, td1, MethodReply(conf), LongName(conf, x), o);
    assert MethodReply(conf) + [] == MethodReply(conf);
    var td2 := td1.(hs := o.h);
    Then(conf, es1, Solo(conf, map[s1 := Holding(t, [], MethodReply(conf))], t, td1), Read(s1, Data(LongName(conf, x))),
         Solo(conf, map[s1 := Holding(t, [], MethodReply(conf))], t, td2));
    var es2 := es1 + [Read(s1, Data(LongName(conf, x)))];
    var td3 := FieldsAreLeft(conf, es2, s1, t, td2, [], MethodReply(conf), s2, nt);
    w := VisitFails(conf, es2 + Leaves(s1, 2, s2, nt), s2, t, td3);
  }
}
