/** `clientdemo.c` and `socks5.c` shaking hands over two byte pipes: every interleaving of partial
    sends, partial deliveries and empty wake-ups. */
module TwoParty {
  import opened Common
  import opened Protocol
  import opened Handshake
  import opened Session

  /** What `medSvr_init` sends: one method, no authentication. */
  const GREETING: seq<byte> := [VERSION, 0x01, 0x00]

  /** `tunnel_write_request` for a name and port of the client's choice. */
  datatype Client = Client(name: seq<byte>, port: nat) {
    predicate Valid() {
      |name| <= 254 && port < 0x1_0000
    }

    function Request(): seq<byte>
      requires Valid()
    {
      DomainMessage(name, port)
    }
  }

  /** The dispatch of the client's `tunnel_read_handle`.  Its `tunnel_open_handle` takes the two bytes
      of the method reply without looking at the method; its `tunnel_request_handle` reads the
      server's answer as a request and sends nothing. */
  function ClientWake(s: Session, request: seq<byte>): Session {
    if !s.Live? then s
    else
      match s.h.state
      case OpenState =>
        if s.h.readCount != 0 then Aborted
        else if |s.buf| < NHEADER then s
        else if s.buf[0] != VERSION then Dead(s.out)
        else
          var op := s.h.op.(ver := s.buf[0], nmethods := s.buf[1]);
          Live(s.h.(op := op, state := RequestState), s.buf[NHEADER..], s.out + request)
      case RequestState =>
        var o := RequestHandle(s.h, s.buf, []);
        (match o.verdict
         case Proceed => Live(o.h, o.buf, s.out + o.reply)
         case Reject => Dead(s.out + o.reply)
         case Abort => Aborted)
      case ConnectedState => s
      case _ => Aborted
  }

  /** `up` carries bytes from the client to the server and `down` the other way.  `out` of a session
      is its write buffer: sending removes a prefix. */
  datatype Net = Net(client: Session, up: seq<byte>, down: seq<byte>, server: Session)

  /** Send or deliver `n` bytes; a delivery of nothing is an empty wake-up. */
  datatype Move = ClientSends(n: nat) | ServerReads(n: nat) | ServerSends(n: nat) | ClientReads(n: nat)

  /** A new client, and the server on a tunnel whose last user left `h`. */
  function Begin(h: Hs): (net: Net)
    ensures net.client.Live? && net.client.out == [5, 1, 0] && net.server.Live? && net.server.out == []
  {
    Net(Live(ZERO_HS, [], GREETING), [], [], Opened(h))
  }

  /** An empty wake-up of a connected side is not a move of the handshake: with no other connection to
      relay to, it closes the socket (`socks5.c:856-861`).  The end of the connection is no move either. */
  predicate Enabled(net: Net, m: Move) {
    match m
    case ClientSends(n) => net.client.Live? && n <= |net.client.out|
    case ServerReads(n) => net.server.Live? && n <= |net.up| && (n == 0 ==> net.server.h.state != ConnectedState)
    case ServerSends(n) => net.server.Live? && n <= |net.server.out|
    case ClientReads(n) => net.client.Live? && n <= |net.down| && (n == 0 ==> net.client.h.state != ConnectedState)
  }

  function Step(conf: Config, c: Client, net: Net, m: Move): Net
    requires c.Valid() && Enabled(net, m)
  {
    match m
    case ClientSends(n) => net.(client := net.client.(out := net.client.out[n..]), up := net.up + net.client.out[..n])
    case ServerReads(n) => net.(up := net.up[n..], server := Feed(conf, net.server, net.up[..n]))
    case ServerSends(n) =>
      net.(server := net.server.(out := net.server.out[n..]), down := net.down + net.server.out[..n])
    case ClientReads(n) =>
      net.(down := net.down[n..], client := ClientWake(Append(net.client, net.down[..n]), c.Request()))
  }

  /** A run: None as soon as a move is not possible. */
  function Run(conf: Config, c: Client, net: Net, moves: seq<Move>): Option<Net>
    requires c.Valid()
    decreases |moves|
  {
    if moves == [] then Some(net)
    else if !Enabled(net, moves[0]) then None
    else Run(conf, c, Step(conf, c, net, moves[0]), moves[1..])
  }

  /** No move that carries a byte is left. */
  predicate Stuck(net: Net) {
    && (net.client.Live? ==> net.client.out == [] && net.down == [])
    && (net.server.Live? ==> net.server.out == [] && net.up == [])
  }

  predicate Connected(s: Session) {
    s.Live? && s.h.state == ConnectedState && s.buf == [] && s.out == []
  }

  /** The request fields of `s` say: connect to this host name and port. */
  predicate Holds(s: Session, name: seq<byte>, port: nat) {
    s.Live? && Stores(s.h.rp, Request(0, Domain(name), port))
  }

  // ----- the phases of the protocol

  /** A side that owes nothing to its handler: it stands before `state`'s message with an empty buffer. */
  predicate Idle(s: Session, state: State) {
    s.Live? && s.h.state == state && s.h.readCount == 0 && s.buf == []
  }

  /** The server has been woken on `got`, a proper part of the message it waits for. */
  predicate ServerTakes(conf: Config, s: Session, origin: Hs, got: seq<byte>) {
    && origin.readCount == 0 && InHandshake(origin.state)
    && s == Wake(conf, Live(origin, got, [])) && s.Live? && s.h.state == origin.state && s.out == []
  }

  predicate ClientTakes(s: Session, origin: Hs, got: seq<byte>) {
    && origin.readCount == 0 && origin.state == RequestState
    && s == ClientWake(Live(origin, got, []), []) && s.Live? && s.h.state == RequestState && s.out == []
  }

  /** Where the conversation stands.  `origin` is the fields of the side that is receiving, as they
      were before the first byte of the message. */
  datatype Phase = Greet(origin: Hs) | Method | Ask(origin: Hs) | Answer(origin: Hs) | Done | Closed

  /** `pending` is what the receiver has not yet been given of `m`; `got` is the rest of it. */
  predicate Splits(m: seq<byte>, got: seq<byte>, pending: seq<byte>) {
    got + pending == m
  }

  function Got(m: seq<byte>, pending: seq<byte>): seq<byte> {
    if |pending| <= |m| then m[..|m| - |pending|] else []
  }

  predicate InPhase(conf: Config, c: Client, net: Net, ph: Phase)
    requires c.Valid()
  {
    var Net(client, up, down, server) := net;
    match ph
    case Greet(origin) =>
      && origin.state == OpenState && Idle(client, OpenState) && down == [] && up + client.out != []
      && var got := Got(GREETING, up + client.out);
      Splits(GREETING, got, up + client.out) && ServerTakes(conf, server, origin, got)
    case Method =>
      && Idle(server, if conf.Auth() then AuthState else RequestState) && up == []
      && client.Live? && client.h.state == OpenState && client.h.readCount == 0 && client.out == []
      && |client.buf| < NHEADER && client.buf + (down + server.out) == MethodReply(conf)
    case Ask(origin) =>
      && Idle(client, RequestState) && down == [] && up + client.out != []
      && origin.state == (if conf.Auth() then AuthState else RequestState)
      && var got := Got(c.Request(), up + client.out);
      Splits(c.Request(), got, up + client.out) && ServerTakes(conf, server, origin, got)
    case Answer(origin) =>
      && !conf.Auth() && Idle(server, ConnectedState) && up == [] && down + server.out != [] && client.Live?
      && Holds(server, c.name, c.port)
      && var got := Got(NotifyConnected(conf), down + server.out);
      Splits(NotifyConnected(conf), got, down + server.out) && ClientTakes(client, origin, got)
    case Done =>
      && !conf.Auth() && Connected(client) && Connected(server) && up == [] && down == []
      && Holds(server, c.name, c.port) && Holds(client, conf.host, conf.port)
    case Closed => conf.Auth() && server.Dead? && Idle(client, RequestState) && down == []
  }

  // ----- receiving

  /** A delivery to the server is the same as one delivery of everything it got of this message. */
  lemma ServerReceives(conf: Config, s: Session, origin: Hs, got: seq<byte>, c: seq<byte>)
    requires ServerTakes(conf, s, origin, got)
    ensures Feed(conf, s, c) == Wake(conf, Live(origin, got + c, []))
  {
    WakeEarly(conf, Live(origin, got, []), c);
  }

  lemma ClientReceives(s: Session, origin: Hs, got: seq<byte>, c: seq<byte>)
    requires ClientTakes(s, origin, got)
    ensures ClientWake(Append(s, c), []) == ClientWake(Live(origin, got + c, []), [])
  {
    RequestResumes(origin, got, [], c);
  }

  /** Moving bytes from a write buffer into a pipe changes nothing about what is still to arrive. */
  lemma SendingKeepsOrder(pipe: seq<byte>, out: seq<byte>, n: nat)
    requires n <= |out|
    ensures (pipe + out[..n]) + out[n..] == pipe + out
  {
    assert out == out[..n] + out[n..];
  }

  lemma DeliveryShifts(m: seq<byte>, pipe: seq<byte>, out: seq<byte>, n: nat)
    requires n <= |pipe| && Splits(m, Got(m, pipe + out), pipe + out)
    ensures Got(m, pipe + out) + pipe[..n] == Got(m, pipe[n..] + out)
    ensures Splits(m, Got(m, pipe[n..] + out), pipe[n..] + out)
    ensures Got(m, []) == m
  {
    assert pipe == pipe[..n] + pipe[n..];
    assert pipe[n..] + out == (pipe + out)[n..];
    assert (Got(m, pipe + out) + pipe[..n]) + (pipe[n..] + out) == Got(m, pipe + out) + (pipe + out);
  }

  /** The server on a proper part of the greeting, and on the whole of it. */
  lemma ServerOnGreeting(conf: Config, origin: Hs, got: seq<byte>, pending: seq<byte>)
    requires origin.state == OpenState && origin.readCount == 0 && Splits(GREETING, got, pending)
    ensures var s := Wake(conf, Live(origin, got, []));
      if pending != [] then ServerTakes(conf, s, origin, got)
      else
        Idle(s, if conf.Auth() then AuthState else RequestState) && s.out == MethodReply(conf)
  {
    GreetingFollowsGrammar(conf, origin, got);
    assert [] + MethodReply(conf) == MethodReply(conf);
    assert |got| + |pending| == 3;
    assert forall i :: 0 <= i < |got| ==> got[i] == GREETING[i];
    if pending == [] {
      assert got == GREETING;
    }
  }

  /** No proper part of a domain request is a verdict. */
  lemma ProperPartWaits(name: seq<byte>, port: nat, got: seq<byte>, pending: seq<byte>)
    requires |name| < 256 && port < 0x1_0000 && Splits(DomainMessage(name, port), got, pending)
    ensures if pending != [] then ParseRequest(got).More?
            else ParseRequest(got) == Parse.Got(Request(0, Domain(name), port), [])
  {
    DomainMessageRoundTrip(name, port, []);
    RequestIsStable(got, pending);
    assert DomainMessage(name, port) + [] == DomainMessage(name, port);
    if pending == [] {
      assert got == DomainMessage(name, port);
    }
  }

  /** The server on a proper part of the request, and on the whole of it, without authentication. */
  lemma ServerOnRequest(conf: Config, c: Client, origin: Hs, got: seq<byte>, pending: seq<byte>)
    requires c.Valid() && !conf.Auth() && origin.state == RequestState && origin.readCount == 0
    requires Splits(c.Request(), got, pending)
    ensures var s := Wake(conf, Live(origin, got, []));
      if pending != [] then ServerTakes(conf, s, origin, got)
      else Idle(s, ConnectedState) && s.out == NotifyConnected(conf) && Holds(s, c.name, c.port)
  {
    RequestFollowsGrammar(origin, got, NotifyConnected(conf));
    assert [] + NotifyConnected(conf) == NotifyConnected(conf);
    ProperPartWaits(c.name, c.port, got, pending);
  }

  lemma RequestAsLogin(c: Client, got: seq<byte>, pending: seq<byte>)
    requires c.Valid() && Splits(c.Request(), got, pending)
    ensures var p := ParseLogin(got); if |got| < 7 then p.More? else p.Got? && p.msg.uname == [0]
  {
    var r := c.Request();
    assert r[0] == 5 && r[1] == 1 && r[2] == 0 && r[3] == 3 && |r| == 7 + |c.name|;
    assert forall i :: 0 <= i < |got| ==> got[i] == r[i];
    if |got| >= 7 {
      assert got[2..3] == [0];
    }
  }

  lemma NulIsRefused(conf: Config, ap: AuthFields, l: Login)
    requires conf.Auth() && l.uname == [0]
    ensures !Admits(conf, ap, l)
  {
    assert Blit(ap.uname, l.uname)[0] == 0;
  }

  /** With authentication the same bytes are read as a login whose user name is a NUL: the server waits
      for the first seven of them and then refuses, whatever an earlier client has left. */
  lemma ServerOnMistakenLogin(conf: Config, c: Client, origin: Hs, got: seq<byte>, pending: seq<byte>)
    requires c.Valid() && conf.Auth() && origin.state == AuthState && origin.readCount == 0
    requires Splits(c.Request(), got, pending)
    ensures var s := Wake(conf, Live(origin, got, []));
      if |got| < 7 then ServerTakes(conf, s, origin, got) else s == Dead([])
  {
    LoginFollowsGrammar(conf, origin, got);
    RequestAsLogin(c, got, pending);
    if |got| >= 7 {
      NulIsRefused(conf, origin.ap, ParseLogin(got).msg);
    }
  }

  lemma ClientOnAnswer(conf: Config, origin: Hs, got: seq<byte>, pending: seq<byte>)
    requires origin.state == RequestState && origin.readCount == 0
    requires Splits(NotifyConnected(conf), got, pending)
    ensures var s := ClientWake(Live(origin, got, []), []);
      if pending != [] then ClientTakes(s, origin, got) else Connected(s) && Holds(s, conf.host, conf.port)
  {
    RequestFollowsGrammar(origin, got, []);
    ProperPartWaits(conf.host, conf.port, got, pending);
  }

  // ----- the client by itself

  /** The client before its method reply: it waits for two bytes, closes on another version than 5, and
      otherwise sends its request and takes what follows as the answer. */
  lemma ClientTakesMethod(s: Session, request: seq<byte>)
    requires s.Live? && s.h.state == OpenState && s.h.readCount == 0
    ensures var t := ClientWake(s, request);
      && (|s.buf| < 2 ==> t == s)
      && (|s.buf| >= 2 && s.buf[0] != 5 ==> t == Dead(s.out))
      && (|s.buf| >= 2 && s.buf[0] == 5 ==>
            && t.Live? && t.h.state == RequestState && t.h.readCount == 0
            && t.buf == s.buf[2..] && t.out == s.out + request
            && t.h.op.ver == 5 && t.h.op.nmethods == s.buf[1])
  {
  }

  /** The client before the server's answer: it waits until the answer is a whole request, closes if it can
      be none, and otherwise keeps its address and port and is connected.  It sends nothing. */
  lemma ClientTakesAnswer(s: Session, request: seq<byte>)
    requires s.Live? && s.h.state == RequestState && s.h.readCount == 0
    ensures var t, p := ClientWake(s, request), ParseRequest(s.buf);
      && (p.More? ==>
            && t.Live? && t.h.state == RequestState && t.out == s.out
            && t.h.readCount <= |s.buf| && t.buf == s.buf[t.h.readCount..])
      && (p.Bad? ==> t == Dead(s.out))
      && (p.Got? ==>
            && t.Live? && t.h.state == ConnectedState && t.out == s.out && t.buf == p.rest && Stores(t.h.rp, p.msg))
  {
    RequestFollowsGrammar(s.h, s.buf, []);
    assert s.out + [] == s.out;
  }

  /** Wherever the answer is split, the client makes of it what it makes of the whole. */
  lemma ClientIgnoresSplits(s: Session, request: seq<byte>, c: seq<byte>)
    requires s.Live? && s.h.state == RequestState && Resumable(s.h)
    ensures var t, whole := ClientWake(s, request), ClientWake(Append(s, c), request);
      && !t.Aborted?
      && (t.Live? ==> ClientWake(Append(t, c), request) == whole)
      && (t.Dead? ==> whole == t)
  {
    var now := RequestHandle(s.h, s.buf, []);
    RequestResumes(s.h, s.buf, [], c);
    RequestAnswers(s.h, s.buf);
    RequestAnswers(s.h, s.buf + c);
    assert s.out + [] == s.out;
    if now.verdict == Proceed {
      assert ClientWake(s, request) == Live(now.h, now.buf, s.out);
      if now.h.state == RequestState {
        RequestAnswers(now.h, now.buf + c);
      }
    }
  }

  /** The client's `tunnel_request_handle` says nothing. */
  lemma RequestAnswers(h: Hs, buf: seq<byte>)
    requires h.state == RequestState
    ensures RequestHandle(h, buf, []).reply == []
    ensures var o := RequestHandle(h, buf, []); o.h.state == RequestState || o.h.state == ConnectedState
  {
  }

  // ----- one move

  lemma GreetStep(conf: Config, c: Client, net: Net, origin: Hs, m: Move) returns (ph: Phase)
    requires c.Valid() && InPhase(conf, c, net, Greet(origin)) && Enabled(net, m)
    ensures InPhase(conf, c, Step(conf, c, net, m), ph)
  {
    ph := Greet(origin);
    var Net(client, up, down, server) := net;
    match m
    case ClientSends(n) => SendingKeepsOrder(up, client.out, n);
    case ServerReads(n) =>
      var got := Got(GREETING, up + client.out);
      DeliveryShifts(GREETING, up, client.out, n);
      ServerReceives(conf, server, origin, got, up[..n]);
      ServerOnGreeting(conf, origin, got + up[..n], up[n..] + client.out);
      if up[n..] + client.out == [] {
        assert client.buf + (down + MethodReply(conf)) == MethodReply(conf);
        ph := Method;
      }
    case ServerSends(n) =>
    case ClientReads(n) => assert client.buf + [] == client.buf;
  }

  lemma DeliveryKeepsOrder(buf: seq<byte>, pipe: seq<byte>, out: seq<byte>, n: nat)
    requires n <= |pipe|
    ensures (buf + pipe[..n]) + (pipe[n..] + out) == buf + (pipe + out)
  {
    assert pipe == pipe[..n] + pipe[n..];
  }

  lemma WholeIsHead(head: seq<byte>, tail: seq<byte>, whole: seq<byte>)
    requires head + tail == whole && |head| >= |whole|
    ensures head == whole && tail == []
  {
  }

  lemma ClientOnMethod(conf: Config, s: Session, request: seq<byte>)
    requires s.Live? && s.h.state == OpenState && s.h.readCount == 0 && s.buf == MethodReply(conf)
    ensures var t := ClientWake(s, request); Idle(t, RequestState) && t.out == s.out + request
  {
  }

  /** A side with nothing to read sleeps through empty wake-ups. */
  lemma IdleSleeps(conf: Config, s: Session)
    requires s.Live? && Idle(s, s.h.state) && (InHandshake(s.h.state) || s.h.state == ConnectedState)
    ensures Wake(conf, s) == s
  {
    assert s.out + [] == s.out;
  }

  lemma AskingStarts(conf: Config, c: Client, server: Session, client: Session)
    requires c.Valid() && Idle(client, RequestState) && client.out == [] + c.Request()
    requires Idle(server, if conf.Auth() then AuthState else RequestState) && server.out == []
    ensures InPhase(conf, c, Net(client, [], [], server), Ask(server.h))
  {
    IdleSleeps(conf, server);
    assert [] + c.Request() == c.Request();
    assert Got(c.Request(), c.Request()) == [];
    assert server == Live(server.h, [], []);
  }

  lemma MethodReads(conf: Config, c: Client, net: Net, n: nat) returns (ph: Phase)
    requires c.Valid() && InPhase(conf, c, net, Method) && n <= |net.down|
    ensures InPhase(conf, c, Step(conf, c, net, ClientReads(n)), ph)
  {
    var Net(client, up, down, server) := net;
    var s := Append(client, down[..n]);
    DeliveryKeepsOrder(client.buf, down, server.out, n);
    if |s.buf| < NHEADER {
      assert ClientWake(s, c.Request()) == s;
      ph := Method;
    } else {
      WholeIsHead(s.buf, down[n..] + server.out, MethodReply(conf));
      ClientOnMethod(conf, s, c.Request());
      AskingStarts(conf, c, server, ClientWake(s, c.Request()));
      ph := Ask(server.h);
    }
  }

  lemma MethodStep(conf: Config, c: Client, net: Net, m: Move) returns (ph: Phase)
    requires c.Valid() && InPhase(conf, c, net, Method) && Enabled(net, m)
    ensures InPhase(conf, c, Step(conf, c, net, m), ph)
  {
    ph := Method;
    var Net(client, up, down, server) := net;
    match m
    case ClientSends(n) =>
    case ServerReads(n) =>
      AppendNothing(server);
      IdleSleeps(conf, server);
    case ServerSends(n) => SendingKeepsOrder(down, server.out, n);
    case ClientReads(n) => ph := MethodReads(conf, c, net, n);
  }

  lemma ClientSleeps(s: Session, request: seq<byte>)
    requires Idle(s, RequestState)
    ensures ClientWake(Append(s, []), request) == s
  {
    AppendNothing(s);
    assert s.out + [] == s.out;
  }

  lemma AskStep(conf: Config, c: Client, net: Net, origin: Hs, m: Move) returns (ph: Phase)
    requires c.Valid() && InPhase(conf, c, net, Ask(origin)) && Enabled(net, m)
    ensures InPhase(conf, c, Step(conf, c, net, m), ph)
  {
    ph := Ask(origin);
    var Net(client, up, down, server) := net;
    match m
    case ClientSends(n) => SendingKeepsOrder(up, client.out, n);
    case ServerReads(n) =>
      var got := Got(c.Request(), up + client.out);
      DeliveryShifts(c.Request(), up, client.out, n);
      ServerReceives(conf, server, origin, got, up[..n]);
      if conf.Auth() {
        ServerOnMistakenLogin(conf, c, origin, got + up[..n], up[n..] + client.out);
        if |got + up[..n]| >= 7 {
          ph := Closed;
        }
      } else {
        ServerOnRequest(conf, c, origin, got + up[..n], up[n..] + client.out);
        if up[n..] + client.out == [] {
          ph := Answer(client.h);
          assert [] + (down + NotifyConnected(conf)) == NotifyConnected(conf);
          assert Got(NotifyConnected(conf), down + NotifyConnected(conf)) == [];
          assert client == Live(client.h, [], []);
        }
      }
    case ServerSends(n) =>
    case ClientReads(n) => ClientSleeps(client, c.Request());
  }

  lemma AnswerStep(conf: Config, c: Client, net: Net, origin: Hs, m: Move) returns (ph: Phase)
    requires c.Valid() && InPhase(conf, c, net, Answer(origin)) && Enabled(net, m)
    ensures InPhase(conf, c, Step(conf, c, net, m), ph)
  {
    ph := Answer(origin);
    var Net(client, up, down, server) := net;
    match m
    case ClientSends(n) =>
    case ServerReads(n) => AppendNothing(server);
    case ServerSends(n) => SendingKeepsOrder(down, server.out, n);
    case ClientReads(n) =>
      var got := Got(NotifyConnected(conf), down + server.out);
      DeliveryShifts(NotifyConnected(conf), down, server.out, n);
      ClientReceives(client, origin, got, down[..n]);
      ClientOnAnswer(conf, origin, got + down[..n], down[n..] + server.out);
      if down[n..] + server.out == [] {
        ph := Done;
      }
  }

  lemma PhaseStep(conf: Config, c: Client, net: Net, ph: Phase, m: Move) returns (ph': Phase)
    requires c.Valid() && InPhase(conf, c, net, ph) && Enabled(net, m)
    ensures InPhase(conf, c, Step(conf, c, net, m), ph')
  {
    match ph
    case Greet(origin) => ph' := GreetStep(conf, c, net, origin, m);
    case Method => ph' := MethodStep(conf, c, net, m);
    case Ask(origin) => ph' := AskStep(conf, c, net, origin, m);
    case Answer(origin) => ph' := AnswerStep(conf, c, net, origin, m);
    case Done =>
      AppendNothing(net.client);
      AppendNothing(net.server);
      ph' := Done;
    case Closed =>
      ClientSleeps(net.client, c.Request());
      ph' := Closed;
  }

  lemma {:induction false} RunStaysInPhase(conf: Config, c: Client, net: Net, ph: Phase, moves: seq<Move>)
    returns (ph': Phase)
    requires c.Valid() && InPhase(conf, c, net, ph)
    ensures var end := Run(conf, c, net, moves); end.Some? ==> InPhase(conf, c, end.value, ph')
    decreases |moves|
  {
    ph' := ph;
    if moves != [] && Enabled(net, moves[0]) {
      var ph1 := PhaseStep(conf, c, net, ph, moves[0]);
      ph' := RunStaysInPhase(conf, c, Step(conf, c, net, moves[0]), ph1, moves[1..]);
    }
  }

  // ----- the results

  lemma StartsGreeting(conf: Config, c: Client, h: Hs)
    requires c.Valid()
    ensures InPhase(conf, c, Begin(h), Greet(Opened(h).h))
  {
    assert [] + GREETING == GREETING && Got(GREETING, GREETING) == [];
    ServerOnGreeting(conf, Opened(h).h, [], GREETING);
    IdleSleeps(conf, Opened(h));
  }

  lemma Repeats(conf: Config, s: Session, origin: Hs, got: seq<byte>)
    requires ServerTakes(conf, s, origin, got)
    ensures Wake(conf, s) == s
  {
    ServerReceives(conf, s, origin, got, []);
    AppendNothing(s);
    assert got + [] == got;
  }

  lemma NothingLeftUnread(conf: Config, c: Client, net: Net, ph: Phase)
    requires c.Valid() && InPhase(conf, c, net, ph)
    ensures ClientWake(net.client, c.Request()) == net.client && Wake(conf, net.server) == net.server
    ensures net.client.Live? && !net.server.Aborted? && (net.server.Dead? ==> conf.Auth())
  {
    var Net(client, up, down, server) := net;
    match ph
    case Greet(origin) => Repeats(conf, server, origin, Got(GREETING, up + client.out));
    case Method => IdleSleeps(conf, server);
    case Ask(origin) =>
      Repeats(conf, server, origin, Got(c.Request(), up + client.out));
      AppendNothing(client);
      ClientSleeps(client, c.Request());
    case Answer(origin) =>
      var got := Got(NotifyConnected(conf), down + server.out);
      ClientReceives(client, origin, got, []);
      AppendNothing(client);
      assert got + [] == got;
    case Done =>
    case Closed =>
      AppendNothing(client);
      ClientSleeps(client, c.Request());
  }

  /** Safety, for every interleaving and whatever an earlier client has left on the server's tunnel.  The
      client's handshake handlers never return -1 and no side hits an `assert(0)`.  The server's return
      -1 only when credentials are configured.  No later message is ever left unread behind an earlier
      one: running either side's handler again changes nothing. */
  lemma HandshakeIsSafe(conf: Config, c: Client, h: Hs, moves: seq<Move>)
    requires c.Valid()
    ensures var end := Run(conf, c, Begin(h), moves); end.Some? ==>
      var Net(client, _, _, server) := end.value;
      && client.Live? && !server.Aborted? && (server.Dead? ==> conf.Auth())
      && ClientWake(client, c.Request()) == client && Wake(conf, server) == server
  {
    StartsGreeting(conf, c, h);
    var ph := RunStaysInPhase(conf, c, Begin(h), Greet(Opened(h).h), moves);
    var end := Run(conf, c, Begin(h), moves);
    if end.Some? {
      NothingLeftUnread(conf, c, end.value, ph);
    }
  }

  function ClientWeight(c: Client, s: Session): nat
    requires c.Valid()
  {
    if !s.Live? then 0 else 2 * |s.out| + if s.h.state == OpenState then 2 * |c.Request()| else 0
  }

  function ServerWeight(conf: Config, s: Session): nat {
    if !s.Live? then 0
    else
      2 * |s.out| + match s.h.state
                    case OpenState => 4 + 2 * |NotifyConnected(conf)|
                    case ConnectedState => 0
                    case _ => 2 * |NotifyConnected(conf)|
  }

  /** What is still to be done: a byte to be sent weighs two, a byte in a pipe one, and a side that
      has yet to answer owes its answer. */
  function Weight(conf: Config, c: Client, net: Net): nat
    requires c.Valid()
  {
    |net.up| + |net.down| + ClientWeight(c, net.client) + ServerWeight(conf, net.server)
  }

  /** Sending a byte, or delivering one, costs one unit; a handler pays for its reply from what was owed. */
  lemma ServerGreetedDescends(conf: Config, c: Client, net: Net, origin: Hs, n: nat)
    requires c.Valid() && InPhase(conf, c, net, Greet(origin)) && 0 < n <= |net.up|
    ensures ServerWeight(conf, Feed(conf, net.server, net.up[..n])) <= ServerWeight(conf, net.server)
  {
    var got := Got(GREETING, net.up + net.client.out);
    DeliveryShifts(GREETING, net.up, net.client.out, n);
    ServerReceives(conf, net.server, origin, got, net.up[..n]);
    ServerOnGreeting(conf, origin, got + net.up[..n], net.up[n..] + net.client.out);
  }

  lemma ServerAskedDescends(conf: Config, c: Client, net: Net, origin: Hs, n: nat)
    requires c.Valid() && InPhase(conf, c, net, Ask(origin)) && 0 < n <= |net.up|
    ensures ServerWeight(conf, Feed(conf, net.server, net.up[..n])) <= ServerWeight(conf, net.server)
  {
    var got := Got(c.Request(), net.up + net.client.out);
    DeliveryShifts(c.Request(), net.up, net.client.out, n);
    ServerReceives(conf, net.server, origin, got, net.up[..n]);
    if conf.Auth() {
      ServerOnMistakenLogin(conf, c, origin, got + net.up[..n], net.up[n..] + net.client.out);
    } else {
      ServerOnRequest(conf, c, origin, got + net.up[..n], net.up[n..] + net.client.out);
    }
  }

  lemma ClientAnsweredDescends(conf: Config, c: Client, net: Net, origin: Hs, n: nat)
    requires c.Valid() && InPhase(conf, c, net, Answer(origin)) && 0 < n <= |net.down|
    ensures ClientWeight(c, ClientWake(Append(net.client, net.down[..n]), c.Request())) <= ClientWeight(c, net.client)
  {
    var got := Got(NotifyConnected(conf), net.down + net.server.out);
    DeliveryShifts(NotifyConnected(conf), net.down, net.server.out, n);
    ClientReceives(net.client, origin, got, net.down[..n]);
    ClientOnAnswer(conf, origin, got + net.down[..n], net.down[n..] + net.server.out);
  }

  lemma ClientMethodDescends(c: Client, s: Session)
    requires c.Valid() && s.Live? && s.h.state == OpenState && s.h.readCount == 0
    ensures ClientWeight(c, ClientWake(s, c.Request())) <= ClientWeight(c, s)
  {
  }

  /** Every move that carries a byte makes the weight smaller, so no run carries bytes forever. */
  lemma MovesDescend(conf: Config, c: Client, net: Net, ph: Phase, m: Move)
    requires c.Valid() && InPhase(conf, c, net, ph) && Enabled(net, m) && m.n > 0
    ensures Weight(conf, c, Step(conf, c, net, m)) < Weight(conf, c, net)
  {
    if m.ServerReads? {
      assert ph.Greet? || ph.Ask?;
      if ph.Greet? {
        ServerGreetedDescends(conf, c, net, ph.origin, m.n);
      } else {
        ServerAskedDescends(conf, c, net, ph.origin, m.n);
      }
    } else if m.ClientReads? {
      assert ph.Method? || ph.Answer?;
      if ph.Method? {
        ClientMethodDescends(c, Append(net.client, net.down[..m.n]));
      } else {
        ClientAnsweredDescends(conf, c, net, ph.origin, m.n);
      }
    }
  }

  /** Every maximal run, whatever its interleaving, ends with both sides in `connected_state` and
      nothing in transit if and only if the server does not have both credentials configured.  Each then
      holds the host name and the port that the other has sent.
      Otherwise it ends with the server closed and the client waiting: the client cannot log in. */
  lemma MaximalRunsConnect(conf: Config, c: Client, h: Hs, moves: seq<Move>)
    requires c.Valid()
    ensures var end := Run(conf, c, Begin(h), moves); end.Some? && Stuck(end.value) ==>
      var Net(client, up, down, server) := end.value;
      && (Connected(client) && Connected(server) && up == [] && down == [] <==> !conf.Auth())
      && (!conf.Auth() ==> Holds(server, c.name, c.port) && Holds(client, conf.host, conf.port))
      && (conf.Auth() ==> server.Dead? && client.Live? && client.h.state == RequestState)
  {
    StartsGreeting(conf, c, h);
    var ph := RunStaysInPhase(conf, c, Begin(h), Greet(Opened(h).h), moves);
  }

  /** A run carries at most as many loads of bytes as the start weighs. */
  lemma {:induction false} RunsEnd(conf: Config, c: Client, net: Net, ph: Phase, moves: seq<Move>)
    requires c.Valid() && InPhase(conf, c, net, ph)
    requires Run(conf, c, net, moves).Some? && forall m :: m in moves ==> m.n > 0
    ensures |moves| <= Weight(conf, c, net)
    decreases |moves|
  {
    if moves != [] {
      assert moves[0] in moves;
      MovesDescend(conf, c, net, ph, moves[0]);
      var ph1 := PhaseStep(conf, c, net, ph, moves[0]);
      RunsEnd(conf, c, Step(conf, c, net, moves[0]), ph1, moves[1..]);
    }
  }

  lemma HandshakeEnds(conf: Config, c: Client, h: Hs, moves: seq<Move>)
    requires c.Valid()
    requires Run(conf, c, Begin(h), moves).Some? && forall m :: m in moves ==> m.n > 0
    ensures |moves| <= Weight(conf, c, Begin(h))
  {
    StartsGreeting(conf, c, h);
    RunsEnd(conf, c, Begin(h), Greet(Opened(h).h), moves);
  }
}
