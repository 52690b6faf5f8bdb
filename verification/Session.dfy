/** One private connection from accept to `connected_state`: the handlers driven by read events.
    TCP may split the byte stream anywhere; these results say that the split does not matter. */
module Session {
  import opened Common
  import opened Protocol
  import opened Handshake

  /** A private socket during its handshake.  Live: fields, unread bytes, replies written so far.
      Dead: closed by `sock_force_shutdown`.  Aborted: an `assert(0)` fired. */
  datatype Session = Live(h: Hs, buf: seq<byte>, out: seq<byte>) | Dead(out: seq<byte>) | Aborted

  /** What `tunnel_create` makes of a tunnel: `h` is what its last user left, or zero. */
  function Opened(h: Hs): Session {
    Live(h.(state := OpenState, readCount := 0), [], [])
  }

  function Append(s: Session, c: seq<byte>): Session {
    if s.Live? then s.(buf := s.buf + c) else s
  }

  /** One dispatch: exactly one handler runs.  `connected_state` and failure are absorbing. */
  function Wake(conf: Config, s: Session): Session {
    if s.Live? && InHandshake(s.h.state) then
      var o := Handle(conf, s.h, s.buf);
      match o.verdict
      case Proceed => Live(o.h, o.buf, s.out + o.reply)
      case Reject => Dead(s.out + o.reply)
      case Abort => Aborted
    else s
  }

  /** A read event that delivers `c`; an empty `c` is the EAGAIN path. */
  function Feed(conf: Config, s: Session, c: seq<byte>): Session {
    Wake(conf, Append(s, c))
  }

  function FeedAll(conf: Config, s: Session, chunks: seq<seq<byte>>): Session
    decreases |chunks|
  {
    if chunks == [] then s else FeedAll(conf, Feed(conf, s, chunks[0]), chunks[1..])
  }

  function Concat(chunks: seq<seq<byte>>): seq<byte> {
    if chunks == [] then [] else chunks[0] + Concat(chunks[1..])
  }

  function WakeUps(conf: Config, s: Session, k: nat): Session
    decreases k
  {
    if k == 0 then s else WakeUps(conf, Wake(conf, s), k - 1)
  }

  /** How many handlers may still run to completion. */
  function Rank(s: Session): nat {
    if !s.Live? then 0
    else
      match s.h.state
      case OpenState => 3
      case AuthState => 2
      case RequestState => 1
      case _ => 0
  }

  predicate Good(s: Session) {
    && !s.Aborted?
    && (s.Live? ==> Resumable(s.h) && (InHandshake(s.h.state) || s.h.state == ConnectedState))
  }

  /** Run handlers until one waits for input. */
  function Settle(conf: Config, s: Session): Session
    decreases Rank(s)
  {
    var s1 := Wake(conf, s);
    if Rank(s1) < Rank(s) then Settle(conf, s1) else s1
  }

  /** The three ways a dispatch ends, each insensitive to whether `c` came before or after it. */
  lemma WakeEarly(conf: Config, s: Session, c: seq<byte>)
    requires Good(s)
    ensures var s1 := Wake(conf, s);
      && Good(s1) && Rank(s1) <= Rank(s)
      && if Rank(s1) == Rank(s) then Feed(conf, s1, c) == Feed(conf, s, c)
         else Feed(conf, s, c) == Append(s1, c)
  {
    if s.Live? && InHandshake(s.h.state) {
      HandleResumes(conf, s.h, s.buf, c);
      HandleAdvances(conf, s.h, s.buf);
      assert s.out + [] == s.out;
    } else if s.Live? {
      assert s.buf + c == Append(s, c).buf;
    }
  }

  lemma AppendNothing(s: Session)
    ensures Append(s, []) == s
  {
    if s.Live? {
      assert s.buf + [] == s.buf;
    }
  }

  lemma AppendTwice(s: Session, b: seq<byte>, c: seq<byte>)
    ensures Append(Append(s, b), c) == Append(s, b + c)
  {
    if s.Live? {
      assert s.buf + b + c == s.buf + (b + c);
    }
  }

  /** Running a handler before `c` arrives leads to the same settled session. */
  lemma SettleEarly(conf: Config, s: Session, c: seq<byte>)
    requires Good(s)
    ensures Settle(conf, Append(Wake(conf, s), c)) == Settle(conf, Append(s, c))
  {
    WakeEarly(conf, s, c);
    var s1 := Wake(conf, s);
    assert Rank(Append(s1, c)) == Rank(s1) && Rank(Append(s, c)) == Rank(s);
  }

  /** Fragmentation invariance: from any good session, every split of the same bytes settles alike. */
  lemma {:induction false} ChunkingIsInvisible(conf: Config, s: Session, chunks: seq<seq<byte>>)
    requires Good(s)
    ensures Good(FeedAll(conf, s, chunks))
    ensures Settle(conf, FeedAll(conf, s, chunks)) == Settle(conf, Append(s, Concat(chunks)))
    decreases |chunks|
  {
    if chunks == [] {
      AppendNothing(s);
    } else {
      var c, rest := chunks[0], chunks[1..];
      WakeEarly(conf, Append(s, c), []);
      ChunkingIsInvisible(conf, Feed(conf, s, c), rest);
      SettleEarly(conf, Append(s, c), Concat(rest));
      AppendTwice(s, c, Concat(rest));
    }
  }

  lemma WakingIsGood(conf: Config, s: Session)
    requires Good(s)
    ensures Good(Wake(conf, s)) && Rank(Wake(conf, s)) <= Rank(s)
  {
    WakeEarly(conf, s, []);
  }

  /** A handler that waits is not changed by another empty wake-up. */
  lemma WaitingIsStable(conf: Config, s: Session)
    requires Good(s) && Rank(Wake(conf, s)) == Rank(s)
    ensures Wake(conf, Wake(conf, s)) == Wake(conf, s)
  {
    WakeEarly(conf, s, []);
    AppendNothing(s);
    AppendNothing(Wake(conf, s));
  }

  lemma {:induction false} StableForever(conf: Config, s: Session, k: nat)
    requires Wake(conf, s) == s
    ensures WakeUps(conf, s, k) == s
  {
    if k > 0 {
      StableForever(conf, s, k - 1);
    }
  }

  /** Three empty wake-ups are enough to settle any session. */
  lemma {:induction false} EnoughWakeUps(conf: Config, s: Session, k: nat)
    requires Good(s) && k >= Rank(s)
    ensures WakeUps(conf, s, k) == Settle(conf, s)
    decreases Rank(s)
  {
    var s1 := Wake(conf, s);
    WakingIsGood(conf, s);
    if k == 0 {
      assert s1 == s && Settle(conf, s) == s;
    } else if Rank(s1) < Rank(s) {
      EnoughWakeUps(conf, s1, k - 1);
      assert Settle(conf, s) == Settle(conf, s1);
    } else {
      WaitingIsStable(conf, s);
      StableForever(conf, s1, k - 1);
      assert Settle(conf, s) == s1;
    }
  }

  // ----- the reference: one pass of the grammar over the whole stream

  datatype Progress =
    | Refused(out: seq<byte>)
    | Waiting(state: State, out: seq<byte>, message: seq<byte>)
    | Connected(req: Request, out: seq<byte>, rest: seq<byte>)

  /** The login a reader of the protocol would admit. */
  predicate Matches(conf: Config, l: Login) {
    CString(l.uname) == conf.username && CString(l.passwd) == conf.passwd
  }

  /** The login the server admits.  `ap` is what the last user of the tunnel left: the strings that are
      compared are those received, written over the old ones. */
  predicate Admits(conf: Config, ap: AuthFields, l: Login) {
    && |l.uname| <= FIELD_LEN && |l.passwd| <= FIELD_LEN
    && CString(Blit(ap.uname, l.uname)) == conf.username && CString(Blit(ap.passwd, l.passwd)) == conf.passwd
  }

  function ReferenceRequest(conf: Config, b: seq<byte>, out: seq<byte>): Progress {
    match ParseRequest(b)
    case More => Waiting(RequestState, out, b)
    case Bad => Refused(out)
    case Got(q, rest) => Connected(q, out + NotifyConnected(conf), rest)
  }

  function ReferenceLogin(conf: Config, ap: AuthFields, b: seq<byte>, out: seq<byte>): Progress {
    match ParseLogin(b)
    case More => Waiting(AuthState, out, b)
    case Bad => Refused(out)
    case Got(l, rest) => if Admits(conf, ap, l) then ReferenceRequest(conf, rest, out + [l.ver, 0x00]) else Refused(out)
  }

  function Reference(conf: Config, ap: AuthFields, b: seq<byte>): Progress {
    match ParseGreeting(b)
    case More => Waiting(OpenState, [], b)
    case Bad => Refused([])
    case Got(_, rest) =>
      if conf.Auth() then ReferenceLogin(conf, ap, rest, MethodReply(conf))
      else ReferenceRequest(conf, rest, MethodReply(conf))
  }

  /** The parsed request as the tunnel stores it. */
  predicate Stores(rp: RequestFields, q: Request) {
    && rp.ver == VERSION && rp.cmd == CMD_CONNECT && rp.rsv == q.rsv && rp.port == q.port
    && match q.address
       case Ipv4(ip) => rp.atyp == ATYP_IPV4 && rp.addr[..NIPV4] == ip
       case Ipv6(ip) => rp.atyp == ATYP_IPV6 && rp.addr[..NIPV6] == ip
       case Domain(name) => rp.atyp == ATYP_DOMAIN && rp.domainlen == |name| && rp.addr[..rp.domainlen] == name
  }

  /** Verdict, replies, state, parsed fields and unread bytes all agree.  While a message is
      incomplete, `read_count` of its bytes are consumed and the others are unread. */
  predicate Agrees(s: Session, p: Progress) {
    match p
    case Refused(out) => s == Dead(out)
    case Waiting(state, out, message) =>
      && s.Live? && s.h.state == state && s.out == out
      && s.h.readCount <= |message| && s.buf == message[s.h.readCount..]
    case Connected(q, out, rest) =>
      && s.Live? && s.h.state == ConnectedState && s.out == out && s.buf == rest && Stores(s.h.rp, q)
  }

  // What one handler can do with the bytes from the start of its message.

  predicate Waits(h: Hs, buf: seq<byte>, o: Out) {
    && o.verdict == Proceed && o.h.state == h.state && o.reply == []
    && o.h.readCount <= |buf| && o.buf == buf[o.h.readCount..]
  }

  predicate Refuses(o: Out) {
    o.verdict == Reject && o.reply == []
  }

  predicate Completes(o: Out, state: State, reply: seq<byte>, rest: seq<byte>) {
    && o.verdict == Proceed && o.h.state == state && o.h.readCount == 0
    && o.reply == reply && o.buf == rest
  }

  lemma Resliced(b: seq<byte>, i: nat, n: nat)
    requires i <= |b|
    ensures i + n <= |b| ==> b[i..][..n] == b[i..i + n] && b[i..][n..] == b[i + n..]
  {
  }

  lemma GreetingFollowsGrammar(conf: Config, h: Hs, buf: seq<byte>)
    requires h.state == OpenState && h.readCount == 0
    ensures var o, p := OpenHandle(conf, h, buf), ParseGreeting(buf);
      && o.h.ap == h.ap
      && (p.More? ==> Waits(h, buf, o))
      && (p.Bad? ==> Refuses(o))
      && (p.Got? ==> Completes(o, if conf.Auth() then AuthState else RequestState, MethodReply(conf), p.rest))
  {
    if |buf| >= NHEADER {
      Resliced(buf, NHEADER, buf[1]);
    }
  }

  lemma PasswdFollowsGrammar(conf: Config, h: Hs, buf: seq<byte>)
    requires h.state == AuthState && h.readCount <= |buf| && h.ap.plen <= MAX_PASSWD_LEN
    ensures var o, end := AuthPasswd(conf, h, buf[h.readCount..]), h.readCount + h.ap.plen as int;
      if |buf| < end then o == Out(h, buf[h.readCount..], [], Proceed)
      else if CString(h.ap.uname) == conf.username && CString(Blit(h.ap.passwd, buf[h.readCount..end])) == conf.passwd
      then Completes(o, RequestState, [h.ap.ver, 0x00], buf[end..])
      else Refuses(o)
  {
    Resliced(buf, h.readCount, h.ap.plen);
  }

  lemma PlenFollowsGrammar(conf: Config, h: Hs, buf: seq<byte>, ap: AuthFields)
    requires h.state == AuthState && h.ap.passwd == ap.passwd && h.readCount <= |buf| && |buf| >= NHEADER
    requires h.readCount == NHEADER + buf[1] as int && buf[1] <= MAX_UNAME_LEN && h.ap.ver == buf[0]
    requires h.ap.uname == Blit(ap.uname, buf[NHEADER..h.readCount])
    ensures var o, p := AuthPlen(conf, h, buf[h.readCount..]), ParseLogin(buf);
      && (p.More? ==> Waits(h, buf, o))
      && (p.Bad? ==> Refuses(o))
      && (p.Got? && !Admits(conf, ap, p.msg) ==> Refuses(o))
      && (p.Got? && Admits(conf, ap, p.msg) ==> Completes(o, RequestState, [p.msg.ver, 0x00], p.rest))
  {
    var plen := h.readCount;
    if |buf| > plen && buf[plen] <= MAX_PASSWD_LEN {
      var end := plen + 1 + buf[plen] as int;
      Resliced(buf, plen, 1);
      PasswdFollowsGrammar(conf, h.(ap := h.ap.(plen := buf[plen]), readCount := plen + 1), buf);
      if |buf| < end {
        assert ParseLogin(buf).More?;
      } else {
        var l := Login(buf[0], buf[NHEADER..plen], buf[plen + 1..end]);
        assert ParseLogin(buf) == Got(l, buf[end..]);
        assert Admits(conf, ap, l) <==>
          CString(h.ap.uname) == conf.username && CString(Blit(h.ap.passwd, l.passwd)) == conf.passwd;
      }
    }
  }

  lemma LoginFollowsGrammar(conf: Config, h: Hs, buf: seq<byte>)
    requires h.state == AuthState && h.readCount == 0
    ensures var o, p := AuthHandle(conf, h, buf), ParseLogin(buf);
      && (p.More? ==> Waits(h, buf, o))
      && (p.Bad? ==> Refuses(o))
      && (p.Got? && !Admits(conf, h.ap, p.msg) ==> Refuses(o))
      && (p.Got? && Admits(conf, h.ap, p.msg) ==> Completes(o, RequestState, [p.msg.ver, 0x00], p.rest))
  {
    if |buf| >= NHEADER && buf[1] <= MAX_UNAME_LEN {
      var plen := NHEADER + buf[1] as int;
      var h1 := h.(ap := h.ap.(ver := buf[0], ulen := buf[1]), readCount := NHEADER);
      Resliced(buf, NHEADER, buf[1]);
      if |buf| >= plen {
        var uname := Blit(h.ap.uname, buf[NHEADER..plen]);
        PlenFollowsGrammar(conf, h1.(ap := h1.ap.(uname := uname), readCount := plen), buf, h.ap);
      }
    }
  }

  lemma TailFollowsGrammar(h: Hs, buf: seq<byte>, i: nat, n: nat, reply: seq<byte>)
    requires i <= |buf| && n <= FIELD_LEN
    ensures var o, p := RequestTail(h, buf[i..], n, reply), AddressAndPort(buf, i, n);
      if p.Got? then
        && Completes(o, ConnectedState, reply, p.msg.2)
        && o.h.rp == h.rp.(addr := o.h.rp.addr, port := p.msg.1) && o.h.rp.addr[..n] == p.msg.0
      else o == Out(h, buf[i..], [], Proceed)
  {
    Resliced(buf, i, n);
    Resliced(buf, i, n + NPORT);
  }

  lemma RequestFollowsGrammar(h: Hs, buf: seq<byte>, reply: seq<byte>)
    requires h.state == RequestState && h.readCount == 0
    ensures var o, p := RequestHandle(h, buf, reply), ParseRequest(buf);
      && (p.More? ==> Waits(h, buf, o))
      && (p.Bad? ==> Refuses(o))
      && (p.Got? ==> Completes(o, ConnectedState, reply, p.rest) && Stores(o.h.rp, p.msg))
  {
    if |buf| >= NREQHEADER && buf[0] == VERSION && buf[1] == CMD_CONNECT {
      var rp := h.rp.(ver := buf[0], cmd := buf[1], rsv := buf[2], atyp := buf[3]);
      var h1 := h.(rp := rp, readCount := NREQHEADER);
      if buf[3] == ATYP_DOMAIN && |buf| >= 5 {
        Resliced(buf, NREQHEADER, 1);
        TailFollowsGrammar(h1.(rp := rp.(domainlen := buf[4]), readCount := 5), buf, 5, buf[4], reply);
      } else if buf[3] == ATYP_IPV4 || buf[3] == ATYP_IPV6 {
        TailFollowsGrammar(h1, buf, NREQHEADER, if buf[3] == ATYP_IPV4 then NIPV4 else NIPV6, reply);
      }
    }
  }

  lemma RequestSettles(conf: Config, h: Hs, b: seq<byte>, out: seq<byte>)
    requires h.state == RequestState && h.readCount == 0
    ensures Agrees(Settle(conf, Live(h, b, out)), ReferenceRequest(conf, b, out))
  {
    RequestFollowsGrammar(h, b, NotifyConnected(conf));
    assert out + [] == out;
  }

  lemma LoginSettles(conf: Config, h: Hs, b: seq<byte>, out: seq<byte>)
    requires h.state == AuthState && h.readCount == 0
    ensures Agrees(Settle(conf, Live(h, b, out)), ReferenceLogin(conf, h.ap, b, out))
  {
    LoginFollowsGrammar(conf, h, b);
    assert out + [] == out;
    var s1 := Wake(conf, Live(h, b, out));
    if s1.Live? && s1.h.state == RequestState {
      RequestSettles(conf, s1.h, s1.buf, s1.out);
    }
  }

  lemma GreetingSettles(conf: Config, h: Hs, b: seq<byte>)
    requires h.state == OpenState && h.readCount == 0
    ensures Agrees(Settle(conf, Live(h, b, [])), Reference(conf, h.ap, b))
  {
    GreetingFollowsGrammar(conf, h, b);
    assert [] + MethodReply(conf) == MethodReply(conf);
    var o := OpenHandle(conf, h, b);
    if ParseGreeting(b).Got? {
      var s1 := Live(o.h, ParseGreeting(b).rest, MethodReply(conf));
      assert Settle(conf, Live(h, b, [])) == Settle(conf, s1);
      if conf.Auth() {
        LoginSettles(conf, s1.h, s1.buf, s1.out);
      } else {
        RequestSettles(conf, s1.h, s1.buf, s1.out);
      }
    }
  }

  /** The resumable handlers compute what the grammar says, from one delivery. */
  lemma OneShot(conf: Config, h: Hs, b: seq<byte>)
    ensures Agrees(Settle(conf, Append(Opened(h), b)), Reference(conf, h.ap, b))
  {
    assert [] + b == b;
    GreetingSettles(conf, Opened(h).h, b);
  }

  /** Fragmentation invariance, on a fresh tunnel or a reused one.  Any byte stream, split into any read
      events and followed by three or more empty wake-ups, gives the session that one delivery gives,
      and it is the session the grammar prescribes: same verdict, replies, state, fields and unread
      bytes. */
  lemma Fragmentation(conf: Config, h: Hs, chunks: seq<seq<byte>>, k: nat)
    requires k >= 3
    ensures var split := WakeUps(conf, FeedAll(conf, Opened(h), chunks), k);
      && split == Settle(conf, FeedAll(conf, Opened(h), chunks))
      && split == WakeUps(conf, Feed(conf, Opened(h), Concat(chunks)), k)
      && Agrees(split, Reference(conf, h.ap, Concat(chunks)))
  {
    var whole := Append(Opened(h), Concat(chunks));
    ChunkingIsInvisible(conf, Opened(h), chunks);
    EnoughWakeUps(conf, FeedAll(conf, Opened(h), chunks), k);
    WakeEarly(conf, whole, []);
    SettleEarly(conf, whole, []);
    AppendNothing(whole);
    AppendNothing(Wake(conf, whole));
    EnoughWakeUps(conf, Wake(conf, whole), k);
    OneShot(conf, h, Concat(chunks));
  }

  /** `later` is what `now` becomes when `c` follows. */
  predicate Kept(now: Progress, later: Progress, c: seq<byte>) {
    match now
    case Waiting(_, _, _) => true
    case Refused(out) => later == Refused(out)
    case Connected(q, out, rest) => later == Connected(q, out, rest + c)
  }

  lemma ReferenceRequestIsStable(conf: Config, b: seq<byte>, out: seq<byte>, c: seq<byte>)
    ensures Kept(ReferenceRequest(conf, b, out), ReferenceRequest(conf, b + c, out), c)
  {
    RequestIsStable(b, c);
  }

  lemma ReferenceLoginIsStable(conf: Config, ap: AuthFields, b: seq<byte>, out: seq<byte>, c: seq<byte>)
    ensures Kept(ReferenceLogin(conf, ap, b, out), ReferenceLogin(conf, ap, b + c, out), c)
  {
    LoginIsStable(b, c);
    if ParseLogin(b).Got? {
      ReferenceRequestIsStable(conf, ParseLogin(b).rest, out + [ParseLogin(b).msg.ver, 0x00], c);
    }
  }

  /** A verdict reached on a stream is kept by every extension of it; after success the extra bytes
      are simply unread. */
  lemma ReferenceIsStable(conf: Config, ap: AuthFields, b: seq<byte>, c: seq<byte>)
    ensures Kept(Reference(conf, ap, b), Reference(conf, ap, b + c), c)
  {
    GreetingIsStable(b, c);
    if ParseGreeting(b).Got? {
      ReferenceLoginIsStable(conf, ap, ParseGreeting(b).rest, MethodReply(conf), c);
      ReferenceRequestIsStable(conf, ParseGreeting(b).rest, MethodReply(conf), c);
    }
  }

  // ----- what read_count counts

  function RequestMessage(conf: Config, ap: AuthFields, b: seq<byte>): Option<seq<byte>> {
    if !ParseGreeting(b).Got? then None
    else
      var b1 := ParseGreeting(b).rest;
      if !conf.Auth() then Some(b1)
      else if ParseLogin(b1).Got? && Admits(conf, ap, ParseLogin(b1).msg) then Some(ParseLogin(b1).rest)
      else None
  }

  /** The part of the stream that starts with the message `state` is waiting for; None when the
      earlier messages do not lead to `state`. */
  function CurrentMessage(conf: Config, ap: AuthFields, state: State, b: seq<byte>): Option<seq<byte>> {
    match state
    case OpenState => Some(b)
    case AuthState => if conf.Auth() && ParseGreeting(b).Got? then Some(ParseGreeting(b).rest) else None
    case RequestState => RequestMessage(conf, ap, b)
    case ConnectedState =>
      var b2 := RequestMessage(conf, ap, b);
      if b2.Some? && ParseRequest(b2.value).Got? then Some(ParseRequest(b2.value).rest) else None
    case _ => None
  }

  lemma CurrentMessageExtends(conf: Config, ap: AuthFields, state: State, b: seq<byte>, c: seq<byte>)
    requires CurrentMessage(conf, ap, state, b).Some?
    ensures CurrentMessage(conf, ap, state, b + c) == Some(CurrentMessage(conf, ap, state, b).value + c)
    decreases state == ConnectedState
  {
    GreetingIsStable(b, c);
    if ParseGreeting(b).Got? {
      LoginIsStable(ParseGreeting(b).rest, c);
    }
    if state == ConnectedState {
      CurrentMessageExtends(conf, ap, RequestState, b, c);
      RequestIsStable(CurrentMessage(conf, ap, RequestState, b).value, c);
    }
  }

  /** `l` stands at the start of the message its state waits for, with `b` received in all. */
  predicate Starts(conf: Config, ap: AuthFields, l: Session, b: seq<byte>) {
    && l.Live? && (InHandshake(l.h.state) || l.h.state == ConnectedState) && l.h.readCount == 0
    && CurrentMessage(conf, ap, l.h.state, b) == Some(l.buf)
    && (l.h.state == OpenState || l.h.state == AuthState ==> l.h.ap == ap)
  }

  /** A live session is its message's start, or one dispatch of it that is still waiting. */
  predicate StartedBy(conf: Config, s: Session, l: Session) {
    s == l || (s == Wake(conf, l) && Rank(s) == Rank(l))
  }

  /** One dispatch from a message's start, seen from the grammar. */
  lemma StartWakes(conf: Config, ap: AuthFields, l: Session, b: seq<byte>)
    requires Starts(conf, ap, l, b)
    ensures var s := Wake(conf, l);
      && (s.Live? && Rank(s) < Rank(l) ==> Starts(conf, ap, s, b))
      && (s.Live? && Rank(s) == Rank(l) ==> s.h.readCount <= |l.buf| && s.buf == l.buf[s.h.readCount..])
  {
    match l.h.state
    case OpenState => GreetingFollowsGrammar(conf, l.h, l.buf);
    case AuthState => LoginFollowsGrammar(conf, l.h, l.buf);
    case RequestState => RequestFollowsGrammar(l.h, l.buf, NotifyConnected(conf));
    case ConnectedState =>
  }

  lemma NextStart(conf: Config, ap: AuthFields, s: Session, l: Session, b: seq<byte>, c: seq<byte>)
    returns (l': Session)
    requires Starts(conf, ap, l, b) && StartedBy(conf, s, l)
    ensures var s' := Feed(conf, s, c); s'.Live? ==> Starts(conf, ap, l', b + c) && StartedBy(conf, s', l')
  {
    l' := Append(l, c);
    CurrentMessageExtends(conf, ap, l.h.state, b, c);
    assert Starts(conf, ap, l', b + c);
    WakeEarly(conf, l, c);
    StartWakes(conf, ap, l', b + c);
    WakeEarly(conf, l', []);
    var s' := Feed(conf, s, c);
    assert s' == Wake(conf, l');
    if Rank(s') < Rank(l') {
      l' := s';
    }
  }

  lemma {:induction false} StaysDown(conf: Config, s: Session, chunks: seq<seq<byte>>)
    requires !s.Live?
    ensures FeedAll(conf, s, chunks) == s
    decreases |chunks|
  {
    if chunks != [] {
      StaysDown(conf, s, chunks[1..]);
    }
  }

  lemma {:induction false} ReadCountAlong(conf: Config, ap: AuthFields, s: Session, l: Session, b: seq<byte>,
                                          chunks: seq<seq<byte>>)
    requires Starts(conf, ap, l, b) && StartedBy(conf, s, l)
    ensures var t := FeedAll(conf, s, chunks); t.Live? ==>
      var m := CurrentMessage(conf, ap, t.h.state, b + Concat(chunks));
      m.Some? && t.h.readCount <= |m.value| && t.buf == m.value[t.h.readCount..]
    decreases |chunks|
  {
    if chunks == [] {
      assert b + [] == b;
      StartWakes(conf, ap, l, b);
    } else {
      var c := chunks[0];
      var l' := NextStart(conf, ap, s, l, b, c);
      assert b + Concat(chunks) == b + c + Concat(chunks[1..]);
      if Feed(conf, s, c).Live? {
        ReadCountAlong(conf, ap, Feed(conf, s, c), l', b + c, chunks[1..]);
      } else {
        StaysDown(conf, Feed(conf, s, c), chunks[1..]);
      }
    }
  }

  /** Resume-point soundness over whole runs: no `assert(0)` fires, and after every read event
      `read_count` is the number of bytes consumed of the message that is being received. */
  lemma ReadCountIsConsumed(conf: Config, h: Hs, chunks: seq<seq<byte>>)
    ensures var s := FeedAll(conf, Opened(h), chunks); Good(s) && (s.Live? ==>
      var m := CurrentMessage(conf, h.ap, s.h.state, Concat(chunks));
      m.Some? && s.h.readCount <= |m.value| && s.buf == m.value[s.h.readCount..])
  {
    ChunkingIsInvisible(conf, Opened(h), chunks);
    ReadCountAlong(conf, h.ap, Opened(h), Opened(h), [], chunks);
    assert [] + Concat(chunks) == Concat(chunks);
  }

  // ----- credentials

  /** Behind the login, or past the handshake. */
  predicate PastLogin(s: Session) {
    s.Live? && (s.h.state == RequestState || s.h.state == ConnectedState)
  }

  /** The stream holds a greeting and, with both credentials configured, a login the server admits; what
      follows is not refused as a request. */
  predicate Clears(conf: Config, ap: AuthFields, b: seq<byte>) {
    var m := RequestMessage(conf, ap, b);
    m.Some? && !ParseRequest(m.value).Bad?
  }

  lemma ReferencePastLogin(conf: Config, ap: AuthFields, b: seq<byte>, s: Session)
    requires Agrees(s, Reference(conf, ap, b))
    ensures PastLogin(s) <==> Clears(conf, ap, b)
  {
  }

  /** Which streams get past the login, on a fresh tunnel or a reused one and for every chunking.  At no
      time is the session past it without a login that is admitted; and once the handlers have run as
      far as they can, it is past it exactly when there is one and no bad request behind it. */
  lemma OnlyAdmittedConnect(conf: Config, h: Hs, chunks: seq<seq<byte>>, k: nat)
    requires k >= 3
    ensures var s := FeedAll(conf, Opened(h), chunks);
      && (PastLogin(s) ==> RequestMessage(conf, h.ap, Concat(chunks)).Some?)
      && (PastLogin(WakeUps(conf, s, k)) <==> Clears(conf, h.ap, Concat(chunks)))
  {
    var s, b := FeedAll(conf, Opened(h), chunks), Concat(chunks);
    ReadCountIsConsumed(conf, h, chunks);
    assert PastLogin(s) ==> CurrentMessage(conf, h.ap, s.h.state, b).Some?;
    Fragmentation(conf, h, chunks, k);
    ReferencePastLogin(conf, h.ap, b, WakeUps(conf, s, k));
  }

  // The greeting, in bytes.

  lemma {:induction false} GreetingFieldsSettle(conf: Config, s: Session)
    requires Good(s) && s.Live? && s.h.state != OpenState
    ensures Settle(conf, s).Live? ==> Settle(conf, s).h.op == s.h.op
    decreases Rank(s)
  {
    var s1 := Wake(conf, s);
    WakingIsGood(conf, s);
    GreetingFieldsStay(conf, s.h, s.buf, NotifyConnected(conf));
    HandleNeverReopens(conf, s);
    if s1.Live? && Rank(s1) < Rank(s) {
      GreetingFieldsSettle(conf, s1);
    }
  }

  lemma HandleNeverReopens(conf: Config, s: Session)
    requires s.Live? && s.h.state != OpenState
    ensures Wake(conf, s).Live? ==> Wake(conf, s).h.state != OpenState
  {
    if InHandshake(s.h.state) {
      HandleAdvances(conf, s.h, s.buf);
    }
  }

  /** The method a greeting is answered with, whatever methods it offers: 2, and then a login is expected,
      if both a user name and a password are configured, and 0, and then a request, otherwise.  The
      tunnel holds the greeting's version, count and methods from then on. */
  lemma MethodIsAnswered(conf: Config, h: Hs, chunks: seq<seq<byte>>, methods: seq<byte>, rest: seq<byte>, k: nat)
    requires k >= 3 && |methods| < 256
    requires Concat(chunks) == [5, |methods|] + methods + rest
    ensures var s := WakeUps(conf, FeedAll(conf, Opened(h), chunks), k);
      var auth := conf.username != [] && conf.passwd != [];
      && !s.Aborted? && [5, if auth then 2 else 0] <= s.out
      && (rest == [] ==>
            s.Live? && s.out == [5, if auth then 2 else 0] && s.h.state == if auth then AuthState else RequestState)
      && (s.Live? ==> s.h.op == OpenFields(5, |methods|, s.h.op.methods) && s.h.op.methods[..|methods|] == methods)
  {
    var b, g := Concat(chunks), Greeting(methods);
    Fragmentation(conf, h, chunks, k);
    GreetingRoundTrip(b, g, rest);
    assert b == EncodeGreeting(g) + rest;
    AnswersFirst(conf, h.ap, b, g, rest);
    FieldsAfterGreeting(conf, Opened(h).h, b, g, rest);
    ChunkingIsInvisible(conf, Opened(h), chunks);
    assert [] + b == b;
  }

  lemma AnswersFirst(conf: Config, ap: AuthFields, b: seq<byte>, g: Greeting, rest: seq<byte>)
    requires ParseGreeting(b) == Got(g, rest)
    ensures var p, auth := Reference(conf, ap, b), conf.username != [] && conf.passwd != [];
      && [5, if auth then 2 else 0] <= p.out
      && (rest == [] ==> p == Waiting(if auth then AuthState else RequestState, [5, if auth then 2 else 0], []))
  {
  }

  lemma FieldsAfterGreeting(conf: Config, h: Hs, b: seq<byte>, g: Greeting, rest: seq<byte>)
    requires h.state == OpenState && h.readCount == 0 && ParseGreeting(b) == Got(g, rest)
    ensures |g.methods| < 256
    ensures var s := Settle(conf, Live(h, b, []));
      s.Live? ==> s.h.op == OpenFields(5, |g.methods|, s.h.op.methods) && s.h.op.methods[..|g.methods|] == g.methods
  {
    var o, n := OpenHandle(conf, h, b), |g.methods|;
    GreetingFollowsGrammar(conf, h, b);
    Resliced(b, NHEADER, n);
    assert n == b[1] as int && o.h.op == OpenFields(5, n, Blit(h.op.methods, g.methods));
    var s1 := Wake(conf, Live(h, b, []));
    WakingIsGood(conf, Live(h, b, []));
    assert Settle(conf, Live(h, b, [])) == Settle(conf, s1);
    GreetingFieldsSettle(conf, s1);
  }

  /** A login of lengths at most 20 behind a greeting is admitted, under every chunking, exactly when
      both strings as the tunnel reads them match; otherwise the connection is closed behind the
      method reply. */
  lemma LoginAdmitted(conf: Config, h: Hs, chunks: seq<seq<byte>>, g: Greeting, l: Login, rest: seq<byte>, k: nat)
    requires conf.Auth() && k >= 3 && |g.methods| < 256
    requires |l.uname| <= MAX_UNAME_LEN && |l.passwd| <= MAX_PASSWD_LEN
    requires Concat(chunks) == EncodeGreeting(g) + (EncodeLogin(l) + rest)
    ensures var s := WakeUps(conf, FeedAll(conf, Opened(h), chunks), k);
      if Admits(conf, h.ap, l) then Agrees(s, ReferenceRequest(conf, rest, MethodReply(conf) + [l.ver, 0x00]))
      else s == Dead(MethodReply(conf))
  {
    Fragmentation(conf, h, chunks, k);
    GreetingRoundTrip(Concat(chunks), g, EncodeLogin(l) + rest);
    LoginRoundTrip(EncodeLogin(l) + rest, l, rest);
  }

  lemma RequestEndsHandshake(conf: Config, q: Request, rest: seq<byte>, out: seq<byte>)
    requires ValidRequest(q)
    ensures ReferenceRequest(conf, EncodeRequest(q) + rest, out) ==
      Connected(q, out + ([5, 1, 0, 3, |conf.host|] + conf.host + [conf.port / 256, conf.port % 256]), rest)
  {
    RequestRoundTrip(q, rest);
  }

  /** The whole handshake, in bytes.  A greeting, the login if both credentials are configured, and any
      request, split anywhere: if the login is admitted, the tunnel is connected, holds the request, has
      left what follows unread, and has written the method, the result of the login, and the host and port
      it announces; if it is not, the connection is closed behind the method. */
  lemma HandshakeInBytes(conf: Config, h: Hs, chunks: seq<seq<byte>>, methods: seq<byte>, l: Login, q: Request,
                         rest: seq<byte>, k: nat)
    requires k >= 3 && |methods| < 256 && |l.uname| <= 20 && |l.passwd| <= 20 && ValidRequest(q)
    requires var auth := conf.username != [] && conf.passwd != [];
      var login := if auth then [l.ver, |l.uname|] + l.uname + [|l.passwd|] + l.passwd else [];
      Concat(chunks) == [5, |methods|] + methods + (login + (EncodeRequest(q) + rest))
    ensures var s := WakeUps(conf, FeedAll(conf, Opened(h), chunks), k);
      var auth := conf.username != [] && conf.passwd != [];
      var result := if auth then [l.ver, 0] else [];
      var announced := [5, 1, 0, 3, |conf.host|] + conf.host + [conf.port / 256, conf.port % 256];
      if auth && !Admits(conf, h.ap, l) then s == Dead([5, 2])
      else
        && s.Live? && s.h.state == ConnectedState && Stores(s.h.rp, q) && s.buf == rest
        && s.out == [5, if auth then 2 else 0] + result + announced
  {
    var g, b, behind := Greeting(methods), Concat(chunks), EncodeRequest(q) + rest;
    if conf.username != [] && conf.passwd != [] {
      LoginAdmitted(conf, h, chunks, g, l, behind, k);
      RequestEndsHandshake(conf, q, rest, [5, 2] + [l.ver, 0]);
    } else {
      Fragmentation(conf, h, chunks, k);
      assert [] + behind == behind;
      GreetingRoundTrip(b, g, behind);
      RequestEndsHandshake(conf, q, rest, [5, 0]);
      assert [5, 0] + [] == [5 as byte, 0];
    }
  }

  /** On a zeroed tunnel these are the logins that match. */
  lemma ZeroedAdmits(conf: Config, ap: AuthFields, l: Login)
    requires ap.uname == ZeroField() && ap.passwd == ZeroField()
    requires |l.uname| <= MAX_UNAME_LEN && |l.passwd| <= MAX_PASSWD_LEN
    ensures Admits(conf, ap, l) <==> Matches(conf, l)
  {
    CStringOfBlit(l.uname);
    CStringOfBlit(l.passwd);
  }

  /** The tunnel holds the configured strings, as a successful login leaves them. */
  predicate HoldsCredentials(conf: Config, ap: AuthFields) {
    CString(ap.uname) == conf.username && CString(ap.passwd) == conf.passwd
  }

  /** On a tunnel left by a successful login any prefix of each string will do, the empty one included. */
  lemma ReusedAdmits(conf: Config, ap: AuthFields, l: Login)
    requires HoldsCredentials(conf, ap)
    requires |l.uname| <= MAX_UNAME_LEN && |l.passwd| <= MAX_PASSWD_LEN
    ensures Admits(conf, ap, l) <==>
      && (CString(l.uname) == conf.username || l.uname <= conf.username)
      && (CString(l.passwd) == conf.passwd || l.passwd <= conf.passwd)
  {
    CStringOverItself(ap.uname, l.uname, conf.username);
    CStringOverItself(ap.passwd, l.passwd, conf.passwd);
  }

  /** The configured strings themselves are admitted exactly when nothing was left behind them: a
      longer string of an earlier client shuts them out. */
  lemma ConfiguredAdmits(conf: Config, ap: AuthFields, ver: byte)
    requires |conf.username| <= MAX_UNAME_LEN && |conf.passwd| <= MAX_PASSWD_LEN
    requires CString(conf.username) == conf.username && CString(conf.passwd) == conf.passwd
    ensures Admits(conf, ap, Login(ver, conf.username, conf.passwd)) <==>
      ap.uname[|conf.username|] == 0 && ap.passwd[|conf.passwd|] == 0
  {
    CStringReadsOn(ap.uname, conf.username);
    CStringReadsOn(ap.passwd, conf.passwd);
  }
}
