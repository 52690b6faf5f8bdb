/** The three resumable handshake handlers of `socks5.c`, as functions of the tunnel's protocol
    fields and the readable bytes.  Each `goto` label is one function; `read_count` chooses the label
    at which the next read event resumes. */
module Handshake {
  import opened Common
  import opened Protocol

  datatype State = OpenState | AuthState | RequestState | ConnectingState | ConnectedState | WaittingState

  datatype OpenFields = OpenFields(ver: byte, nmethods: byte, methods: Field)
  datatype AuthFields = AuthFields(ver: byte, ulen: byte, uname: Field, plen: byte, passwd: Field)
  datatype RequestFields =
    RequestFields(ver: byte, cmd: byte, rsv: byte, atyp: byte, domainlen: byte, addr: Field, port: nat)

  /** The handshake part of a `tunnel_t`. */
  datatype Hs = Hs(state: State, op: OpenFields, ap: AuthFields, rp: RequestFields, readCount: nat)

  /** A tunnel as `memset` leaves it. */
  const ZERO_HS :=
    Hs(OpenState, OpenFields(0, 0, ZeroField()), AuthFields(0, 0, ZeroField(), 0, ZeroField()),
       RequestFields(0, 0, 0, 0, 0, ZeroField(), 0), 0)

  /** A host name that fits `addr` with its NUL, and a port. */
  type HostName = n: seq<byte> | |n| < FIELD_LEN
  type Port = p: nat | p < 0x1_0000

  /** `THEMON.username` and `THEMON.passwd`, where the empty string means not configured, and what
      `tunnel_notify_connected` announces: "www.hellorsp.org" and 8080. */
  datatype Config = Config(username: seq<byte>, passwd: seq<byte>, host: HostName, port: Port) {
    predicate Auth() {
      username != [] && passwd != []
    }
  }

  /** How a handler ends: `return 0`, `return -1`, or a failed `assert(0)`. */
  datatype Verdict = Proceed | Reject | Abort

  /** What a handler leaves: the fields, the unread bytes, and what it appended to the write buffer. */
  datatype Out = Out(h: Hs, buf: seq<byte>, reply: seq<byte>, verdict: Verdict)

  const NHEADER: nat := 2
  const NREQHEADER: nat := 4

  // ----- tunnel_open_handle

  function MethodReply(conf: Config): seq<byte> {
    [VERSION, if conf.Auth() then 0x02 else 0x00]
  }

  function OpenMethods(conf: Config, h: Hs, buf: seq<byte>): Out {
    var n: nat := h.op.nmethods;
    if |buf| < n then Out(h, buf, [], Proceed)
    else
      var h1 := h.(op := h.op.(methods := Blit(h.op.methods, buf[..n])),
                   state := if conf.Auth() then AuthState else RequestState, readCount := 0);
      Out(h1, buf[n..], MethodReply(conf), Proceed)
  }

  function OpenHeader(conf: Config, h: Hs, buf: seq<byte>): Out {
    if |buf| < NHEADER then Out(h, buf, [], Proceed)
    else if buf[0] != VERSION then Out(h.(op := h.op.(ver := buf[0])), buf[1..], [], Reject)
    else
      var h1 := h.(op := h.op.(ver := buf[0], nmethods := buf[1]), readCount := h.readCount + NHEADER);
      OpenMethods(conf, h1, buf[NHEADER..])
  }

  function OpenHandle(conf: Config, h: Hs, buf: seq<byte>): Out {
    if h.readCount == 0 then OpenHeader(conf, h, buf)
    else if h.readCount == NHEADER then OpenMethods(conf, h, buf)
    else Out(h, buf, [], Abort)
  }

  // ----- tunnel_auth_handle

  function AuthPasswd(conf: Config, h: Hs, buf: seq<byte>): Out {
    var n: nat := h.ap.plen;
    if |buf| < n then Out(h, buf, [], Proceed)
    else
      var h1 := h.(ap := h.ap.(passwd := Blit(h.ap.passwd, buf[..n])));
      if CString(h1.ap.uname) != conf.username || CString(h1.ap.passwd) != conf.passwd then
        Out(h1, buf[n..], [], Reject)
      else
        Out(h1.(state := RequestState, readCount := 0), buf[n..], [h1.ap.ver, 0x00], Proceed)
  }

  function AuthPlen(conf: Config, h: Hs, buf: seq<byte>): Out {
    if |buf| < 1 then Out(h, buf, [], Proceed)
    else
      var h1 := h.(ap := h.ap.(plen := buf[0]));
      if buf[0] > MAX_PASSWD_LEN then Out(h1, buf[1..], [], Reject)
      else AuthPasswd(conf, h1.(readCount := h1.readCount + 1), buf[1..])
  }

  function AuthUname(conf: Config, h: Hs, buf: seq<byte>): Out {
    var n: nat := h.ap.ulen;
    if |buf| < n then Out(h, buf, [], Proceed)
    else AuthPlen(conf, h.(ap := h.ap.(uname := Blit(h.ap.uname, buf[..n])), readCount := h.readCount + n), buf[n..])
  }

  function AuthHeader(conf: Config, h: Hs, buf: seq<byte>): Out {
    if |buf| < NHEADER then Out(h, buf, [], Proceed)
    else
      var h1 := h.(ap := h.ap.(ver := buf[0], ulen := buf[1]));
      if buf[1] > MAX_UNAME_LEN then Out(h1, buf[NHEADER..], [], Reject)
      else AuthUname(conf, h1.(readCount := h1.readCount + NHEADER), buf[NHEADER..])
  }

  function AuthHandle(conf: Config, h: Hs, buf: seq<byte>): Out {
    if h.readCount == 0 then AuthHeader(conf, h, buf)
    else if h.readCount == NHEADER then AuthUname(conf, h, buf)
    else if h.readCount == NHEADER + h.ap.ulen as int then AuthPlen(conf, h, buf)
    else if h.readCount == NHEADER + h.ap.ulen as int + 1 then AuthPasswd(conf, h, buf)
    else Out(h, buf, [], Abort)
  }

  // ----- tunnel_request_handle

  /** The last `n` address bytes and the port, and the end of the handshake. */
  function RequestTail(h: Hs, buf: seq<byte>, n: nat, reply: seq<byte>): Out
    requires n <= FIELD_LEN
  {
    if |buf| < n + NPORT then Out(h, buf, [], Proceed)
    else
      var rp := h.rp.(addr := Blit(h.rp.addr, buf[..n]), port := PortAt(buf, n));
      Out(h.(rp := rp, readCount := 0, state := ConnectedState), buf[n + NPORT..], reply, Proceed)
  }

  function RequestDomain(h: Hs, buf: seq<byte>, reply: seq<byte>): Out {
    RequestTail(h, buf, h.rp.domainlen, reply)
  }

  function RequestAddr(h: Hs, buf: seq<byte>, reply: seq<byte>): Out {
    if h.rp.atyp == ATYP_IPV4 then RequestTail(h, buf, NIPV4, reply)
    else if h.rp.atyp == ATYP_IPV6 then RequestTail(h, buf, NIPV6, reply)
    else if h.rp.atyp == ATYP_DOMAIN then
      if |buf| < 1 then Out(h, buf, [], Proceed)
      else RequestDomain(h.(rp := h.rp.(domainlen := buf[0]), readCount := h.readCount + 1), buf[1..], reply)
    else Out(h, buf, [], Reject)
  }

  function RequestHeader(h: Hs, buf: seq<byte>, reply: seq<byte>): Out {
    if |buf| < NREQHEADER then Out(h, buf, [], Proceed)
    else if buf[0] != VERSION then Out(h.(rp := h.rp.(ver := buf[0])), buf[1..], [], Reject)
    else if buf[1] != CMD_CONNECT then Out(h.(rp := h.rp.(ver := buf[0], cmd := buf[1])), buf[2..], [], Reject)
    else
      var rp := h.rp.(ver := buf[0], cmd := buf[1], rsv := buf[2], atyp := buf[3]);
      RequestAddr(h.(rp := rp, readCount := h.readCount + NREQHEADER), buf[NREQHEADER..], reply)
  }

  /** `reply` is what success appends: `tunnel_notify_connected` on the server, nothing on the client. */
  function RequestHandle(h: Hs, buf: seq<byte>, reply: seq<byte>): Out {
    if h.readCount == 0 then RequestHeader(h, buf, reply)
    else if h.readCount == NREQHEADER then RequestAddr(h, buf, reply)
    else if h.readCount == NREQHEADER + 1 then RequestDomain(h, buf, reply)
    else Out(h, buf, [], Abort)
  }

  /** `tunnel_notify_connected`. */
  function NotifyConnected(conf: Config): seq<byte> {
    DomainMessage(conf.host, conf.port)
  }

  /** The dispatch of `tunnel_read_handle` on a private socket that is still in its handshake. */
  predicate InHandshake(s: State) {
    s == OpenState || s == AuthState || s == RequestState
  }

  function Handle(conf: Config, h: Hs, buf: seq<byte>): Out
    requires InHandshake(h.state)
  {
    match h.state
    case OpenState => OpenHandle(conf, h, buf)
    case AuthState => AuthHandle(conf, h, buf)
    case RequestState => RequestHandle(h, buf, NotifyConnected(conf))
  }

  // ----- the state after a handler

  /** The state that a finished message leads to. */
  function Next(conf: Config, state: State): State {
    match state
    case OpenState => if conf.Auth() then AuthState else RequestState
    case AuthState => RequestState
    case _ => ConnectedState
  }

  /** A handler that refuses keeps the state and says nothing; one that goes on keeps the state or moves
      it one step forward. */
  predicate Advances(conf: Config, h: Hs, o: Out) {
    match o.verdict
    case Reject => o.h.state == h.state && o.reply == []
    case Proceed => o.h.state == h.state || o.h.state == Next(conf, h.state)
    case Abort => true
  }

  lemma OpenAdvances(conf: Config, h: Hs, buf: seq<byte>)
    requires h.state == OpenState
    ensures Advances(conf, h, OpenHandle(conf, h, buf))
  {
  }

  lemma PasswdAdvances(conf: Config, h: Hs, buf: seq<byte>)
    requires h.state == AuthState
    ensures Advances(conf, h, AuthPlen(conf, h, buf)) && Advances(conf, h, AuthPasswd(conf, h, buf))
  {
  }

  lemma UnameAdvances(conf: Config, h: Hs, buf: seq<byte>)
    requires h.state == AuthState
    ensures Advances(conf, h, AuthUname(conf, h, buf))
  {
    var n: nat := h.ap.ulen;
    if |buf| >= n {
      var h1 := h.(ap := h.ap.(uname := Blit(h.ap.uname, buf[..n])), readCount := h.readCount + n);
      PasswdAdvances(conf, h1, buf[n..]);
    }
  }

  lemma AuthAdvances(conf: Config, h: Hs, buf: seq<byte>)
    requires h.state == AuthState
    ensures Advances(conf, h, AuthHandle(conf, h, buf))
  {
    UnameAdvances(conf, h, buf);
    PasswdAdvances(conf, h, buf);
    if h.readCount == 0 && |buf| >= NHEADER {
      var h1 := h.(ap := h.ap.(ver := buf[0], ulen := buf[1]), readCount := NHEADER);
      UnameAdvances(conf, h1, buf[NHEADER..]);
    }
  }

  lemma AddressAdvances(conf: Config, h: Hs, buf: seq<byte>, reply: seq<byte>)
    requires h.state == RequestState
    ensures Advances(conf, h, RequestAddr(h, buf, reply)) && Advances(conf, h, RequestDomain(h, buf, reply))
  {
  }

  lemma HeaderAdvances(conf: Config, h: Hs, buf: seq<byte>, reply: seq<byte>)
    requires h.state == RequestState
    ensures Advances(conf, h, RequestHeader(h, buf, reply))
  {
    if |buf| >= NREQHEADER {
      var rp := h.rp.(ver := buf[0], cmd := buf[1], rsv := buf[2], atyp := buf[3]);
      AddressAdvances(conf, h.(rp := rp, readCount := h.readCount + NREQHEADER), buf[NREQHEADER..], reply);
    }
  }

  lemma RequestAdvances(conf: Config, h: Hs, buf: seq<byte>, reply: seq<byte>)
    requires h.state == RequestState
    ensures Advances(conf, h, RequestHandle(h, buf, reply))
  {
    HeaderAdvances(conf, h, buf, reply);
    AddressAdvances(conf, h, buf, reply);
  }

  lemma HandleAdvances(conf: Config, h: Hs, buf: seq<byte>)
    requires InHandshake(h.state)
    ensures Advances(conf, h, Handle(conf, h, buf))
  {
    match h.state
    case OpenState => OpenAdvances(conf, h, buf);
    case AuthState => AuthAdvances(conf, h, buf);
    case RequestState => RequestAdvances(conf, h, buf, NotifyConnected(conf));
  }

  /** Only `tunnel_open_handle` writes the greeting fields. */
  lemma GreetingFieldsStay(conf: Config, h: Hs, buf: seq<byte>, reply: seq<byte>)
    ensures h.state == AuthState ==> AuthHandle(conf, h, buf).h.op == h.op
    ensures h.state == RequestState ==> RequestHandle(h, buf, reply).h.op == h.op
  {
  }

  // ----- resume points

  /** The values of `read_count` a handler may leave behind, and what the fields then hold. */
  predicate Resumable(h: Hs) {
    match h.state
    case OpenState => h.readCount == 0 || h.readCount == NHEADER
    case AuthState =>
      || h.readCount == 0
      || (h.ap.ulen <= MAX_UNAME_LEN
          && (|| h.readCount == NHEADER
              || h.readCount == NHEADER + h.ap.ulen as int
              || (h.readCount == NHEADER + h.ap.ulen as int + 1 && h.ap.plen <= MAX_PASSWD_LEN)))
    case RequestState =>
      || h.readCount == 0
      || (h.readCount == NREQHEADER && (h.rp.atyp == ATYP_IPV4 || h.rp.atyp == ATYP_IPV6 || h.rp.atyp == ATYP_DOMAIN))
      || (h.readCount == NREQHEADER + 1 && h.rp.atyp == ATYP_DOMAIN)
    case _ => h.readCount == 0
  }

  /** Resume-point soundness, for one event.  `now` is the outcome on the bytes at hand, `resumed` what
      a later event makes of it when `c` arrives, `together` the outcome had `c` been there at once. */
  predicate Resumes(state: State, now: Out, resumed: Out, together: Out, c: seq<byte>) {
    match now.verdict
    case Abort => false
    case Reject => now.reply == [] && together.verdict == Reject && together.reply == []
    case Proceed =>
      && Resumable(now.h)
      && if now.h.state == state
         then now.reply == [] && resumed == together
         else now.h.readCount == 0 && together == Out(now.h, now.buf + c, now.reply, Proceed)
  }

  lemma Consumed(buf: seq<byte>, c: seq<byte>, n: nat)
    requires n <= |buf|
    ensures (buf + c)[..n] == buf[..n] && (buf + c)[n..] == buf[n..] + c
  {
  }

  lemma OpenMethodsResumes(conf: Config, h: Hs, buf: seq<byte>, c: seq<byte>)
    requires h.state == OpenState && h.readCount == NHEADER
    ensures var now := OpenMethods(conf, h, buf);
      Resumes(OpenState, now, OpenHandle(conf, now.h, now.buf + c), OpenMethods(conf, h, buf + c), c)
  {
    if |buf| >= h.op.nmethods as int {
      Consumed(buf, c, h.op.nmethods);
    }
  }

  lemma OpenResumes(conf: Config, h: Hs, buf: seq<byte>, c: seq<byte>)
    requires h.state == OpenState && Resumable(h)
    ensures var now := OpenHandle(conf, h, buf);
      Resumes(OpenState, now, OpenHandle(conf, now.h, now.buf + c), OpenHandle(conf, h, buf + c), c)
  {
    if h.readCount == NHEADER {
      OpenMethodsResumes(conf, h, buf, c);
    } else if |buf| >= NHEADER {
      Consumed(buf, c, NHEADER);
      var h1 := h.(op := h.op.(ver := buf[0], nmethods := buf[1]), readCount := NHEADER);
      OpenMethodsResumes(conf, h1, buf[NHEADER..], c);
    }
  }

  lemma AuthPasswdResumes(conf: Config, h: Hs, buf: seq<byte>, c: seq<byte>)
    requires h.state == AuthState && Resumable(h) && h.readCount == NHEADER + h.ap.ulen as int + 1
    ensures var now := AuthPasswd(conf, h, buf);
      Resumes(AuthState, now, AuthHandle(conf, now.h, now.buf + c), AuthPasswd(conf, h, buf + c), c)
  {
    if |buf| >= h.ap.plen as int {
      Consumed(buf, c, h.ap.plen);
    }
  }

  /** With an empty user name the labels `uname` and `plen` share one `read_count`; taking the first
      is as good as taking the second. */
  lemma UnameAndPlenCoincide(conf: Config, h: Hs, buf: seq<byte>)
    requires h.ap.ulen == 0
    ensures AuthUname(conf, h, buf) == AuthPlen(conf, h, buf)
  {
    assert Blit(h.ap.uname, buf[..0]) == h.ap.uname && buf[0..] == buf;
  }

  lemma AuthPlenResumes(conf: Config, h: Hs, buf: seq<byte>, c: seq<byte>)
    requires h.state == AuthState && h.ap.ulen <= MAX_UNAME_LEN && h.readCount == NHEADER + h.ap.ulen as int
    ensures var now := AuthPlen(conf, h, buf);
      Resumes(AuthState, now, AuthHandle(conf, now.h, now.buf + c), AuthPlen(conf, h, buf + c), c)
  {
    if |buf| >= 1 {
      Consumed(buf, c, 1);
      if buf[0] <= MAX_PASSWD_LEN {
        AuthPasswdResumes(conf, h.(ap := h.ap.(plen := buf[0]), readCount := h.readCount + 1), buf[1..], c);
      }
    } else if h.ap.ulen == 0 {
      UnameAndPlenCoincide(conf, h, buf + c);
    }
  }

  lemma AuthUnameResumes(conf: Config, h: Hs, buf: seq<byte>, c: seq<byte>)
    requires h.state == AuthState && h.ap.ulen <= MAX_UNAME_LEN && h.readCount == NHEADER
    ensures var now := AuthUname(conf, h, buf);
      Resumes(AuthState, now, AuthHandle(conf, now.h, now.buf + c), AuthUname(conf, h, buf + c), c)
  {
    var n: nat := h.ap.ulen;
    if |buf| >= n {
      Consumed(buf, c, n);
      var h1 := h.(ap := h.ap.(uname := Blit(h.ap.uname, buf[..n])), readCount := h.readCount + n);
      AuthPlenResumes(conf, h1, buf[n..], c);
    }
  }

  lemma AuthResumes(conf: Config, h: Hs, buf: seq<byte>, c: seq<byte>)
    requires h.state == AuthState && Resumable(h)
    ensures var now := AuthHandle(conf, h, buf);
      Resumes(AuthState, now, AuthHandle(conf, now.h, now.buf + c), AuthHandle(conf, h, buf + c), c)
  {
    if h.readCount == 0 {
      if |buf| >= NHEADER {
        Consumed(buf, c, NHEADER);
        if buf[1] <= MAX_UNAME_LEN {
          var h1 := h.(ap := h.ap.(ver := buf[0], ulen := buf[1]), readCount := NHEADER);
          AuthUnameResumes(conf, h1, buf[NHEADER..], c);
        }
      }
    } else if h.readCount == NHEADER {
      AuthUnameResumes(conf, h, buf, c);
    } else if h.readCount == NHEADER + h.ap.ulen as int {
      AuthPlenResumes(conf, h, buf, c);
    } else {
      AuthPasswdResumes(conf, h, buf, c);
    }
  }

  lemma RequestTailResumes(h: Hs, buf: seq<byte>, n: nat, reply: seq<byte>, c: seq<byte>)
    requires h.state == RequestState && Resumable(h) && n <= FIELD_LEN
    requires
      || (h.readCount == NREQHEADER && h.rp.atyp == ATYP_IPV4 && n == NIPV4)
      || (h.readCount == NREQHEADER && h.rp.atyp == ATYP_IPV6 && n == NIPV6)
      || (h.readCount == NREQHEADER + 1 && n == h.rp.domainlen)
    ensures var now := RequestTail(h, buf, n, reply);
      Resumes(RequestState, now, RequestHandle(now.h, now.buf + c, reply), RequestTail(h, buf + c, n, reply), c)
  {
    if |buf| >= n + NPORT {
      Consumed(buf, c, n);
      Consumed(buf, c, n + NPORT);
    }
  }

  lemma RequestAddrResumes(h: Hs, buf: seq<byte>, reply: seq<byte>, c: seq<byte>)
    requires h.state == RequestState && h.readCount == NREQHEADER
    ensures var now := RequestAddr(h, buf, reply);
      Resumes(RequestState, now, RequestHandle(now.h, now.buf + c, reply), RequestAddr(h, buf + c, reply), c)
  {
    if h.rp.atyp == ATYP_DOMAIN {
      if |buf| >= 1 {
        Consumed(buf, c, 1);
        var h1 := h.(rp := h.rp.(domainlen := buf[0]), readCount := h.readCount + 1);
        RequestTailResumes(h1, buf[1..], buf[0], reply, c);
      }
    } else if h.rp.atyp == ATYP_IPV4 || h.rp.atyp == ATYP_IPV6 {
      RequestTailResumes(h, buf, if h.rp.atyp == ATYP_IPV4 then NIPV4 else NIPV6, reply, c);
    }
  }

  lemma RequestHeaderResumes(h: Hs, buf: seq<byte>, reply: seq<byte>, c: seq<byte>)
    requires h.state == RequestState && h.readCount == 0
    ensures var now := RequestHeader(h, buf, reply);
      Resumes(RequestState, now, RequestHandle(now.h, now.buf + c, reply), RequestHeader(h, buf + c, reply), c)
  {
    if |buf| >= NREQHEADER {
      Consumed(buf, c, NREQHEADER);
      if buf[0] == VERSION && buf[1] == CMD_CONNECT {
        var rp := h.rp.(ver := buf[0], cmd := buf[1], rsv := buf[2], atyp := buf[3]);
        RequestAddrResumes(h.(rp := rp, readCount := NREQHEADER), buf[NREQHEADER..], reply, c);
      }
    }
  }

  lemma RequestResumes(h: Hs, buf: seq<byte>, reply: seq<byte>, c: seq<byte>)
    requires h.state == RequestState && Resumable(h)
    ensures var now := RequestHandle(h, buf, reply);
      Resumes(RequestState, now, RequestHandle(now.h, now.buf + c, reply), RequestHandle(h, buf + c, reply), c)
  {
    if h.readCount == NREQHEADER {
      RequestAddrResumes(h, buf, reply, c);
    } else if h.readCount == NREQHEADER + 1 {
      RequestTailResumes(h, buf, h.rp.domainlen, reply, c);
    } else {
      RequestHeaderResumes(h, buf, reply, c);
    }
  }

  /** Resume-point soundness for the dispatch as a whole: `assert(0)` is not reached, and stopping at
      any point of a message and resuming later is the same as having had all bytes at once. */
  lemma HandleResumes(conf: Config, h: Hs, buf: seq<byte>, c: seq<byte>)
    requires InHandshake(h.state) && Resumable(h)
    ensures var now := Handle(conf, h, buf);
      var resumed := if InHandshake(now.h.state) then Handle(conf, now.h, now.buf + c) else now;
      Resumes(h.state, now, resumed, Handle(conf, h, buf + c), c)
  {
    match h.state
    case OpenState => OpenResumes(conf, h, buf, c);
    case AuthState => AuthResumes(conf, h, buf, c);
    case RequestState => RequestResumes(h, buf, NotifyConnected(conf), c);
  }
}
