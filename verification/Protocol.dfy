/** The three client messages as a grammar: a parser that sees the whole stream at once, and the
    encoders both programs use.  Sections 3 to 5 of RFC 1928 and section 2 of RFC 1929, with the
    limits and omissions of `socks5.c`. */
module Protocol {
  import opened Common

  const VERSION: byte := 0x05
  const CMD_CONNECT: byte := 0x01
  const ATYP_IPV4: byte := 0x01
  const ATYP_DOMAIN: byte := 0x03
  const ATYP_IPV6: byte := 0x04
  const NIPV4: nat := 4
  const NIPV6: nat := 16
  const NPORT: nat := 2
  const MAX_UNAME_LEN: nat := 20
  const MAX_PASSWD_LEN: nat := 20

  datatype Greeting = Greeting(methods: seq<byte>)
  datatype Login = Login(ver: byte, uname: seq<byte>, passwd: seq<byte>)

  datatype Address = Ipv4(ip: seq<byte>) | Ipv6(ip: seq<byte>) | Domain(name: seq<byte>)
  datatype Request = Request(rsv: byte, address: Address, port: nat)

  /** More: the bytes so far are a proper prefix.  Bad: no continuation is accepted. */
  datatype Parse<+T> = More | Bad | Got(msg: T, rest: seq<byte>) {
    predicate IsFailure() {
      !Got?
    }

    function PropagateFailure<U>(): Parse<U>
      requires !Got?
    {
      if Bad? then Bad else More
    }

    function Extract(): T
      requires Got?
    {
      msg
    }
  }

  function ParseGreeting(b: seq<byte>): Parse<Greeting> {
    if |b| < 2 then More
    else if b[0] != VERSION then Bad
    else
      var end := 2 + b[1] as int;
      if |b| < end then More else Got(Greeting(b[2..end]), b[end..])
  }

  /** The sub-negotiation version `b[0]` is not checked. */
  function ParseLogin(b: seq<byte>): Parse<Login> {
    if |b| < 2 then More
    else if b[1] > MAX_UNAME_LEN then Bad
    else
      var plen := 2 + b[1] as int;
      if |b| <= plen then More
      else if b[plen] > MAX_PASSWD_LEN then Bad
      else
        var end := plen + 1 + b[plen] as int;
        if |b| < end then More else Got(Login(b[0], b[2..plen], b[plen + 1..end]), b[end..])
  }

  function PortAt(b: seq<byte>, i: nat): nat
    requires i + NPORT <= |b|
  {
    b[i] as int * 256 + b[i + 1] as int
  }

  /** `n` address bytes from offset `i`, the port behind them, and what follows. */
  function AddressAndPort(b: seq<byte>, i: nat, n: nat): Parse<(seq<byte>, nat, seq<byte>)> {
    if |b| < i + n + NPORT then More
    else Got((b[i..i + n], PortAt(b, i + n), b[i + n + NPORT..]), [])
  }

  /** The reserved byte is not checked, and only CONNECT is supported. */
  function ParseRequest(b: seq<byte>): Parse<Request> {
    if |b| < 4 then More
    else if b[0] != VERSION || b[1] != CMD_CONNECT then Bad
    else if b[3] == ATYP_IPV4 then
      var (ip, port, rest) :- AddressAndPort(b, 4, NIPV4);
      Got(Request(b[2], Ipv4(ip), port), rest)
    else if b[3] == ATYP_IPV6 then
      var (ip, port, rest) :- AddressAndPort(b, 4, NIPV6);
      Got(Request(b[2], Ipv6(ip), port), rest)
    else if b[3] == ATYP_DOMAIN then
      if |b| < 5 then More
      else
        var (name, port, rest) :- AddressAndPort(b, 5, b[4]);
        Got(Request(b[2], Domain(name), port), rest)
    else Bad
  }

  // ----- the grammar in bytes

  lemma GreetingVerdicts(b: seq<byte>)
    ensures ParseGreeting(b).Bad? <==> |b| >= 2 && b[0] != 5
    ensures ParseGreeting(b).Got? <==> |b| >= 2 && b[0] == 5 && |b| >= 2 + b[1] as int
    ensures ParseGreeting(b).Got? ==> ParseGreeting(b) == Got(Greeting(b[2..2 + b[1]]), b[2 + b[1]..])
  {
  }

  /** No name and no password is longer than 20. */
  lemma LoginVerdicts(b: seq<byte>)
    ensures ParseLogin(b).Bad? <==> |b| >= 2 && (b[1] > 20 || (|b| >= 3 + b[1] as int && b[2 + b[1]] > 20))
    ensures ParseLogin(b).Got? <==>
      && |b| >= 2 && b[1] <= 20 && |b| >= 3 + b[1] as int && b[2 + b[1]] <= 20
      && |b| >= 3 + b[1] as int + b[2 + b[1]] as int
    ensures ParseLogin(b).Got? ==>
      var n := 2 + b[1] as int; var end := n + 1 + b[n] as int;
      ParseLogin(b) == Got(Login(b[0], b[2..n], b[n + 1..end]), b[end..])
  {
  }

  /** The length of a request of address type `b[3]`: 4 bytes for type 1, 16 for type 4, a counted name for
      type 3. */
  lemma RequestVerdicts(b: seq<byte>)
    ensures ParseRequest(b).Bad? <==>
      |b| >= 4 && (b[0] != 5 || b[1] != 1 || (b[3] != 1 && b[3] != 3 && b[3] != 4))
    ensures ParseRequest(b).Got? <==>
      && |b| >= 4 && b[0] == 5 && b[1] == 1
      && (|| (b[3] == 1 && |b| >= 10)
          || (b[3] == 4 && |b| >= 22)
          || (b[3] == 3 && |b| >= 5 && |b| >= 7 + b[4] as int))
  {
  }

  /** Where a request keeps its address and its port, the high byte first. */
  lemma RequestContents(b: seq<byte>)
    requires ParseRequest(b).Got?
    ensures var Got(q, rest) := ParseRequest(b);
      && q.rsv == b[2]
      && match b[3]
         case 1 => q.address == Ipv4(b[4..8]) && q.port == b[8] as int * 256 + b[9] as int && rest == b[10..]
         case 4 => q.address == Ipv6(b[4..20]) && q.port == b[20] as int * 256 + b[21] as int && rest == b[22..]
         case _ =>
           var n := 5 + b[4] as int;
           q.address == Domain(b[5..n]) && q.port == b[n] as int * 256 + b[n + 1] as int && rest == b[n + 2..]
  {
    RequestVerdicts(b);
  }

  // ----- stability

  /** A verdict once reached is not changed by more bytes; they only lengthen the rest. */
  predicate Stable<T(==)>(now: Parse<T>, later: Parse<T>, c: seq<byte>) {
    match now
    case More => true
    case Bad => later.Bad?
    case Got(msg, rest) => later == Got(msg, rest + c)
  }

  lemma Extended(b: seq<byte>, c: seq<byte>, i: nat, j: nat)
    requires i <= j <= |b|
    ensures (b + c)[i..j] == b[i..j] && (b + c)[j..] == b[j..] + c
  {
  }

  lemma GreetingIsStable(b: seq<byte>, c: seq<byte>)
    ensures Stable(ParseGreeting(b), ParseGreeting(b + c), c)
  {
    if |b| >= 2 && |b| >= 2 + b[1] as int {
      Extended(b, c, 2, 2 + b[1] as int);
    }
  }

  lemma LoginIsStable(b: seq<byte>, c: seq<byte>)
    ensures Stable(ParseLogin(b), ParseLogin(b + c), c)
  {
    if ParseLogin(b).Got? {
      var plen := 2 + b[1] as int;
      Extended(b, c, 2, plen);
      Extended(b, c, plen + 1, plen + 1 + b[plen] as int);
    }
  }

  lemma AddressIsStable(b: seq<byte>, c: seq<byte>, i: nat, n: nat)
    ensures AddressAndPort(b, i, n).Got? ==>
              var (addr, port, rest) := AddressAndPort(b, i, n).msg;
              AddressAndPort(b + c, i, n) == Got((addr, port, rest + c), [])
  {
    if |b| < i + n + NPORT {
      return;
    }
    Extended(b, c, i, i + n);
    Extended(b, c, i + n + NPORT, i + n + NPORT);
  }

  lemma RequestIsStable(b: seq<byte>, c: seq<byte>)
    ensures Stable(ParseRequest(b), ParseRequest(b + c), c)
  {
    if |b| >= 4 {
      AddressIsStable(b, c, 4, if b[3] == ATYP_IPV4 then NIPV4 else NIPV6);
      if |b| >= 5 {
        AddressIsStable(b, c, 5, b[4]);
      }
    }
  }

  // ----- encoders

  predicate ValidRequest(q: Request) {
    && q.port < 0x1_0000
    && match q.address
       case Ipv4(ip) => |ip| == NIPV4
       case Ipv6(ip) => |ip| == NIPV6
       case Domain(name) => |name| < 256
  }

  /** `htons` followed by a copy of the two bytes. */
  function PortBytes(port: nat): (b: seq<byte>)
    requires port < 0x1_0000
    ensures |b| == NPORT
  {
    [port / 256, port % 256]
  }

  function EncodeRequest(q: Request): seq<byte>
    requires ValidRequest(q)
  {
    match q.address
    case Ipv4(ip) => [VERSION, CMD_CONNECT, q.rsv, ATYP_IPV4] + ip + PortBytes(q.port)
    case Ipv6(ip) => [VERSION, CMD_CONNECT, q.rsv, ATYP_IPV6] + ip + PortBytes(q.port)
    case Domain(name) => [VERSION, CMD_CONNECT, q.rsv, ATYP_DOMAIN, |name|] + name + PortBytes(q.port)
  }

  /** The two `tunnel_write_client` calls of `tunnel_write_request` and `tunnel_notify_connected`:
      the first `5 + domainlen` bytes of a `request_protocol_t`, then its port. */
  function DomainMessage(name: seq<byte>, port: nat): (b: seq<byte>)
    requires |name| < 256 && port < 0x1_0000
  {
    [VERSION, CMD_CONNECT, 0x00, ATYP_DOMAIN, |name|] + name + PortBytes(port)
  }

  function EncodeGreeting(g: Greeting): seq<byte>
    requires |g.methods| < 256
  {
    [VERSION, |g.methods|] + g.methods
  }

  function EncodeLogin(l: Login): seq<byte>
    requires |l.uname| < 256 && |l.passwd| < 256
  {
    [l.ver, |l.uname|] + l.uname + [|l.passwd|] + l.passwd
  }

  // ----- round trips

  /** Behind any header, the address and the port are found where they were put. */
  lemma AddressParses(head: seq<byte>, addr: seq<byte>, port: nat, rest: seq<byte>)
    requires port < 0x1_0000
    ensures AddressAndPort(head + addr + PortBytes(port) + rest, |head|, |addr|) == Got((addr, port, rest), [])
  {
    var b, i := head + addr + PortBytes(port) + rest, |head| + |addr|;
    assert b[|head|..i] == addr;
    assert b[i] == port / 256 && b[i + 1] == port % 256;
    assert b[i + NPORT..] == rest;
  }

  /** What was encoded is parsed back, and parsing stops at its last byte. */
  lemma RequestRoundTrip(q: Request, rest: seq<byte>)
    requires ValidRequest(q)
    ensures ParseRequest(EncodeRequest(q) + rest) == Got(q, rest)
  {
    var b := EncodeRequest(q) + rest;
    match q.address
    case Ipv4(ip) =>
      AddressParses([VERSION, CMD_CONNECT, q.rsv, ATYP_IPV4], ip, q.port, rest);
      assert AddressAndPort(b, 4, NIPV4) == Got((ip, q.port, rest), []);
    case Ipv6(ip) =>
      AddressParses([VERSION, CMD_CONNECT, q.rsv, ATYP_IPV6], ip, q.port, rest);
      assert AddressAndPort(b, 4, NIPV6) == Got((ip, q.port, rest), []);
    case Domain(name) =>
      AddressParses([VERSION, CMD_CONNECT, q.rsv, ATYP_DOMAIN, |name|], name, q.port, rest);
      assert b[4] == |name| && AddressAndPort(b, 5, |name|) == Got((name, q.port, rest), []);
  }

  /** The message both programs write is the request for its name and port, and 7 + domainlen long. */
  lemma DomainMessageRoundTrip(name: seq<byte>, port: nat, rest: seq<byte>)
    requires |name| < 256 && port < 0x1_0000
    ensures ParseRequest(DomainMessage(name, port) + rest) == Got(Request(0, Domain(name), port), rest)
    ensures |DomainMessage(name, port)| == 7 + |name|
  {
    RequestRoundTrip(Request(0, Domain(name), port), rest);
  }

  lemma PortBytesOf(hi: byte, lo: byte)
    ensures PortBytes(hi as int * 256 + lo as int) == [hi, lo]
  {
  }

  lemma AddressReencodes(b: seq<byte>, i: nat, n: nat)
    requires AddressAndPort(b, i, n).Got?
    ensures var (addr, port, rest) := AddressAndPort(b, i, n).msg;
      port < 0x1_0000 && b[..i] + addr + PortBytes(port) + rest == b
  {
    PortBytesOf(b[i + n], b[i + n + 1]);
    assert b == b[..i] + b[i..i + n] + b[i + n..i + n + NPORT] + b[i + n + NPORT..];
  }

  /** Re-encoding what was parsed reproduces the consumed prefix. */
  lemma RequestReencodes(b: seq<byte>)
    requires ParseRequest(b).Got?
    ensures var Got(q, rest) := ParseRequest(b); ValidRequest(q) && EncodeRequest(q) + rest == b
  {
    var q := ParseRequest(b).msg;
    if q.address.Domain? {
      AddressReencodes(b, 5, b[4]);
      assert b[..5] == [VERSION, CMD_CONNECT, q.rsv, ATYP_DOMAIN, |q.address.name|];
    } else {
      AddressReencodes(b, 4, if q.address.Ipv4? then NIPV4 else NIPV6);
      assert b[..4] == [VERSION, CMD_CONNECT, q.rsv, if q.address.Ipv4? then ATYP_IPV4 else ATYP_IPV6];
    }
  }

  lemma GreetingRoundTrip(b: seq<byte>, g: Greeting, rest: seq<byte>)
    requires |g.methods| < 256
    ensures ParseGreeting(b) == Got(g, rest) <==> b == EncodeGreeting(g) + rest
  {
    var e := EncodeGreeting(g) + rest;
    assert e[2..2 + |g.methods|] == g.methods && e[2 + |g.methods|..] == rest;
    if ParseGreeting(b) == Got(g, rest) {
      assert b == b[..2] + b[2..2 + b[1]] + b[2 + b[1]..];
    }
  }

  lemma EncodedLoginParses(l: Login, rest: seq<byte>)
    requires |l.uname| <= MAX_UNAME_LEN && |l.passwd| <= MAX_PASSWD_LEN
    ensures ParseLogin(EncodeLogin(l) + rest) == Got(l, rest)
  {
    var e, p := EncodeLogin(l) + rest, 2 + |l.uname|;
    assert e[0] == l.ver && e[1] == |l.uname| && e[2..p] == l.uname && e[p] == |l.passwd|;
    assert e[p + 1..p + 1 + |l.passwd|] == l.passwd && e[p + 1 + |l.passwd|..] == rest;
  }

  lemma LoginReencodes(b: seq<byte>)
    requires ParseLogin(b).Got?
    ensures var Got(l, rest) := ParseLogin(b); |l.uname| < 256 && |l.passwd| < 256 && EncodeLogin(l) + rest == b
  {
    var l, p := ParseLogin(b).msg, 2 + b[1] as int;
    var end := p + 1 + b[p] as int;
    assert b[..2] == [l.ver, |l.uname|] && b[p..p + 1] == [|l.passwd|];
    assert b == b[..2] + b[2..p] + b[p..p + 1] + b[p + 1..end] + b[end..];
  }

  lemma LoginRoundTrip(b: seq<byte>, l: Login, rest: seq<byte>)
    requires |l.uname| <= MAX_UNAME_LEN && |l.passwd| <= MAX_PASSWD_LEN
    ensures ParseLogin(b) == Got(l, rest) <==> b == EncodeLogin(l) + rest
  {
    EncodedLoginParses(l, rest);
    if ParseLogin(b).Got? {
      LoginReencodes(b);
    }
  }
}
