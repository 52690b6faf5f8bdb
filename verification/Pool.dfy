/** The server of `socks5.c` as a state machine: its heap as two maps from pointers to records, its
    two lists, and one function per C function.  `None` means that the program fails: it follows a
    NULL or freed pointer or hits an `assert(0)`. */
module Pool {
  import opened Common
  import opened Handshake
  import opened Objects

  /** `socks` holds the sockets that are not yet released; tunnels are never freed.  A list starts at
      its head, so new entries are in front. */
  datatype World = World(conf: Config, socks: map<Sock, SockData>, tuns: map<Tunnel, TunnelData>,
                         app: seq<Tunnel>, wait: seq<Tunnel>)

  function Start(conf: Config): World {
    World(conf, map[], map[], [], [])
  }

  /** What `read` and `write` on a descriptor may answer. */
  datatype ReadResult = Data(bytes: seq<byte>) | ReadAgain | Fin | ReadError
  datatype WriteResult = Wrote(n: nat) | WriteAgain | WriteError

  /** One event of `server_start`.  `ns` and `nt` are the objects that `malloc` may return. */
  datatype Event =
    | AcceptPrivate(ns: Sock, nt: Tunnel)
    | AcceptRemote(ns: Sock, nt: Tunnel)
    | Read(s: Sock, got: ReadResult)
    | Write(s: Sock, put: WriteResult, nt: Tunnel)
    | Pair

  function PutSock(w: World, s: Sock, d: SockData): World {
    w.(socks := w.socks[s := d])
  }

  function PutTun(w: World, t: Tunnel, d: TunnelData): World {
    w.(tuns := w.tuns[t := d])
  }

  function Poll(d: SockData, writable: bool, readable: bool): SockData {
    d.(pollOut := writable, pollIn := readable)
  }

  /** The tunnel a live socket points to. */
  predicate Known(w: World, s: Sock) {
    s in w.socks && w.socks[s].tunnel in w.tuns
  }

  // ----- searches: AppListFnd and waitListFnd with the comparators

  /** `appCompare`, `appCompare1` and `waitCompare`: the place of the first tunnel with this status. */
  function FindStatus(tuns: map<Tunnel, TunnelData>, l: seq<Tunnel>, st: Status): (k: nat)
    ensures k <= |l|
    ensures forall i :: 0 <= i < k ==> !(l[i] in tuns && tuns[l[i]].status == st)
    ensures k < |l| ==> l[k] in tuns && tuns[l[k]].status == st
  {
    if l == [] || (l[0] in tuns && tuns[l[0]].status == st) then 0 else 1 + FindStatus(tuns, l[1..], st)
  }

  /** `waitCompare2` accepts: waiting, or alive with unread input.  (An alive entry without a remote would
      be a NULL access; no run has one.) */
  predicate Pairable(w: World, t: Tunnel) {
    && t in w.tuns
    && (|| w.tuns[t].status == TmptunWait
        || (w.tuns[t].status == TmptunAlive && w.tuns[t].remote in w.socks && w.socks[w.tuns[t].remote].rbuf != []))
  }

  function FindPairable(w: World, l: seq<Tunnel>): (k: nat)
    ensures k <= |l|
    ensures forall i :: 0 <= i < k ==> !Pairable(w, l[i])
    ensures k < |l| ==> Pairable(w, l[k])
  {
    if l == [] || Pairable(w, l[0]) then 0 else 1 + FindPairable(w, l[1..])
  }

  // ----- closing

  /** `sock_release`. */
  function SockRelease(w: World, s: Sock): Option<World> {
    if !Known(w, s) then None
    else
      var d := w.socks[s];
      var td := w.tuns[d.tunnel];
      var td1 := if d.ispriv then td.(priv := null) else td.(remote := null);
      Some(PutTun(w.(socks := w.socks - {s}), d.tunnel, td1))
  }

  /** `sock_force_shutdown`. */
  function SockForceShutdown(w: World, s: Sock): Option<World> {
    if !Known(w, s) then None
    else
      var t := w.socks[s].tunnel;
      var td := w.tuns[t];
      var td1 :=
        if td.status == TmptunClose then td.(status := TmptunFree, remote := null)
        else if s == td.remote then td.(status := TunnIdle, remote := null)
        else td;
      SockRelease(PutTun(w, t, td1), s)
  }

  /** Its first part: what the private side has left goes to a closing remote side.  The private
      buffer is not cleared. */
  function ForwardLeft(w: World, s: Sock, t: Tunnel): (r: Option<World>)
    requires s in w.socks && t in w.tuns
    ensures r.Some? ==> s in r.value.socks
  {
    var td := w.tuns[t];
    if td.hs.state != ConnectedState then Some(w)
    else if td.priv !in w.socks then None
    else
      var left := w.socks[td.priv].rbuf;
      if left != [] && s == td.remote then Some(PutSock(w, s, w.socks[s].(wbuf := w.socks[s].wbuf + left)))
      else Some(w)
  }

  function SetClosed(w: World, t: Tunnel, st: Status): Option<World> {
    if t in w.tuns then Some(PutTun(w, t, w.tuns[t].(status := st, remote := null))) else None
  }

  function ClosePrivate(w: World, s: Sock, t: Tunnel): Option<World> {
    if t !in w.tuns then None
    else if s != w.tuns[t].priv then Some(w)
    else
      var w1 :- SockForceShutdown(w, s);
      if t !in w1.tuns then None
      else
        var w2 := PutTun(w1, t, w1.tuns[t].(status := TunnFree, priv := null));
        var r := w2.tuns[t].remote;
        if r == null then Some(w2)
        else
          var w3 :- SockForceShutdown(w2, r);
          if t in w3.tuns then Some(PutTun(w3, t, w3.tuns[t].(remote := null))) else None
  }

  function CloseRemote(w: World, s: Sock, t: Tunnel): Option<World> {
    if t !in w.tuns then None
    else if s != w.tuns[t].remote then Some(w)
    else if w.tuns[t].hs.state == ConnectedState then
      var w1 :- SockForceShutdown(w, s);
      SetClosed(w1, t, TunnIdle)
    else if w.tuns[t].hs.state == WaittingState then
      var w1 :- SockForceShutdown(w, s);
      SetClosed(w1, t, TmptunFree)
    else Some(w)
  }

  /** Its last part, when nothing is left to be written. */
  function CloseDrained(w: World, s: Sock, t: Tunnel): Option<World> {
    var w1 :- ClosePrivate(w, s, t);
    var w2 :- CloseRemote(w1, s, t);
    if t !in w2.tuns then None
    else if w2.tuns[t].status != TmptunClose then Some(w2)
    else
      var w3 :- SockForceShutdown(w2, s);
      SetClosed(w3, t, TmptunFree)
  }

  /** `sock_shutdown`. */
  function SockShutdown(w: World, s: Sock): Option<World> {
    if !Known(w, s) then None
    else
      var t := w.socks[s].tunnel;
      var w1 :- ForwardLeft(PutSock(w, s, w.socks[s].(state := SockHalfclosed)), s, t);
      if w1.socks[s].wbuf != [] then Some(PutSock(w1, s, Poll(w1.socks[s], true, false)))
      else CloseDrained(w1, s, t)
  }

  /** `tunnel_shutdown`. */
  function TunnelShutdown(w: World, t: Tunnel, s: Sock): Option<World> {
    if t !in w.tuns then None
    else
      var w1 :- if s == w.tuns[t].priv then SockShutdown(w, s) else Some(w);
      if t !in w1.tuns then None
      else if s == w1.tuns[t].remote then SockShutdown(w1, s)
      else Some(w1)
  }

  // ----- reading

  /** `buff_concat`, `buff_clear`, `epoll_modify`. */
  function Forward(w: World, from: Sock?, to: Sock?): Option<World> {
    if from !in w.socks || to !in w.socks then None
    else
      var w1 := PutSock(w, to, w.socks[to].(wbuf := w.socks[to].wbuf + w.socks[from].rbuf));
      var w2 := PutSock(w1, from, w1.socks[from].(rbuf := []));
      Some(PutSock(w2, to, Poll(w2.socks[to], true, true)))
  }

  /** `tunnel_connected_handle`: all unread input of the side that woke moves to the tail of the other
      side's write buffer.  The flag is false where the C function returns -1. */
  function ConnectedHandle(w: World, t: Tunnel, s: Sock): Option<(World, bool)> {
    if t !in w.tuns || s !in w.socks then None
    else
      var td := w.tuns[t];
      if w.socks[s].ispriv then
        if td.remote == null then Some((w, false))
        else if w.socks[s].rbuf == [] then Some((w, true))
        else
          var w1 :- Forward(w, td.priv, td.remote);
          Some((w1, true))
      else if td.priv == null then Some((w, false))
      else if w.socks[s].rbuf == [] then Some((w, true))
      else
        var w1 :- Forward(w, td.remote, td.priv);
        Some((w1, true))
  }

  const STATUS_LINE := "HTTP/1.1 200 OK\r\n"
  const RESPONSE_HEAD := STATUS_LINE + "Content-Type: text/plain\r\nConnection: close\r\n\r\n"
  const RESPONSE_TEXT := "Regrettably, we are still waiting for the alien spaceship to arrive."

  const RESPONSE: seq<byte> := Ascii(RESPONSE_HEAD) + Ascii(RESPONSE_TEXT)

  /** The answer starts with the status line, and an empty line stands before its text. */
  lemma ResponseIsHttp()
    ensures [72, 84, 84, 80, 47, 49, 46, 49, 32, 50, 48, 48, 32, 79, 75, 13, 10] <= RESPONSE
    ensures var n := |RESPONSE_HEAD|;
      n > 4 && RESPONSE[n - 4..n] == [13, 10, 13, 10] && |RESPONSE[n..]| == |RESPONSE_TEXT|
  {
    var head, text := Ascii(RESPONSE_HEAD), Ascii(RESPONSE_TEXT);
    var status: seq<byte> := [72, 84, 84, 80, 47, 49, 46, 49, 32, 50, 48, 48, 32, 79, 75, 13, 10];
    assert |STATUS_LINE| == |status| && Ascii(STATUS_LINE) == status;
    assert forall i :: 0 <= i < |STATUS_LINE| ==> RESPONSE_HEAD[i] == STATUS_LINE[i];
    assert forall i :: 0 <= i < |status| ==> head[i] == Ascii(STATUS_LINE)[i];
    assert forall i :: 0 <= i < |head| ==> RESPONSE[i] == head[i];
    assert RESPONSE[|head|..] == text;
  }

  /** `tunnel_waitting_handle`: a parked remote that speaks is answered and marked for closing. */
  function WaittingHandle(w: World, t: Tunnel): Option<World> {
    if t !in w.tuns then None
    else
      var r := w.tuns[t].remote;
      if r == null then Some(w)
      else if r !in w.socks then None
      else
        var d := w.socks[r].(wbuf := w.socks[r].wbuf + RESPONSE, rbuf := []);
        Some(PutTun(PutSock(w, r, Poll(d, true, true)), t, w.tuns[t].(status := TmptunClose)))
  }

  /** The fields, buffers and interest a handler leaves, and the status a finished request sets. */
  function AfterHandler(w: World, t: Tunnel, o: Out): World
    requires t in w.tuns && w.tuns[t].priv in w.socks
  {
    var td := w.tuns[t];
    var d := w.socks[td.priv];
    var d1 := d.(rbuf := o.buf, wbuf := d.wbuf + o.reply);
    var st := if td.hs.state == RequestState && o.h.state != RequestState then TunnIdle else td.status;
    PutTun(PutSock(w, td.priv, if o.reply == [] then d1 else Poll(d1, true, true)), t, td.(hs := o.h, status := st))
  }

  /** The three handshake handlers on the tunnel's private socket. */
  function HandshakeHandle(w: World, t: Tunnel, s: Sock): Option<World>
    requires t in w.tuns && InHandshake(w.tuns[t].hs.state)
  {
    var td := w.tuns[t];
    if td.priv !in w.socks then None
    else
      var d := w.socks[td.priv];
      var o := Handle(w.conf, td.hs, d.rbuf);
      var w1 := AfterHandler(w, t, o);
      match o.verdict
      case Proceed => Some(w1)
      case Reject => SockForceShutdown(w1, s)
      case Abort => None
  }

  /** The dispatch of `tunnel_read_handle`.  No server function sets `connecting_state`. */
  function Dispatch(w: World, s: Sock): Option<World> {
    if !Known(w, s) then None
    else
      var t := w.socks[s].tunnel;
      match w.tuns[t].hs.state
      case ConnectingState => None
      case ConnectedState =>
        var (w1, ok) :- ConnectedHandle(w, t, s);
        if ok then Some(w1) else TunnelShutdown(w1, t, s)
      case WaittingState => WaittingHandle(w, t)
      case _ => HandshakeHandle(w, t, s)
  }

  /** `tunnel_read_handle`. */
  function ReadHandle(w: World, s: Sock, got: ReadResult): Option<World> {
    if s !in w.socks then None
    else
      match got
      case Data(bytes) => Dispatch(PutSock(w, s, w.socks[s].(rbuf := w.socks[s].rbuf + bytes)), s)
      case ReadAgain => Dispatch(w, s)
      case _ => SockShutdown(w, s)
  }

  // ----- writing

  /** `getWaitobjFrList`: a free entry is reused, otherwise one is added. */
  function GetWaitobj(w: World, nt: Tunnel): Option<(World, Tunnel)> {
    var k := FindStatus(w.tuns, w.wait, TmptunFree);
    if k < |w.wait| then
      var t := w.wait[k];
      Some((PutTun(w, t, w.tuns[t].(hs := w.tuns[t].hs.(state := WaittingState), status := TmptunWait)), t))
    else if nt in w.tuns then None
    else
      var td := TunnelData(null, null, ZERO_HS.(state := WaittingState), TmptunWait);
      Some((PutTun(w, nt, td).(wait := [nt] + w.wait), nt))
  }

  function Park(w: World, s: Sock, c: Tunnel): World
    requires s in w.socks && c in w.tuns
  {
    var cd := w.tuns[c];
    PutTun(PutSock(w, s, w.socks[s].(tunnel := c)), c,
           cd.(remote := s, hs := cd.hs.(state := WaittingState), status := TmptunAlive))
  }

  /** `tunnel_switch_handle`: a remote with nothing left to write is parked on the waitList. */
  function SwitchHandle(w: World, s: Sock, t: Tunnel, nt: Tunnel): Option<World> {
    if s !in w.socks || t !in w.tuns then None
    else if w.socks[s].wbuf != [] then Some(PutSock(w, s, Poll(w.socks[s], true, true)))
    else
      var w1 := PutSock(w, s, Poll(w.socks[s], false, true));
      var td := w.tuns[t];
      if s != td.remote then Some(w1)
      else
        var w2 :-
          if td.status != TunnRun then Some(w1)
          else if td.priv == null then None
          else Some(PutTun(w1, t, td.(status := TunnIdle, remote := null)));
        var (w3, c) :- GetWaitobj(w2, nt);
        Some(Park(w3, s, c))
  }

  function AfterWrite(w: World, s: Sock, t: Tunnel, nt: Tunnel): Option<World>
    requires s in w.socks && t in w.tuns
  {
    if w.tuns[t].status == TunnRun then SwitchHandle(w, s, t, nt)
    else Some(PutSock(w, s, Poll(w.socks[s], w.socks[s].wbuf != [], true)))
  }

  /** `tunnel_write_handle`. */
  function WriteHandle(w: World, s: Sock, put: WriteResult, nt: Tunnel): Option<World> {
    if !Known(w, s) then None
    else
      var d := w.socks[s];
      var t := d.tunnel;
      if d.wbuf != [] then
        match put
        case Wrote(n) => if n > |d.wbuf| then None else AfterWrite(PutSock(w, s, d.(wbuf := d.wbuf[n..])), s, t, nt)
        case WriteAgain => AfterWrite(w, s, t, nt)
        case WriteError => SockForceShutdown(w, s)
      else if d.state == SockHalfclosed then SockForceShutdown(w, s)
      else AfterWrite(w, s, t, nt)
  }

  // ----- accepting

  /** `getTargetFrList` for a private connection: a free tunnel is reused, otherwise one is added. */
  function GetPrivateTarget(w: World, nt: Tunnel): Option<(World, Tunnel)> {
    var k := FindStatus(w.tuns, w.app, TunnFree);
    if k < |w.app| then
      var t := w.app[k];
      Some((PutTun(w, t, w.tuns[t].(status := TunnRun, hs := w.tuns[t].hs.(state := OpenState))), t))
    else if nt in w.tuns then None
    else Some((PutTun(w, nt, TunnelData(null, null, ZERO_HS, TunnIdle)).(app := [nt] + w.app), nt))
  }

  /** `getTargetFrList` for a remote connection: the first idle tunnel, or a place on the waitList.
      The trace output reads the private socket of the tunnel it found. */
  function GetRemoteTarget(w: World, nt: Tunnel): Option<(World, Tunnel)> {
    var k := FindStatus(w.tuns, w.app, TunnIdle);
    if k < |w.app| then
      var t := w.app[k];
      if w.tuns[t].priv == null then None else Some((PutTun(w, t, w.tuns[t].(status := TunnRun)), t))
    else GetWaitobj(w, nt)
  }

  function FreshSock(ispriv: bool, t: Tunnel): SockData {
    SockData(ispriv, SockConnected, [], [], t, true, false)
  }

  /** `tunnel_create` for a private connection. */
  function AcceptPriv(w: World, ns: Sock, nt: Tunnel): Option<World> {
    if ns in w.socks then None
    else
      var (w1, t) :- GetPrivateTarget(w, nt);
      if t !in w1.tuns then None
      else
        var td := w1.tuns[t];
        Some(PutTun(PutSock(w1, ns, FreshSock(true, t)), t,
                    td.(priv := ns, hs := td.hs.(state := OpenState, readCount := 0))))
  }

  /** `tunnel_create` for a remote connection. */
  function AcceptRmt(w: World, ns: Sock, nt: Tunnel): Option<World> {
    if ns in w.socks then None
    else
      var (w1, t) :- GetRemoteTarget(w, nt);
      if t !in w1.tuns then None
      else
        var td := w1.tuns[t];
        var state := if td.status == TmptunWait then WaittingState else ConnectedState;
        Some(PutTun(PutSock(w1, ns, FreshSock(false, t)), t,
                    td.(remote := ns, hs := td.hs.(state := state, readCount := 0))))
  }

  // ----- pairing

  /** The body of `fndIdleConnElemt`: `t` takes over the remote that is parked on `p`. */
  function PairOne(w: World, t: Tunnel, p: Tunnel): (r: Option<World>)
    ensures r.Some? ==> r.value.app == w.app && r.value.wait == w.wait
  {
    if t !in w.tuns || p !in w.tuns || w.tuns[p].remote !in w.socks then None
    else
      var r := w.tuns[p].remote;
      var w1 := PutTun(w, t, w.tuns[t].(status := TunnRun, remote := r));
      var w2 := PutSock(w1, r, w1.socks[r].(tunnel := t));
      var (w3, _) :- ConnectedHandle(w2, t, r);
      if p !in w3.tuns then None
      else Some(PutTun(w3, p, w3.tuns[p].(status := TmptunFree, remote := null)))
  }

  /** `AppListDo` with that callback, from entry `i` on: it stops when an idle tunnel finds no partner. */
  function PairFrom(w: World, i: nat): Option<World>
    requires i <= |w.app|
    decreases |w.app| - i
  {
    if i == |w.app| then Some(w)
    else if w.app[i] !in w.tuns then None
    else if w.tuns[w.app[i]].status != TunnIdle then PairFrom(w, i + 1)
    else
      var k := FindPairable(w, w.wait);
      if k == |w.wait| then Some(w)
      else
        var r := PairOne(w, w.app[i], w.wait[k]);
        if r.None? then None else PairFrom(r.value, i + 1)
  }

  // ----- one event, and runs

  function Step(w: World, e: Event): Option<World> {
    match e
    case AcceptPrivate(ns, nt) => AcceptPriv(w, ns, nt)
    case AcceptRemote(ns, nt) => AcceptRmt(w, ns, nt)
    case Read(s, got) => ReadHandle(w, s, got)
    case Write(s, put, nt) => WriteHandle(w, s, put, nt)
    case Pair => PairFrom(w, 0)
  }

  /** Which events epoll and the allocator can produce. */
  predicate Enabled(w: World, e: Event) {
    match e
    case AcceptPrivate(ns, nt) => ns !in w.socks && nt !in w.tuns
    case AcceptRemote(ns, nt) => ns !in w.socks && nt !in w.tuns
    case Read(s, got) => s in w.socks && w.socks[s].pollIn && (got.Data? ==> got.bytes != [])
    case Write(s, put, nt) =>
      s in w.socks && w.socks[s].pollOut && nt !in w.tuns && (put.Wrote? ==> 0 < put.n <= |w.socks[s].wbuf|)
    case Pair => true
  }
}
