# A verified model of the SOCKS5 community channel

This project models, in Dafny 4.11, the server `socks5.c`, the handshake side of `clientdemo.c`, the
byte buffer `buff.c`, the list of `list.h` and `Utils.c`, and proves what they keep over every run.
`dafny verify dfyconfig.toml` checks all of it.

## How it is built

| file | what it holds |
|---|---|
| `Common.dfy` | bytes, C character arrays, C strings |
| `Buffer.dfy` | `buff.c`: class `Buff` over an array, refined to a FIFO byte queue |
| `IntrusiveList.dfy` | `list.h` and `Utils.c`: linked nodes on the heap, refined to a sequence |
| `Protocol.dfy` | the greeting, login and request messages: one-pass parsers and encoders |
| `Handshake.dfy` | the three resumable handlers as functions, one per `goto` label, and resume-point soundness |
| `Session.dfy` | a connection on a fresh or reused tunnel under arbitrary read events: fragmentation, `read_count`, credentials |
| `TwoParty.dfy` | client and server joined by two pipes |
| `Objects.dfy` | classes `Sock` and `Tunnel`, with the handlers working on them in place |
| `ClientDemo.dfy` | the client's handlers on the same objects |
| `Pool.dfy` | the server as a state machine over an explicit heap (`World`), one function per C function |
| `PoolInvariant.dfy` | the pool in order, and exactly which events keep it |
| `Wiring.dfy` | what every run keeps, in order or not, and what each event leaves alone |
| `Pairing.dfy`, `PoolRuns.dfy` | the pairing pass, and all events and runs |
| `Effects.dfy` | every event written out: what becomes of each socket, each tunnel and each byte |
| `PoolHistory.dfy`, `PoolReuse.dfy`, `Relay.dfy` | over every run: EPOLLOUT interest, list lengths, reuse, relay conservation |
| `LoginRuns.dfy` | logins over runs of the server: `Session` and `Pool` joined |
| `ReachedRuns.dfy` | concrete runs from the start that reach the cases the guards shut out |
| `Server.dfy` | class `Server`: the C functions as methods on the objects, each equal to its `Pool` function |

`Server.View()` reads the objects into a `World`. Every `Server` method ensures that the new view is
what the `Pool` function of the same name makes of the old one, and the lemmas are about those
functions. `None` in `Pool` means that the program follows a NULL or freed pointer or fails an
`assert(0)`; a method's precondition is that this does not happen.

Three states matter. A pool is *in order* (`PoolInvariant.PoolInv`) as long as every event was safe. It
is *wired* (`Wiring.Wired`) after every run, safe or not, that has not failed. A tunnel is *zeroed* when it
is new; when it is reused it holds what its last user left.

## What the proofs found

* **Which events the pool survives is an if-and-only-if** (`PoolRuns.StepKeepsPool`). From a pool in
  order every event keeps it in order except these, each of which `ReachedRuns` reaches from the start
  of the server: a remote is accepted while the first idle tunnel has lost its private socket (NULL
  access in the trace output, `socks5.c:1423`; `RefusedThenRemote`); a pairing pass reaches a tunnel
  that has not finished its handshake (`RemoteThenPrivate`); a private connection with nothing left to
  write ends while paired (`PairedThenLeaves`); writing to the private connection of a connected tunnel
  fails (`RelayedThenFails`).
* **A login is judged together with what an earlier client left.** The strings that are compared are the
  received ones written over the old ones (`socks5.c:620`, `socks5.c:642-643`), and reuse clears neither
  (`socks5.c:278-281`, `socks5.c:1436-1441`). So on a tunnel left by a successful login any prefix of the
  user name and of the password is admitted, the empty one included (`Session.ReusedAdmits`,
  `ReachedRuns.EmptyLoginPasses`), and on one left by a longer name the configured login is refused
  (`Session.ConfiguredAdmits`, `ReachedRuns.ConfiguredLoginRefused`). On a zeroed tunnel the
  admitted logins are exactly the matching ones (`Session.ZeroedAdmits`).
* **A fresh tunnel is idle before its handshake** (`socks5.c:1460`). A remote accepted then puts it in
  `connected_state` without a handshake; `PoolRuns.EarlyAcceptSkips` says exactly when. Behind credentials
  this is the only way to `connected_state` without them (`LoginRuns.CredentialsOrEarlyRemote`).
* **Kept-alive remotes are never paired again.** The repository's own description (`README.md:140` and
  `README.md:142`) has a parked remote wait for the next request and its connection reused, but a parked
  remote that speaks is answered and marked for closing (`socks5.c:894-918`) before the pairing pass looks
  at it, and a silent one is not pairable (`socks5.c:1470-1473`): `PoolRuns.AliveIsNeverPaired`.
* **The demo client cannot log in.** `README.md:96` shows `clientdemo` with a user name and a
  password, but it ignores the method the server chose, so with both credentials configured every
  maximal run ends with the server closing, whatever an earlier client has left; without them every
  maximal run connects (`TwoParty.MaximalRunsConnect`).
* **A half-closed socket is never force-closed by the write handler** in a pool in order: EPOLLOUT is
  armed exactly while there is something to write, so the branch at `socks5.c:489-492` is not taken
  (`PoolRuns.WritingKeepsTheSocket`).

## Model

| member | source | states |
|---|---|---|
| Buffer.Buff.Write | buff.c:119-140 | appends all of the source, or fails and keeps the queue; it fails exactly when one of the doublings it needs is refused by the allocator or is beyond `int`; when the bytes fit it succeeds without growing; if it grew, the capacity is below twice the final contents |
| Buffer.Buff.Expand | buff.c:56-65 | doubles and keeps the contents if the allocator grants it and it is within `int`, and otherwise fails and changes nothing; the capacity stays the initial one times a power of two |
| Buffer.Buff.Concat | buff.c:142-145 | the readable part of the other buffer becomes the tail, and that buffer keeps it; it fails exactly when `Write` does |
| Buffer.Buff.Read | buff.c:94-102 | what is read followed by what is left is what was there |
| Buffer.Buff.Skip | buff.c:104-110 | drops exactly the first bytes |
| Buffer.Buff.ReadFd | buff.c:67-82 | appends what arrived, as much as there is room for; a full buffer doubles first; -1 exactly if `read` fails or there is no room and it cannot grow; 0 means end of file |
| Buffer.Buff.WriteFd | buff.c:84-92 | what was sent followed by what is left is what was there, for any partial write |
| Buffer.Buff.Clear | buff.c:147-151 | empties the queue |
| Buffer.GrowthSuffices | buff.c:119-140 | with an allocator that grants everything, `Write` and `Concat` succeed for all contents up to half of the largest `int` |
| IntrusiveList.ListInsert | list.h:34-39 | links the node between two neighbours; the ring of inverse links is kept |
| IntrusiveList.ListAdd | list.h:41-43 | prepends |
| IntrusiveList.ListAddTail | list.h:45-47 | appends |
| IntrusiveList.ListDel | list.h:52-60 | removes exactly that node and keeps the order of the others |
| IntrusiveList.EntryList.Empty | list.h:65-67 | true exactly for the empty list |
| IntrusiveList.EntryList.Add | Utils.c:19-23 | new entries go to the front |
| IntrusiveList.EntryList.Fnd | Utils.c:25-37 | the first entry in list order that matches, NULL exactly when none does |
| IntrusiveList.EntryList.Get | Utils.c:53-64 | as Fnd, and unlinks exactly that entry |
| IntrusiveList.EntryList.Do | Utils.c:39-51 | visits entries in order while the callback rewrites them, and stops at its stop answer |
| IntrusiveList.DoTouchesOnlyAPrefix | Utils.c:39-51 | a traversal visits a prefix, leaves the rest alone, and is cut short only by the stop answer |
| Protocol.RequestIsStable | socks5.c:740-817 | a verdict on a request is kept by every extension of the stream |
| Protocol.GreetingVerdicts | socks5.c:540-558 | in bytes: a greeting is refused exactly for a version other than 5, and complete exactly when all its methods are there |
| Protocol.LoginVerdicts | socks5.c:602-642 | in bytes: a login is refused exactly for a name or password longer than 20, and where it keeps both |
| Protocol.RequestVerdicts | socks5.c:740-817 | in bytes: a request is refused exactly for a version other than 5, a command other than 1 or a type other than 1, 3 and 4; types 1, 4 and 3 are complete with 10 bytes, 22 bytes, and 7 plus the counted name |
| Protocol.RequestContents | socks5.c:765-817 | where a request of each type keeps its address and its port, the high byte first |
| Protocol.RequestRoundTrip | socks5.c:740-825 | parsing an encoded request of any address kind gives it back and consumes exactly its bytes |
| Protocol.DomainMessageRoundTrip | clientdemo.c:604-618 | the bytes written from a `request_protocol_t` parse to the same name and port, 7 + domainlen long |
| Protocol.RequestReencodes | socks5.c:740-825 | re-encoding any parsed request reproduces the consumed prefix |
| Protocol.GreetingRoundTrip | socks5.c:540-558 | a greeting is parsed exactly from its encoding |
| Protocol.LoginRoundTrip | socks5.c:602-642 | a login is parsed exactly from its encoding |
| Handshake.OpenResumes | socks5.c:526-580 | resuming `tunnel_open_handle` at any label equals having had all bytes at once |
| Handshake.AuthResumes | socks5.c:583-660 | the same for `tunnel_auth_handle`, and its `assert(0)` is not reached |
| Handshake.UnameAndPlenCoincide | socks5.c:593-596 | with an empty user name the labels `uname` and `plen` share one count and are equivalent |
| Handshake.RequestResumes | socks5.c:722-825 | the same for `tunnel_request_handle` |
| Handshake.HandleResumes | socks5.c:425-438 | every return of 0 leaves a resumable count; a finished message leaves later bytes untouched and the count 0 |
| Session.ChunkingIsInvisible | socks5.c:401-455 | from any good session, every split of the same bytes settles alike |
| Session.EnoughWakeUps | socks5.c:409-419 | three empty wake-ups settle any session, and more change nothing |
| Session.OneShot | socks5.c:526-825 | on one delivery, on a fresh or a reused tunnel, the handlers give the verdict, replies, state, fields and unread bytes of the grammar, logins being judged over the leftover fields |
| Session.Fragmentation | socks5.c:401-467 | any leftover fields, any stream, any split, at least three empty wake-ups: the same session as one delivery, and the one the grammar prescribes |
| Session.ReferenceIsStable | socks5.c:526-825 | a verdict on the whole handshake, for any leftover fields, is kept by every extension of the stream |
| Session.ReadCountIsConsumed | socks5.c:533-538 | on a fresh or reused tunnel, after every read event `read_count` is the number of bytes consumed of the current message; no `assert(0)` fires in any run of reads |
| Session.MethodIsAnswered | socks5.c:540-574 | in bytes, for every greeting, split anywhere, on a fresh or reused tunnel: the first two bytes written are 5, 2 if both a user name and a password are configured, and then a login is expected, and 5, 0 otherwise, and then a request; the tunnel holds version, count and methods of the greeting |
| Session.HandshakeInBytes | socks5.c:526-825 | in bytes, for every greeting, login of lengths at most 20 and request of any type, split anywhere: if no login is configured or this one is admitted, the tunnel is connected, holds the request, leaves what follows unread, and has written exactly the method, the login result, and the host and port it announces; otherwise the connection is closed behind the method |
| Session.OnlyAdmittedConnect | socks5.c:560-660 | for every chunking, a session is past the login only behind a login its tunnel admits, and once the handlers have run it is past it if and only if there is one and no bad request behind it |
| Session.LoginAdmitted | socks5.c:638-657 | for any leftover fields, a login of lengths at most 20 is admitted under every chunking exactly when both strings, read over the leftovers, are the configured ones; otherwise the connection is closed behind the method reply |
| Session.ZeroedAdmits | socks5.c:642-643 | on a zeroed tunnel the admitted logins are exactly those whose strings are the configured ones |
| Session.ReusedAdmits | socks5.c:1431-1443 | on a tunnel that holds the credentials a login is admitted exactly when each string is the configured one or a prefix of it |
| Session.ConfiguredAdmits | socks5.c:620 | the configured login itself is admitted exactly when nothing was left directly behind either string |
| TwoParty.HandshakeIsSafe | clientdemo.c:455-510 | in every interleaving of the handshake and for any leftover fields, the client's handlers never return -1, the server's do so only with credentials set, no assertion fails, and no message waits behind an unconsumed one |
| TwoParty.MaximalRunsConnect | socks5.c:526-580 | every maximal run of the handshake connects both sides, with nothing in transit, if and only if not both credentials are configured; each side then holds the host name and the port that the other has announced |
| TwoParty.ClientTakesMethod | clientdemo.c:455-510 | the client waits for two bytes, closes on a version other than 5, and otherwise sends its request |
| TwoParty.ClientTakesAnswer | clientdemo.c:689-797 | the client waits until the answer is a whole request, closes if it can be none, and otherwise keeps its address and port and is connected |
| TwoParty.ClientIgnoresSplits | clientdemo.c:689-797 | a split of the answer does not change what the client makes of it |
| TwoParty.HandshakeEnds | clientdemo.c:1009-1021 | a measure bounds the number of moves that carry bytes |
| TwoParty.MovesDescend | clientdemo.c:592-619 | every send and delivery makes that measure smaller |
| TwoParty.ServerOnMistakenLogin | socks5.c:602-644 | with credentials set, the first seven bytes of the client's request are refused as a login |
| Objects.Tunnel.OpenHandle | socks5.c:526-580 | in place, `tunnel_open_handle` leaves what its function says, from whichever label `read_count` names |
| Objects.Tunnel.AuthHandle | socks5.c:583-660 | in place, `tunnel_auth_handle` leaves what its function says |
| Objects.Tunnel.RequestHandle | socks5.c:722-825 | in place, `tunnel_request_handle` leaves what its function says, and sets idle on success |
| Objects.Tunnel.NotifyConnected | socks5.c:662-689 | its two writes are one domain message |
| ClientDemo.ReadHandle | clientdemo.c:331-396 | in place, the handshake cases of the client's dispatch leave the session of the two-party model, or return -1 exactly where it closes |
| ClientDemo.OpenHandle | clientdemo.c:455-510 | in place, the method reply is consumed and the request sent |
| ClientDemo.RequestHandle | clientdemo.c:689-797 | in place, the server's answer is read as a request from the label that `read_count` names, and nothing is sent |
| ClientDemo.SendGreeting | clientdemo.c:1009-1021 | the greeting gives the client's start state |
| PoolInvariant.AcceptPrivateKeeps | socks5.c:1431-1464 | a private connection keeps the pool in order |
| PoolInvariant.AcceptRemoteKeeps | socks5.c:1416-1430 | a remote connection keeps it if and only if the first idle tunnel, if any, has its private socket |
| PoolInvariant.ForceShutdownKeeps | socks5.c:126-145 | force-closing keeps it if and only if the socket is neither the private one of a connected tunnel nor a parked remote without an answer |
| PoolInvariant.ShutdownPrivateKeeps | socks5.c:153-198 | the end of a private connection keeps it if and only if it is not drained while paired |
| PoolInvariant.ShutdownRemoteKeeps | socks5.c:153-220 | the end of a remote, paired or parked, keeps it |
| PoolInvariant.HandshakeKeeps | socks5.c:425-438 | a handshake handler, accepting, waiting or refusing, keeps the pool in order |
| PoolInvariant.ReadKeeps | socks5.c:401-467 | every read event keeps it if and only if it is safe |
| PoolInvariant.WriteKeeps | socks5.c:469-523 | every write event keeps it if and only if it is safe |
| PoolInvariant.ParkedKeeps | socks5.c:373-384 | draining and parking a remote moves it between the lists and keeps the pool in order |
| Wiring.ReadIsLocal | socks5.c:401-467 | in every run, a read event touches only the tunnel of its socket and the sockets of that tunnel; it runs one handler on the private input, or keeps the handshake fields |
| Wiring.WriteIsLocal | socks5.c:469-523 | in every run, a write event touches only the tunnel of its socket and, when it parks a remote, one free or new waitList entry; input and AppList fields stay |
| Wiring.ShutdownCloses | socks5.c:153-221 | in every run, the end of a connection keeps the wiring, all handshake fields and the unread bytes of the sockets that stay |
| Wiring.AcceptPrivateIsLocal | socks5.c:239-297 | in every run, a private accept touches only the first free tunnel, whose fields it keeps apart from state and count, or a new zeroed one |
| Pairing.PairOneEffect | socks5.c:1487-1497 | in every run, one pairing, however far the handshake is, relinks the remote, moves its input to the tail of the private write buffer if there is one and leaves it unread otherwise, frees the entry and touches nothing else |
| Pairing.PairingPass | socks5.c:1467-1519 | in every run the pass succeeds: the k-th idle tunnel gets the k-th pairable remote, as often as there are both, finished or not; nothing else changes; afterwards no idle tunnel coexists with a pairable waiter |
| Pairing.PassInFields | socks5.c:1467-1519 | in every run, in fields: a pass changes only entries that wait, or are alive with unread input; afterwards there is no idle tunnel together with such an entry |
| Pairing.RemotesConserved | socks5.c:1478-1506 | a pass keeps all live sockets and their kinds, and a remote with one tunnel keeps one if and only if its own tunnel was not served |
| Pairing.NoRemoteDropped | socks5.c:1478-1506 | from a pool in order, up to unread input, every remote is the remote of exactly one tunnel before and after a pass |
| PoolRuns.StepKeepsPool | socks5.c:1010-1043 | any event succeeds and keeps the pool in order if and only if it is safe |
| PoolRuns.SafeRunsAreInOrder | socks5.c:998-1048 | a run keeps the pool in order at every point exactly when each event is safe |
| PoolRuns.ServerKeepsPool | socks5.c:998-1048 | the same from the start of the server |
| PoolRuns.EveryRunIsWired | socks5.c:998-1048 | after every run, safe or not, sockets and tunnels refer to each other, waitList entries have no private socket, free tunnels have no socket at all, and a pairing pass succeeds |
| PoolRuns.EveryRemoteHasOneTunnel | socks5.c:300-309 | each live remote is the remote of exactly one tunnel over both lists and points back to it |
| PoolRuns.AliveIsNeverPaired | socks5.c:1467-1476 | in every safe run exactly the waiting entries are pairable, never the alive ones |
| PoolRuns.PassKeepsPool | socks5.c:1482-1497 | a pass keeps a pool in order if and only if every tunnel it serves has finished its handshake |
| PoolRuns.EarlyAcceptSkips | socks5.c:304-309 | an accept ends an unfinished handshake exactly when the first idle tunnel is in it |
| PoolRuns.AcceptedRemoteIsPlaced | socks5.c:1365-1430 | a remote joins the first idle tunnel, or waits on a free or new entry |
| PoolRuns.ParkedRemoteIsAnswered | socks5.c:894-918 | a parked remote that speaks is answered, armed for writing and no longer pairable |
| Pool.ResponseIsHttp | socks5.c:896-900 | the answer starts with the bytes of the status line `HTTP/1.1 200 OK`, and an empty line stands directly before its text |
| PoolRuns.WritingKeepsTheSocket | socks5.c:469-492 | in a pool in order a write event finds bytes to write, and a write that does not fail never releases its socket |
| Effects.OnlyRemotesFail | socks5.c:1010-1043 | in a pool in order, safe or not, an event fails if and only if it accepts a remote while the first idle tunnel has no private socket |
| Effects.SocketsAct | socks5.c:401-523 | in a pool in order, one event, safe or not, makes of every socket what its fate says: released, or with the old bytes less those written plus those queued, the stated unread bytes, half closed or not, and EPOLLOUT armed exactly while there is something to write |
| Effects.TunnelsAct | socks5.c:239-523 | in a pool in order, one event other than a pairing pass: both pointers, the handshake fields and the status of every tunnel, the two lists, and that nothing else is new |
| Effects.ShutdownIs | socks5.c:153-221 | `sock_shutdown` itself, for every socket but a drained private one that is paired: exactly the world in which the socket stays half closed and armed while it has bytes, and otherwise is gone with its place free or idle |
| Effects.EndOfConnection | socks5.c:153-221 | a safe end of any connection, by `FIN` or a read error: as long as there are bytes for it, what a connected private side holds unread included, it stays half closed with exactly these and armed for writing only; otherwise it is gone, its pointer null and its tunnel free or idle |
| Effects.WhatIsNotSentStays | socks5.c:469-509 | after a write on any socket, joined or not, that does not fail: what was not sent stays, EPOLLOUT is armed exactly if that is anything, and unread bytes stay |
| Effects.ReplyReachesTheClient | socks5.c:425-438 | input during the handshake: the reply of the handler is behind what the private socket has to write, which is armed, or the socket is released |
| Effects.EverythingQueuedIsWritten | socks5.c:469-523 | over any safe run, for every socket while it lives, joined or not: the bytes written followed by those still to be written are the first ones followed by everything queued for it since, in order |
| Effects.RemoteWithoutPrivateFails | socks5.c:162-164 | a connected tunnel without its private socket does not survive the next read event of its remote |
| ReachedRuns.RefusedThenRemote | socks5.c:1417-1425 | a safe run from the start, a refused greeting, after which accepting a remote follows a NULL pointer |
| ReachedRuns.RemoteThenPrivate | socks5.c:1460 | a safe run from the start after which the pairing pass gives a tunnel in its handshake a remote and breaks the pool |
| ReachedRuns.PairedThenLeaves | socks5.c:182-197 | a safe run from the start after which the end of the private connection breaks the pool |
| ReachedRuns.RelayedThenFails | socks5.c:475-488 | a safe run from the start after which a write error on the private connection breaks the pool |
| ReachedRuns.EmptyLoginPasses | socks5.c:1431-1443 | a safe run from the start in which the second client gets past the login with an empty user name and password |
| ReachedRuns.ConfiguredLoginRefused | socks5.c:617-643 | a safe run from the start in which the second client is refused with the configured user name and password |
| LoginRuns.FieldsChange | socks5.c:401-455 | in every run, one event leaves the handshake fields of an AppList tunnel, or is a private accept that reopens it, a remote accept that ends its handshake, or a read that runs exactly one handler |
| LoginRuns.CredentialsOrEarlyRemote | socks5.c:638-657 | after every run with both credentials set, a tunnel in request state holds them, and one in connected state holds them unless an accepted remote took it out of its handshake and it has stayed connected since |
| LoginRuns.LoginDecides | socks5.c:401-455 | over any safe run, while its connection lives and no accepted remote ends its handshake, the state of a tunnel is that of the session of exactly the bytes read from this connection on the leftover fields, and what is written to it followed by what is to be written is what this session answers, and starts with it once it is connected; so it is past the login only behind one that they admit, and with one and no bad request gets there |
| PoolHistory.NoLostWakeUp | socks5.c:162-181 | in every run each live socket with something to write has EPOLLOUT armed |
| PoolHistory.StepHistory | socks5.c:1365-1404 | one event keeps that, and lengthens a list only when none of its entries is free |
| PoolHistory.HighWaterMark | socks5.c:1405-1465 | after every run each list is as long as the largest number of its entries in use at one time |
| PoolReuse.NoRemoteBeforeHandshake | socks5.c:1431-1443 | a tunnel that is free, or was found free and is in its handshake, gets a remote only after `tunnel_request_handle` has accepted its request |
| PoolReuse.StepWithholds | socks5.c:819-824 | one event releases such a tunnel only by finishing its handshake, and without giving it a remote |
| PoolReuse.ReuseIsWithheld | socks5.c:1432-1441 | after every run from the start, safe or not, a free tunnel is in such a state, and stays so when a private accept takes it over |
| PoolReuse.NoRemoteAfterReuse | socks5.c:1431-1443 | from the start, in every run: a tunnel that is free at some point gets a remote later only if a request is accepted on it in between |
| Relay.RelayConserves | socks5.c:853-892 | in every run, while a pair is joined, in each direction bytes written followed by bytes to be written are the initial ones followed by all bytes read, in order, among any other events, safe or not |
| Relay.StepBalances | socks5.c:469-523 | one event, safe or not, conserves both directions, and the pair stays joined until the event that drains the remote, which parks it |
| Relay.PairsAreJoined | socks5.c:1487-1497 | in a pool in order every tunnel with both sockets and no unread private input is joined in this sense |
| Relay.PairWrite | socks5.c:343-384 | a partial write conserves; the last byte for the remote switches it to the waitList, alive and not pairable |
| Server.Server.SockRelease | socks5.c:100-121 | in place, as its specification |
| Server.Server.SockForceShutdown | socks5.c:126-145 | in place, as its specification |
| Server.Server.SockShutdown | socks5.c:153-221 | in place, as its specification |
| Server.Server.TunnelShutdown | socks5.c:388-394 | in place, as its specification |
| Server.Server.ConnectedHandle | socks5.c:853-892 | in place, as its specification, with -1 where a side is missing |
| Server.Server.WaittingHandle | socks5.c:894-918 | in place, as its specification |
| Server.Server.ReadHandle | socks5.c:401-467 | in place, every read event that does not fail is the specified step; it keeps a pool in order if and only if it is safe |
| Server.Server.SwitchHandle | socks5.c:321-386 | in place, as its specification |
| Server.Server.WriteHandle | socks5.c:469-523 | in place, every write event that does not fail is the specified step; it keeps a pool in order if and only if it is safe |
| Server.Server.GetWaitobj | socks5.c:1365-1404 | reuses the first free entry or adds one |
| Server.Server.Fnd | Utils.c:25-37 | with the status comparators: the first match in list order |
| Server.Server.FndPairable | socks5.c:1467-1476 | the first waiting entry, or alive entry with input |
| Server.Server.AcceptPrivate | socks5.c:239-297 | in place, a private accept is the specified step, and keeps a pool in order |
| Server.Server.AcceptRemote | socks5.c:298-318 | in place, a remote accept that does not fail is the specified step, and keeps a pool in order |
| Server.Server.FndIdleConnElemt | socks5.c:1478-1506 | one turn of the pairing walk, finished handshake or not, -1 when it ends |
| Server.Server.AppListDo | Utils.c:39-51 | in place, along the links of the list, the walk is the specified pass while its callback relinks tunnels and searches the other list; the links stay |
| Server.Server.WaitLinePairing | socks5.c:1509-1519 | in place, in every state the server can reach, the pairing pass is the specified step; it keeps a pool in order if and only if every tunnel it serves has finished its handshake |

## Left out

- Sockets, `accept`, `connect`, `getaddrinfo`, `fcntl`, signals, options and printing: system calls. What `read` and `write` answer, and what `malloc` returns, are arguments of the events; of the trace output only the pointer access that can fail (`socks5.c:1423` and `socks5.c:377`) is kept.
- Failing allocation of sockets, tunnels and list entries, and a failing `epoll_ctl`: taken to succeed. Only `Buff` models failure, because its callers handle it.
- The buffers of `Sock` are sequences of bytes, not `Buff` objects: `Buff` is proved to be such a queue, so what is not captured is a `Sock` whose buffer cannot grow. The lists of `Server` are sequences in the same way, with `EntryList` proved to be one; only the pairing walk goes along the links themselves.
- IntrusiveList.EntryList.Do: its callback is a function that rewrites what one entry carries. The callback the server uses, which changes other objects, is covered by `Server.Server.AppListDo`.
- IntrusiveList.DoTouchesOnlyAPrefix: is about that traversal function, so it does not cover callbacks that change other objects.
- ClientDemo.ReadHandle: does not cover `connected_state`, and what the client does when `read` reports the end or an error.
- TwoParty.HandshakeIsSafe: does not deliver the end of a connection, and does not wake a connected side without input, which with no other connection to relay to closes the socket (`socks5.c:856-861`).
- TwoParty.MaximalRunsConnect: the same; the client of a server that has closed stays in `request_state`, because the end is not delivered.
- LoginRuns.LoginDecides: is about safe runs. After a pairing pass has given a tunnel in its handshake a remote, read events of that remote run the handlers too, and bytes of the private stream can be skipped by a refusal that closes the remote instead.
- Effects.EverythingQueuedIsWritten: is about safe runs, because it says for every socket what is queued for it; `Relay.RelayConserves` is the form for all runs.
- Effects.EndOfConnection: is about safe ends. The other one, of a drained private connection that is paired, releases both sockets and leaves an idle tunnel without any (`Effects.SocketsAct`, `Effects.TunnelsAct`).
- Several events of one `epoll_wait` batch, and events for sockets released earlier in it: one event is a step, and the pairing pass is a step of its own that may come after any event.
- `connecting_state`, `tunnel_connecting_handle`, `openServerSock1`, the code under `#if 0`, the empty `parsingHeader` and `leveltrg_demo.c`: not reached by the server. `iskeepalive` is always 0, and both branches on it do the same.
- `AppListUpd`, `waitListUpd` and `waitListDel1`: not used. `vbody_entry` is replaced by nodes with a payload.
- The client's pool, its half-close and its reuse of connections (`clientdemo.c:138-185`, `clientdemo.c:268-324`, `clientdemo.c:825-847`): it does not maintain the back pointer of a reused remote, so the server's invariants do not carry over. Its `tunnel_auth_handle` is never dispatched, because no client function sets `auth_state`.
- Delivery in the end: the loop prefers reading to writing, so nothing is said about when a byte leaves.
- `port` is kept as the number `ntohs` gives, not as two bytes in network order.
- Relay.RelayConserves: does not cover the bytes a closing remote takes over from an uncleared private buffer (`socks5.c:162-166`); it holds from pairing with nothing unread until the first end or failure of either side. What those bytes become is in `Effects.EndOfConnection` and `Effects.EverythingQueuedIsWritten`.
- `tunnel_notify_connected` announces a host name and a port given in `Config`, of at most 254 bytes; in `socks5.c:680-687` they are "www.hellorsp.org" and 8080.
