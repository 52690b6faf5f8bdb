/** The pairing pass as a whole: who gets which remote, what happens to buffered input, and what is
    left over. */
module Pairing {
  import opened Common
  import opened Handshake
  import opened Objects
  import opened Pool
  import opened PoolInvariant
  import opened Wiring

  function Min(a: nat, b: nat): nat {
    if a < b then a else b
  }

  /** Tunnel `t` has taken over the remote that was parked on `p`, and `p` is free.  If `t` has a private
      socket, the unread input of the remote is the tail of what that socket has to write; if it has
      none, the input stays unread. */
  predicate TookOver(w: World, v: World, t: Tunnel, p: Tunnel) {
    && t in w.tuns && p in w.tuns && t in v.tuns && p in v.tuns
    && var r, priv := w.tuns[p].remote, w.tuns[t].priv;
    && r in w.socks && r in v.socks
    && v.tuns[t] == w.tuns[t].(status := TunnRun, remote := r)
    && v.tuns[p] == w.tuns[p].(status := TmptunFree, remote := null)
    && if priv == null then v.socks[r] == w.socks[r].(tunnel := t)
       else
         && priv in w.socks && priv in v.socks
         && v.socks[r] == w.socks[r].(tunnel := t, rbuf := [])
         && v.socks[priv] == (if w.socks[r].rbuf == [] then w.socks[priv]
                              else Poll(w.socks[priv].(wbuf := w.socks[priv].wbuf + w.socks[r].rbuf), true, true))
  }

  /** Nothing was lost, and nothing has changed but the tunnels of `a` and `b`, the private sockets of
      `a` and the remotes of `b`. */
  predicate Untouched(w: World, v: World, a: seq<Tunnel>, b: seq<Tunnel>) {
    && v.conf == w.conf && v.app == w.app && v.wait == w.wait
    && v.socks.Keys == w.socks.Keys && v.tuns.Keys == w.tuns.Keys
    && (forall t :: t in w.tuns && t !in a && t !in b ==> v.tuns[t] == w.tuns[t])
    && (forall s :: s in w.socks && w.socks[s].tunnel !in b && (w.socks[s].tunnel in a ==> !w.socks[s].ispriv)
          ==> v.socks[s] == w.socks[s])
  }

  /** One pairing, explicitly. */
  function Relinked(w: World, t: Tunnel, p: Tunnel, r: Sock): World
    requires t in w.tuns && p in w.tuns && r in w.socks
  {
    w.(socks := w.socks[r := w.socks[r].(tunnel := t)],
       tuns := w.tuns[t := w.tuns[t].(status := TunnRun, remote := r)]
                     [p := w.tuns[p].(status := TmptunFree, remote := null)])
  }

  lemma PairOneIs(w: World, t: Tunnel, p: Tunnel, r: Sock)
    requires t in w.tuns && p in w.tuns && t != p && w.tuns[p].remote == r && r in w.socks && !w.socks[r].ispriv
    ensures var v := Relinked(w, t, p, r); var priv := w.tuns[t].priv;
      && (w.socks[r].rbuf == [] || priv == null ==> PairOne(w, t, p) == Some(v))
      && (w.socks[r].rbuf != [] && priv in w.socks && priv != r ==> PairOne(w, t, p) == Some(Forwarded(v, r, priv)))
  {
    var w2 := PutSock(PutTun(w, t, w.tuns[t].(status := TunnRun, remote := r)), r, w.socks[r].(tunnel := t));
    if w.socks[r].rbuf != [] && w.tuns[t].priv in w.socks && w.tuns[t].priv != r {
      ForwardIs(w2, r, w.tuns[t].priv);
    }
  }

  /** What one pairing does to the two tunnels and their sockets. */
  lemma PairOneTakesOver(w: World, t: Tunnel, p: Tunnel, r: Sock)
    requires t in w.tuns && p in w.tuns && t != p && w.tuns[p].remote == r
    requires r in w.socks && !w.socks[r].ispriv && w.socks[r].tunnel == p
    requires w.tuns[t].priv != null ==> PointsBack(w, t, w.tuns[t].priv, true)
    ensures PairOne(w, t, p).Some?
    ensures var v := PairOne(w, t, p).value; TookOver(w, v, t, p) && Untouched(w, v, [t], [p]) && Elsewhere(w, v, t, p)
  {
    PairOneIs(w, t, p, r);
  }

  /** The remote of a waiter that can be paired is parked on it. */
  lemma WaiterIsParked(w: World, t: Tunnel, p: Tunnel)
    requires Wired(w) && t in w.app && p in w.wait && Pairable(w, p)
    ensures t != p && t in w.tuns && t !in w.wait && p in w.tuns && TunWired(w, t) && TunWired(w, p)
    ensures w.tuns[p].remote in w.socks && PointsBack(w, p, w.tuns[p].remote, false)
  {
    assert TunWired(w, t) && TunWired(w, p);
  }

  lemma PairedSock(w: World, v: World, t: Tunnel, p: Tunnel, x: Sock)
    requires Wired(w) && t in w.app && p in w.wait && Pairable(w, p) && x in v.socks
    requires TookOver(w, v, t, p) && Untouched(w, v, [t], [p])
    ensures SockWired(v, x)
  {
    WaiterIsParked(w, t, p);
    SockOwner(w, x);
  }

  /** One pairing, whether or not the idle tunnel has finished its handshake and still has its private
      socket. */
  lemma PairOneEffect(w: World, t: Tunnel, p: Tunnel)
    requires Wired(w) && t in w.app && w.tuns[t].status == TunnIdle && p in w.wait && Pairable(w, p)
    ensures PairOne(w, t, p).Some?
    ensures var v := PairOne(w, t, p).value; Wired(v) && TookOver(w, v, t, p) && Untouched(w, v, [t], [p])
  {
    WaiterIsParked(w, t, p);
    PairOneTakesOver(w, t, p, w.tuns[p].remote);
    var v := PairOne(w, t, p).value;
    assert TunWired(v, t) && TunWired(v, p);
    forall x | x in v.socks && (v.socks[x].tunnel == t || v.socks[x].tunnel == p) ensures SockWired(v, x) {
      PairedSock(w, v, t, p, x);
    }
    WiredByParts(w, v, t, p);
  }

  // ----- the pass

  lemma {:induction false} IdleMembers(w: World, l: seq<Tunnel>)
    ensures forall t :: t in Idles(w, l) <==> t in l && t in w.tuns && w.tuns[t].status == TunnIdle
  {
    if l != [] {
      IdleMembers(w, l[1..]);
    }
  }

  lemma {:induction false} PairableMembers(w: World, l: seq<Tunnel>)
    ensures forall t :: t in Pairables(w, l) <==> t in l && Pairable(w, t)
  {
    if l != [] {
      PairableMembers(w, l[1..]);
    }
  }

  lemma {:induction false} IdlesOfSame(w: World, v: World, l: seq<Tunnel>)
    requires forall t :: t in l ==> t in w.tuns && t in v.tuns && v.tuns[t].status == w.tuns[t].status
    ensures Idles(v, l) == Idles(w, l)
  {
    if l != [] {
      assert l[0] in l;
      IdlesOfSame(w, v, l[1..]);
    }
  }

  lemma {:induction false} PairablesOfSame(w: World, v: World, l: seq<Tunnel>)
    requires forall t :: t in l ==> (Pairable(v, t) <==> Pairable(w, t))
    ensures Pairables(v, l) == Pairables(w, l)
  {
    if l != [] {
      assert l[0] in l;
      PairablesOfSame(w, v, l[1..]);
    }
  }

  /** The search finds the first pairable entry; without it, the others are as before. */
  lemma {:induction false} FirstPairable(w: World, l: seq<Tunnel>)
    ensures Pairables(w, l) == [] <==> FindPairable(w, l) == |l|
    ensures Pairables(w, l) != [] ==> Pairables(w, l)[0] == l[FindPairable(w, l)]
  {
    if l != [] && !Pairable(w, l[0]) {
      FirstPairable(w, l[1..]);
    }
  }

  /** When the first pairable entry stops being pairable and nothing else changes, it drops out. */
  lemma {:induction false} PairablesAfterFirst(w: World, v: World, l: seq<Tunnel>)
    requires NoDup(l) && Pairables(w, l) != []
    requires forall t :: t in l ==> (Pairable(v, t) <==> Pairable(w, t) && t != Pairables(w, l)[0])
    ensures Pairables(v, l) == Pairables(w, l)[1..]
  {
    if Pairable(w, l[0]) {
      assert forall t :: t in l[1..] ==> t in l && t != l[0] by {
        assert forall i :: 1 <= i < |l| ==> l[i] != l[0];
      }
      PairablesOfSame(w, v, l[1..]);
    } else {
      assert l[0] in l && forall t :: t in l[1..] ==> t in l;
      PairablesAfterFirst(w, v, l[1..]);
    }
  }

  lemma {:induction false} NoDupParts(w: World, l: seq<Tunnel>)
    requires NoDup(l)
    ensures NoDup(Idles(w, l)) && NoDup(Pairables(w, l))
  {
    if l != [] {
      assert l[0] !in l[1..];
      NoDupParts(w, l[1..]);
      IdleMembers(w, l[1..]);
      PairableMembers(w, l[1..]);
    }
  }

  /** What is pairable after one pairing. */
  lemma PairableAfter(w: World, v: World, t: Tunnel, p: Tunnel, q: Tunnel)
    requires Wired(w) && t in w.app && p in w.wait && q in w.wait && TookOver(w, v, t, p) && Untouched(w, v, [t], [p])
    ensures Pairable(v, q) <==> Pairable(w, q) && q != p
  {
    assert TunWired(w, q);
    if q != p {
      assert v.tuns[q] == w.tuns[q];
    }
  }

  /** Each of `idles` has the remote of its counterpart among `waiters`, and nothing else changed. */
  predicate PairedUp(w: World, v: World, idles: seq<Tunnel>, waiters: seq<Tunnel>) {
    && |idles| == |waiters|
    && (forall k :: 0 <= k < |idles| ==> TookOver(w, v, idles[k], waiters[k]))
    && Untouched(w, v, idles, waiters)
  }

  lemma ConsForall(w: World, v: World, t: Tunnel, p: Tunnel, idles: seq<Tunnel>, waiters: seq<Tunnel>)
    requires |idles| == |waiters| && TookOver(w, v, t, p)
    requires forall k :: 0 <= k < |idles| ==> TookOver(w, v, idles[k], waiters[k])
    ensures forall k :: 0 <= k < |idles| + 1 ==> TookOver(w, v, ([t] + idles)[k], ([p] + waiters)[k])
  {
    forall k | 0 <= k < |idles| + 1 ensures TookOver(w, v, ([t] + idles)[k], ([p] + waiters)[k]) {
      if k > 0 {
        assert TookOver(w, v, idles[k - 1], waiters[k - 1]);
      }
    }
  }

  lemma FirstStays(w: World, u: World, v: World, t: Tunnel, p: Tunnel, idles: seq<Tunnel>, waiters: seq<Tunnel>)
    requires Wired(w) && t in w.app && p in w.wait
    requires TookOver(w, u, t, p) && Untouched(u, v, idles, waiters)
    requires t !in idles && p !in waiters && p !in idles && t !in waiters
    ensures TookOver(w, v, t, p)
  {
    assert TunWired(w, t) && TunWired(w, p);
  }

  lemma LaterWasUntouched(w: World, u: World, v: World, t: Tunnel, p: Tunnel, a: Tunnel, b: Tunnel)
    requires Wired(w) && a in w.app && b in w.wait && t in w.app && p in w.wait && a != t && b != p
    requires Untouched(w, u, [t], [p]) && TookOver(u, v, a, b)
    ensures TookOver(w, v, a, b)
  {
    assert TunWired(w, a) && TunWired(w, b);
    assert u.tuns[a] == w.tuns[a] && u.tuns[b] == w.tuns[b];
  }

  lemma UntouchedTrans(w: World, u: World, v: World, t: Tunnel, p: Tunnel, idles: seq<Tunnel>, waiters: seq<Tunnel>)
    requires Untouched(w, u, [t], [p]) && Untouched(u, v, idles, waiters)
    ensures Untouched(w, v, [t] + idles, [p] + waiters)
  {
  }

  /** One pairing and a pass over the rest is a pass over all. */
  lemma PairedUpCons(w: World, u: World, v: World, t: Tunnel, p: Tunnel, idles: seq<Tunnel>, waiters: seq<Tunnel>)
    requires Wired(w) && t in w.app && p in w.wait
    requires TookOver(w, u, t, p) && Untouched(w, u, [t], [p]) && PairedUp(u, v, idles, waiters)
    requires t !in idles && p !in waiters
    requires forall x :: x in idles ==> x in w.app
    requires forall x :: x in waiters ==> x in w.wait
    ensures PairedUp(w, v, [t] + idles, [p] + waiters)
  {
    FirstStays(w, u, v, t, p, idles, waiters);
    forall k | 0 <= k < |idles| ensures TookOver(w, v, idles[k], waiters[k]) {
      assert TookOver(u, v, idles[k], waiters[k]);
      assert idles[k] in idles && waiters[k] in waiters;
      LaterWasUntouched(w, u, v, t, p, idles[k], waiters[k]);
    }
    UntouchedTrans(w, u, v, t, p, idles, waiters);
    ConsForall(w, v, t, p, idles, waiters);
  }

  /** `idles` and `waiters` were before a pass: as many pairings as there are both, in their orders, and
      what is left of each afterwards is the rest. */
  predicate Done(w: World, v: World, idles: seq<Tunnel>, waiters: seq<Tunnel>,
                 leftIdles: seq<Tunnel>, leftWaiters: seq<Tunnel>)
  {
    var n := Min(|idles|, |waiters|);
    && Wired(v) && PairedUp(w, v, idles[..n], waiters[..n])
    && leftIdles == idles[n..] && leftWaiters == waiters[n..]
  }

  lemma HeadAndTail<T>(l: seq<T>)
    requires l != []
    ensures l == [l[0]] + l[1..]
  {
  }

  lemma FirstWaiter(w: World) returns (p: Tunnel)
    requires Pairables(w, w.wait) != []
    ensures p in w.wait && Pairable(w, p) && p == Pairables(w, w.wait)[0]
    ensures FindPairable(w, w.wait) < |w.wait| && p == w.wait[FindPairable(w, w.wait)]
  {
    p := Pairables(w, w.wait)[0];
    FirstPairable(w, w.wait);
  }

  lemma UnfoldPass(w: World, u: World, i: nat, p: Tunnel)
    requires i < |w.app| && w.app[i] in w.tuns && w.tuns[w.app[i]].status == TunnIdle
    requires FindPairable(w, w.wait) < |w.wait| && p == w.wait[FindPairable(w, w.wait)]
    requires PairOne(w, w.app[i], p) == Some(u)
    ensures u.app == w.app && u.wait == w.wait && PairFrom(w, i) == PairFrom(u, i + 1)
  {
  }

  lemma PairablesAfterOne(w: World, u: World, t: Tunnel, p: Tunnel)
    requires Wired(w) && t in w.app && p in w.wait && Pairables(w, w.wait) != [] && p == Pairables(w, w.wait)[0]
    requires TookOver(w, u, t, p) && Untouched(w, u, [t], [p])
    ensures Pairables(u, u.wait) == Pairables(w, w.wait)[1..]
  {
    forall q | q in w.wait ensures Pairable(u, q) <==> Pairable(w, q) && q != p {
      PairableAfter(w, u, t, p, q);
    }
    PairablesAfterFirst(w, u, w.wait);
  }

  lemma OthersStay(w: World, u: World, i: nat, p: Tunnel, x: Tunnel)
    requires Lists(w) && i < |w.app| && p in w.wait && Untouched(w, u, [w.app[i]], [p]) && x in w.app[i + 1..]
    ensures x in w.app && x in w.tuns && x in u.tuns && u.tuns[x] == w.tuns[x]
  {
    var j :| 0 <= j < |w.app[i + 1..]| && w.app[i + 1..][j] == x;
    assert w.app[i + 1 + j] == x;
  }

  lemma IdlesAfterOne(w: World, u: World, i: nat, p: Tunnel)
    requires Lists(w) && i < |w.app| && w.tuns[w.app[i]].status == TunnIdle
    requires p in w.wait && Untouched(w, u, [w.app[i]], [p])
    ensures Idles(w, w.app[i..]) == [w.app[i]] + Idles(u, u.app[i + 1..])
  {
    assert w.app[i..] == [w.app[i]] + w.app[i + 1..];
    forall x | x in w.app[i + 1..] ensures x in w.tuns && x in u.tuns && u.tuns[x] == w.tuns[x] {
      OthersStay(w, u, i, p, x);
    }
    IdlesOfSame(w, u, w.app[i + 1..]);
  }

  /** What a pass still has before it after one pairing. */
  lemma AfterOne(w: World, u: World, i: nat, p: Tunnel)
    requires Wired(w) && i < |w.app| && w.tuns[w.app[i]].status == TunnIdle
    requires Pairables(w, w.wait) != [] && p == Pairables(w, w.wait)[0]
    requires TookOver(w, u, w.app[i], p) && Untouched(w, u, [w.app[i]], [p])
    ensures Idles(w, w.app[i..]) == [w.app[i]] + Idles(u, u.app[i + 1..])
    ensures Pairables(u, u.wait) == Pairables(w, w.wait)[1..]
  {
    var t := w.app[i];
    PairableMembers(w, w.wait);
    IdlesAfterOne(w, u, i, p);
    PairablesAfterOne(w, u, t, p);
  }

  /** The first pairing of a pass. */
  lemma FirstStep(w: World, i: nat) returns (u: World, p: Tunnel)
    requires Wired(w) && i < |w.app| && w.tuns[w.app[i]].status == TunnIdle && Pairables(w, w.wait) != []
    ensures u.app == w.app && u.wait == w.wait && PairFrom(w, i) == PairFrom(u, i + 1) && p in w.wait
    ensures FindPairable(w, w.wait) < |w.wait| && p == w.wait[FindPairable(w, w.wait)]
    ensures PairOne(w, w.app[i], p) == Some(u)
    ensures Wired(u) && TookOver(w, u, w.app[i], p) && Untouched(w, u, [w.app[i]], [p])
    ensures Idles(w, w.app[i..]) == [w.app[i]] + Idles(u, w.app[i + 1..])
    ensures Pairables(w, w.wait) == [p] + Pairables(u, w.wait)
  {
    p := FirstWaiter(w);
    PairOneEffect(w, w.app[i], p);
    u := PairOne(w, w.app[i], p).value;
    UnfoldPass(w, u, i, p);
    AfterOne(w, u, i, p);
    HeadAndTail(Pairables(w, w.wait));
  }

  lemma IdlesSkip(v: World, l: seq<Tunnel>, i: nat)
    requires i < |l| && !(l[i] in v.tuns && v.tuns[l[i]].status == TunnIdle)
    ensures Idles(v, l[i..]) == Idles(v, l[i + 1..])
  {
    assert l[i..] == [l[i]] + l[i + 1..];
  }

  lemma TakeCons<T>(x: T, l: seq<T>, n: nat)
    requires n <= |l|
    ensures ([x] + l)[..n + 1] == [x] + l[..n] && ([x] + l)[n + 1..] == l[n..]
  {
  }

  lemma DoneCons(w: World, u: World, v: World, t: Tunnel, p: Tunnel,
                 idles: seq<Tunnel>, waiters: seq<Tunnel>, leftIdles: seq<Tunnel>, leftWaiters: seq<Tunnel>)
    requires Wired(w) && t in w.app && p in w.wait
    requires TookOver(w, u, t, p) && Untouched(w, u, [t], [p]) && Done(u, v, idles, waiters, leftIdles, leftWaiters)
    requires t !in idles && p !in waiters
    requires forall x :: x in idles ==> x in w.app
    requires forall x :: x in waiters ==> x in w.wait
    ensures Done(w, v, [t] + idles, [p] + waiters, leftIdles, leftWaiters) && TookOver(w, v, t, p)
  {
    var n := Min(|idles|, |waiters|);
    PairedUpCons(w, u, v, t, p, idles[..n], waiters[..n]);
    TakeCons(t, idles, n);
    TakeCons(p, waiters, n);
    FirstStays(w, u, v, t, p, idles[..n], waiters[..n]);
  }

  lemma HeadIsNew<T>(x: T, l: seq<T>)
    requires forall i, j :: 0 <= i < j < |l| + 1 ==> ([x] + l)[i] != ([x] + l)[j]
    ensures x !in l
  {
    forall i | 0 <= i < |l| ensures l[i] != x {
      assert ([x] + l)[0] != ([x] + l)[i + 1];
    }
  }

  lemma PartsAreNew(w: World, i: nat, t: Tunnel, p: Tunnel, idles: seq<Tunnel>, waiters: seq<Tunnel>)
    requires Lists(w) && i < |w.app| && Idles(w, w.app[i..]) == [t] + idles && Pairables(w, w.wait) == [p] + waiters
    ensures t in w.app && p in w.wait && t !in idles && p !in waiters
    ensures forall x :: x in idles ==> x in w.app
    ensures forall x :: x in waiters ==> x in w.wait
  {
    NoDupParts(w, w.app[i..]);
    NoDupParts(w, w.wait);
    HeadIsNew(t, idles);
    HeadIsNew(p, waiters);
    IdleMembers(w, w.app[i..]);
    PairableMembers(w, w.wait);
    assert t in [t] + idles && p in [p] + waiters;
    assert forall x :: x in idles ==> x in [t] + idles;
    assert forall x :: x in waiters ==> x in [p] + waiters;
  }

  lemma PassStep(w: World, u: World, v: World, i: nat, p: Tunnel, idles: seq<Tunnel>, waiters: seq<Tunnel>)
    requires Wired(w) && i < |w.app| && TookOver(w, u, w.app[i], p) && Untouched(w, u, [w.app[i]], [p])
    requires Idles(w, w.app[i..]) == [w.app[i]] + idles && Pairables(w, w.wait) == [p] + waiters
    requires Done(u, v, idles, waiters, Idles(v, w.app[i + 1..]), Pairables(v, w.wait))
    ensures Done(w, v, Idles(w, w.app[i..]), Pairables(w, w.wait), Idles(v, w.app[i..]), Pairables(v, w.wait))
  {
    var t := w.app[i];
    PartsAreNew(w, i, t, p, idles, waiters);
    DoneCons(w, u, v, t, p, idles, waiters, Idles(v, w.app[i + 1..]), Pairables(v, w.wait));
    IdlesSkip(v, w.app, i);
  }

  lemma NothingDone(w: World, idles: seq<Tunnel>, waiters: seq<Tunnel>)
    requires Wired(w) && (idles == [] || waiters == [])
    ensures Done(w, w, idles, waiters, idles, waiters)
  {
    assert Min(|idles|, |waiters|) == 0;
    assert idles[..0] == [] && waiters[..0] == [] && idles[0..] == idles && waiters[0..] == waiters;
  }

  lemma TakeMembers<T>(l: seq<T>, n: nat, x: T)
    requires n <= |l| && x !in l
    ensures x !in l[..n]
  {
  }

  lemma BusyIsNotServed(w: World, t: Tunnel, l: seq<Tunnel>)
    requires Lists(w) && t in w.app && w.tuns[t].status != TunnIdle
    ensures t !in Idles(w, l) && t !in Pairables(w, w.wait)
  {
    IdleMembers(w, l);
    PairableMembers(w, w.wait);
  }

  lemma UntouchedStays(w: World, v: World, t: Tunnel, idles: seq<Tunnel>, waiters: seq<Tunnel>)
    requires Untouched(w, v, idles, waiters) && t in w.tuns && t !in idles && t !in waiters
    ensures t in v.tuns && v.tuns[t] == w.tuns[t]
  {
  }

  /** A pass leaves alone a tunnel that is not idle. */
  lemma BusyStays(w: World, v: World, t: Tunnel, l: seq<Tunnel>, n: nat)
    requires Lists(w) && t in w.app && w.tuns[t].status != TunnIdle
    requires n <= |Idles(w, l)| && n <= |Pairables(w, w.wait)|
    requires Untouched(w, v, Idles(w, l)[..n], Pairables(w, w.wait)[..n])
    ensures t in v.tuns && v.tuns[t] == w.tuns[t]
  {
    var idles, waiters := Idles(w, l), Pairables(w, w.wait);
    BusyIsNotServed(w, t, l);
    TakeMembers(idles, n, t);
    TakeMembers(waiters, n, t);
    UntouchedStays(w, v, t, idles[..n], waiters[..n]);
  }

  lemma PassSkips(w: World, v: World, i: nat)
    requires Wired(w) && i < |w.app| && w.tuns[w.app[i]].status != TunnIdle
    requires Done(w, v, Idles(w, w.app[i + 1..]), Pairables(w, w.wait), Idles(v, w.app[i + 1..]), Pairables(v, w.wait))
    ensures Done(w, v, Idles(w, w.app[i..]), Pairables(w, w.wait), Idles(v, w.app[i..]), Pairables(v, w.wait))
  {
    BusyStays(w, v, w.app[i], w.app[i + 1..], Min(|Idles(w, w.app[i + 1..])|, |Pairables(w, w.wait)|));
    IdlesSkip(w, w.app, i);
    IdlesSkip(v, w.app, i);
  }

  /** The pass from entry `i` on. */
  lemma {:induction false} PassPairsUp(w: World, i: nat)
    requires Wired(w) && i <= |w.app|
    ensures PairFrom(w, i).Some?
    ensures var v := PairFrom(w, i).value;
      Done(w, v, Idles(w, w.app[i..]), Pairables(w, w.wait), Idles(v, w.app[i..]), Pairables(v, w.wait))
    decreases |w.app| - i
  {
    if i == |w.app| || (w.tuns[w.app[i]].status == TunnIdle && Pairables(w, w.wait) == []) {
      FirstPairable(w, w.wait);
      NothingDone(w, Idles(w, w.app[i..]), Pairables(w, w.wait));
    } else if w.tuns[w.app[i]].status != TunnIdle {
      IdlesSkip(w, w.app, i);
      PassPairsUp(w, i + 1);
      PassSkips(w, PairFrom(w, i + 1).value, i);
    } else {
      var u, p := FirstStep(w, i);
      PassPairsUp(u, i + 1);
      PassStep(w, u, PairFrom(u, i + 1).value, i, p, Idles(u, w.app[i + 1..]), Pairables(u, w.wait));
    }
  }

  /** The k-th idle tunnel has the remote of the k-th waiter, as often as there are both. */
  predicate Served(w: World, v: World, idles: seq<Tunnel>, waiters: seq<Tunnel>) {
    var n := Min(|idles|, |waiters|);
    PairedUp(w, v, idles[..n], waiters[..n])
  }

  /** The pairing pass, in every state the server can reach.  The k-th idle tunnel in AppList order gets
      the k-th pairable remote in waitList order, as often as there are both and however far the
      handshake of the tunnel is; buffered input goes to the tail of the private socket's write buffer,
      if there is one; nothing else changes; and afterwards no idle tunnel coexists with a pairable
      waiter. */
  lemma PairingPass(w: World)
    requires Wired(w)
    ensures PairFrom(w, 0).Some?
    ensures var v := PairFrom(w, 0).value; var idles, waiters := Idles(w, w.app), Pairables(w, w.wait);
      && Wired(v) && Served(w, v, idles, waiters)
      && (Idles(v, v.app) == [] || Pairables(v, v.wait) == [])
  {
    PassPairsUp(w, 0);
    assert w.app[0..] == w.app;
  }

  /** The tunnels and the entries a pass works on. */
  lemma PassServes(w: World) returns (v: World, idles: seq<Tunnel>, waiters: seq<Tunnel>)
    requires Wired(w)
    ensures PairFrom(w, 0) == Some(v) && Wired(v) && PairedUp(w, v, idles, waiters)
    ensures forall x :: x in idles ==> x in w.app && x in w.tuns && w.tuns[x].status == TunnIdle
    ensures forall x :: x in waiters ==> x in w.wait
    ensures idles == Idles(w, w.app)[..Min(|Idles(w, w.app)|, |Pairables(w, w.wait)|)]
  {
    PairingPass(w);
    v := PairFrom(w, 0).value;
    var n := Min(|Idles(w, w.app)|, |Pairables(w, w.wait)|);
    idles, waiters := Idles(w, w.app)[..n], Pairables(w, w.wait)[..n];
    IdleMembers(w, w.app);
    PairableMembers(w, w.wait);
  }

  /** A waiter, in fields: it waits, or it is alive and its remote has unread input. */
  predicate WantsTunnel(w: World, p: Tunnel)
    requires p in w.tuns
  {
    var td := w.tuns[p];
    td.status == TmptunWait || (td.status == TmptunAlive && td.remote in w.socks && w.socks[td.remote].rbuf != [])
  }

  lemma PassChangesWaiters(w: World, p: Tunnel)
    requires Wired(w) && p in w.wait
    ensures PairFrom(w, 0).Some? && p in PairFrom(w, 0).value.tuns
    ensures PairFrom(w, 0).value.tuns[p] != w.tuns[p] ==> WantsTunnel(w, p)
  {
    PairingPass(w);
    PairableMembers(w, w.wait);
    IdleMembers(w, w.app);
  }

  lemma PassLeavesNone(w: World, t: Tunnel, p: Tunnel)
    requires Wired(w) && t in w.app && p in w.wait
    ensures PairFrom(w, 0).Some? && t in PairFrom(w, 0).value.tuns && p in PairFrom(w, 0).value.tuns
    ensures !(PairFrom(w, 0).value.tuns[t].status == TunnIdle && WantsTunnel(PairFrom(w, 0).value, p))
  {
    PairingPass(w);
    var v := PairFrom(w, 0).value;
    IdleMembers(v, v.app);
    PairableMembers(v, v.wait);
  }

  /** A pass, in fields.  It changes no entry but those that want a tunnel, and when it is over there is not
      both an idle tunnel and an entry that wants one. */
  lemma PassInFields(w: World)
    requires Wired(w)
    ensures PairFrom(w, 0).Some? && PairFrom(w, 0).value.tuns.Keys == w.tuns.Keys
    ensures var v := PairFrom(w, 0).value;
      && v.app == w.app && v.wait == w.wait
      && (forall p :: p in w.wait && v.tuns[p] != w.tuns[p] ==> WantsTunnel(w, p))
      && (forall t, p :: t in v.app && p in v.wait ==> !(v.tuns[t].status == TunnIdle && WantsTunnel(v, p)))
  {
    var v, idles, waiters := PassServes(w);
    forall p | p in w.wait && v.tuns[p] != w.tuns[p] ensures WantsTunnel(w, p) {
      PassChangesWaiters(w, p);
    }
    forall t, p | t in v.app && p in v.wait ensures !(v.tuns[t].status == TunnIdle && WantsTunnel(v, p)) {
      PassLeavesNone(w, t, p);
    }
  }

  // ----- remotes

  /** `s` is the remote of its own tunnel and of no other. */
  predicate HasOneTunnel(w: World, s: Sock) {
    && Known(w, s) && w.tuns[w.socks[s].tunnel].remote == s
    && forall t :: t in w.tuns && w.tuns[t].remote == s ==> t == w.socks[s].tunnel
  }

  lemma OneTunnel(w: World, s: Sock)
    requires Wired(w) && s in w.socks
    ensures HasOneTunnel(w, s) <==> w.tuns[w.socks[s].tunnel].remote == s
  {
    SockOwner(w, s);
    forall t | t in w.tuns && w.tuns[t].remote == s ensures t == w.socks[s].tunnel {
      assert TunWired(w, t);
    }
  }

  /** The three ways a pass can treat a socket. */
  lemma SockInPass(w: World, v: World, s: Sock, idles: seq<Tunnel>, waiters: seq<Tunnel>)
    requires Wired(w) && s in w.socks && PairedUp(w, v, idles, waiters)
    requires forall x :: x in idles ==> x in w.app
    requires forall x :: x in waiters ==> x in w.wait
    ensures s in v.socks && v.socks[s].ispriv == w.socks[s].ispriv
    ensures w.socks[s].tunnel in waiters ==> v.socks[s].tunnel in v.tuns && v.tuns[v.socks[s].tunnel].remote == s
    ensures w.socks[s].tunnel !in waiters ==> v.socks[s].tunnel == w.socks[s].tunnel
  {
    SockOwner(w, s);
    var t := w.socks[s].tunnel;
    if t in waiters {
      var k :| 0 <= k < |waiters| && waiters[k] == t;
      assert TookOver(w, v, idles[k], waiters[k]);
    } else if t in idles && w.socks[s].ispriv {
      var k :| 0 <= k < |idles| && idles[k] == t;
      assert TookOver(w, v, idles[k], waiters[k]);
    }
  }

  lemma RemoteInPass(w: World, v: World, s: Sock, idles: seq<Tunnel>, waiters: seq<Tunnel>)
    requires Wired(w) && Wired(v) && s in w.socks && PairedUp(w, v, idles, waiters) && HasOneTunnel(w, s)
    requires forall x :: x in idles ==> x in w.app
    requires forall x :: x in waiters ==> x in w.wait
    ensures HasOneTunnel(v, s) <==> w.socks[s].tunnel !in idles
  {
    SockInPass(w, v, s, idles, waiters);
    OneTunnel(v, s);
    var t := w.socks[s].tunnel;
    if t in idles {
      var k :| 0 <= k < |idles| && idles[k] == t;
      assert TookOver(w, v, idles[k], waiters[k]) && TunWired(w, waiters[k]);
      assert waiters[k] in waiters;
    } else if t !in waiters {
      assert v.tuns[t] == w.tuns[t];
    }
  }

  /** What `n` pairings do to the remotes. */
  predicate Conserved(w: World, v: World, idles: seq<Tunnel>) {
    && v.socks.Keys == w.socks.Keys
    && (forall s :: s in w.socks ==> v.socks[s].ispriv == w.socks[s].ispriv)
    && (forall s :: s in w.socks && HasOneTunnel(w, s) ==> (HasOneTunnel(v, s) <==> w.socks[s].tunnel !in idles))
  }

  lemma PairedUpConserves(w: World, v: World, idles: seq<Tunnel>, waiters: seq<Tunnel>)
    requires Wired(w) && Wired(v) && PairedUp(w, v, idles, waiters)
    requires forall x :: x in idles ==> x in w.app
    requires forall x :: x in waiters ==> x in w.wait
    ensures Conserved(w, v, idles)
  {
    forall s | s in w.socks ensures v.socks[s].ispriv == w.socks[s].ispriv {
      SockInPass(w, v, s, idles, waiters);
    }
    forall s | s in w.socks && HasOneTunnel(w, s) ensures HasOneTunnel(v, s) <==> w.socks[s].tunnel !in idles {
      RemoteInPass(w, v, s, idles, waiters);
    }
  }

  /** The live sockets and their kinds are the same after a pass.  A remote that is the remote of exactly
      one tunnel before is so afterwards, unless its own tunnel was served: a tunnel that has become
      idle with a remote drops it for the new one. */
  lemma RemotesConserved(w: World)
    requires Wired(w)
    ensures PairFrom(w, 0).Some?
    ensures Conserved(w, PairFrom(w, 0).value, Idles(w, w.app)[..Min(|Idles(w, w.app)|, |Pairables(w, w.wait)|)])
  {
    var v, idles, waiters := PassServes(w);
    PairedUpConserves(w, v, idles, waiters);
  }

  /** In a pool in order no idle tunnel has a remote, so no remote is lost or doubled. */
  lemma NoRemoteDropped(w: World, s: Sock)
    requires Shape(w) && s in w.socks && !w.socks[s].ispriv
    ensures PairFrom(w, 0).Some?
    ensures HasOneTunnel(w, s) && s in PairFrom(w, 0).value.socks && HasOneTunnel(PairFrom(w, 0).value, s)
  {
    ShapeIsWired(w);
    RemotesConserved(w);
    Owner(w, s);
    OneTunnel(w, s);
    IdleMembers(w, w.app);
  }

  // ----- passes that reach only finished handshakes

  lemma RelinkedTuns(w: World, t: Tunnel, p: Tunnel, r: Sock)
    requires Shape(w) && t in w.app && w.tuns[t].status == TunnIdle && w.tuns[t].hs.state == ConnectedState
    requires p in w.wait && w.tuns[p].remote == r && r in w.socks
    ensures t != p && AppOk(Relinked(w, t, p, r), t) && WaitOk(Relinked(w, t, p, r), p)
    ensures Elsewhere(w, Relinked(w, t, p, r), t, p)
  {
    assert AppOk(w, t) && WaitOk(w, p);
  }

  lemma RelinkedSock(w: World, t: Tunnel, p: Tunnel, r: Sock, x: Sock)
    requires Shape(w) && t in w.app && w.tuns[t].status == TunnIdle && w.tuns[t].hs.state == ConnectedState
    requires p in w.wait && w.tuns[p].remote == r && r in w.socks && x in w.socks
    requires x == r || w.socks[x].tunnel == t || w.socks[x].tunnel == p
    ensures SockOk(Relinked(w, t, p, r), x)
  {
    assert AppOk(w, t) && WaitOk(w, p) && SockOk(w, x);
  }

  lemma RelinkKeeps(w: World, t: Tunnel, p: Tunnel, r: Sock)
    requires Shape(w) && t in w.app && w.tuns[t].status == TunnIdle && w.tuns[t].hs.state == ConnectedState
    requires p in w.wait && w.tuns[p].remote == r && r in w.socks
    ensures Shape(Relinked(w, t, p, r))
  {
    var v := Relinked(w, t, p, r);
    RelinkedTuns(w, t, p, r);
    forall x | x in v.socks && (v.socks[x].tunnel == t || v.socks[x].tunnel == p) ensures SockOk(v, x) {
      RelinkedSock(w, t, p, r, x);
    }
    ShapeByParts(w, v, t, p);
  }

  /** Pairing a tunnel that has finished its handshake keeps the pool's shape. */
  lemma PairOneKeepsShape(w: World, u: World, t: Tunnel, p: Tunnel)
    requires Shape(w) && t in w.app && w.tuns[t].status == TunnIdle && w.tuns[t].hs.state == ConnectedState
    requires p in w.wait && Pairable(w, p) && PairOne(w, t, p) == Some(u)
    ensures Shape(u)
  {
    assert AppOk(w, t) && WaitOk(w, p);
    var r, priv := w.tuns[p].remote, w.tuns[t].priv;
    RelinkKeeps(w, t, p, r);
    PairOneIs(w, t, p, r);
    if w.socks[r].rbuf != [] {
      ForwardKeeps(Relinked(w, t, p, r), t, r, priv);
    }
  }

  lemma FirstIdleIsSafe(w: World, i: nat)
    requires i < |w.app| && PairSafe(w, i) && w.app[i] in w.tuns && w.tuns[w.app[i]].status == TunnIdle
    requires Pairables(w, w.wait) != []
    ensures w.tuns[w.app[i]].hs.state == ConnectedState
  {
    assert Idles(w, w.app[i..])[0] == w.app[i];
  }

  lemma SafeCons(w: World, u: World, t: Tunnel, rest: seq<Tunnel>, n: nat)
    requires t in w.tuns && w.tuns[t].hs.state == ConnectedState
    requires forall k :: 0 <= k < |rest| ==>
      rest[k] in u.tuns && rest[k] in w.tuns && u.tuns[rest[k]] == w.tuns[rest[k]]
    ensures (forall k :: 0 <= k < |rest| && k < n ==> u.tuns[rest[k]].hs.state == ConnectedState)
       <==> (forall k :: 0 <= k < |[t] + rest| && k < n + 1 ==> w.tuns[([t] + rest)[k]].hs.state == ConnectedState)
  {
    if forall k :: 0 <= k < |[t] + rest| && k < n + 1 ==> w.tuns[([t] + rest)[k]].hs.state == ConnectedState {
      forall k | 0 <= k < |rest| && k < n ensures u.tuns[rest[k]].hs.state == ConnectedState {
        assert ([t] + rest)[k + 1] == rest[k];
      }
    }
  }

  lemma SafeAfterOne(w: World, u: World, i: nat, p: Tunnel)
    requires Lists(w) && i < |w.app| && p in w.wait && Untouched(w, u, [w.app[i]], [p])
    requires w.tuns[w.app[i]].hs.state == ConnectedState
    requires Idles(w, w.app[i..]) == [w.app[i]] + Idles(u, u.app[i + 1..])
    requires Pairables(w, w.wait) == [p] + Pairables(u, u.wait)
    ensures PairSafe(w, i) <==> PairSafe(u, i + 1)
  {
    var rest := Idles(u, u.app[i + 1..]);
    IdleMembers(u, u.app[i + 1..]);
    forall k | 0 <= k < |rest| ensures rest[k] in w.tuns && u.tuns[rest[k]] == w.tuns[rest[k]] {
      assert rest[k] in rest;
      OthersStay(w, u, i, p, rest[k]);
    }
    SafeCons(w, u, w.app[i], rest, |Pairables(u, u.wait)|);
  }
}
