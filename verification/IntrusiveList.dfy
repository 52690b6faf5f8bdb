/** `list.h` and `Utils.c`: a circular doubly linked list of entries, its searches and its traversal. */
module IntrusiveList {
  /** A `connList_t` or `sockList_t`: the link fields and what the entry carries. */
  class Node<T> {
    var prev: Node<T>
    var next: Node<T>
    var payload: T

    /** `INIT_LIST_HEAD`: a ring of its own. */
    constructor (payload: T)
      ensures prev == this && next == this && this.payload == payload
    {
      prev, next, this.payload := this, this, payload;
    }
  }

  /** The entry `k` places behind `head`; place 0 and place `|s| + 1` are `head` itself. */
  ghost function At<T>(head: Node<T>, s: seq<Node<T>>, k: int): Node<T>
    requires 0 <= k <= |s| + 1
  {
    if k == 0 || k == |s| + 1 then head else s[k - 1]
  }

  ghost predicate Distinct<T>(head: Node<T>, s: seq<Node<T>>) {
    && head !in s
    && forall i, j :: 0 <= i < j < |s| ==> s[i] != s[j]
  }

  /** Neighbours agree: `next` of one is the other, and `prev` of the other is the one. */
  ghost predicate Linked<T>(head: Node<T>, s: seq<Node<T>>, k: int)
    requires 0 <= k <= |s|
    reads head, s
  {
    At(head, s, k).next == At(head, s, k + 1) && At(head, s, k + 1).prev == At(head, s, k)
  }

  /** `s` is the list hanging from `head`: `next` and `prev` are mutual inverses all the way round. */
  ghost predicate Ring<T>(head: Node<T>, s: seq<Node<T>>)
    reads head, s
  {
    && Distinct(head, s)
    && forall k :: 0 <= k <= |s| ==> Linked(head, s, k)
  }

  /** Places of the ring other than the closing one hold different nodes. */
  lemma AtInjective<T>(head: Node<T>, s: seq<Node<T>>)
    requires Distinct(head, s)
    ensures forall i, j :: 0 <= i <= |s| && 0 <= j <= |s| && At(head, s, i) == At(head, s, j) ==> i == j
    ensures forall i, j :: 1 <= i <= |s| + 1 && 1 <= j <= |s| + 1 && At(head, s, i) == At(head, s, j) ==> i == j
  {
  }

  /** `__list_add`, between two neighbours `k` and `k + 1` places behind `head`. */
  method ListInsert<T>(n: Node<T>, prev: Node<T>, next: Node<T>,
                       ghost head: Node<T>, ghost s: seq<Node<T>>, ghost k: nat)
    requires Ring(head, s) && n != head && n !in s
    requires k <= |s| && prev == At(head, s, k) && next == At(head, s, k + 1)
    modifies n`next, n`prev, next`prev, prev`next
    ensures Ring(head, s[..k] + [n] + s[k..])
  {
    assert Linked(head, s, k);
    n.next := next;
    next.prev := n;
    prev.next := n;
    n.prev := prev;
    ghost var s' := s[..k] + [n] + s[k..];
    assert forall i :: 0 <= i <= |s'| + 1 ==>
        At(head, s', i) == if i <= k then At(head, s, i) else if i == k + 1 then n else At(head, s, i - 1);
    AtInjective(head, s);
    forall i | 0 <= i <= |s'| ensures Linked(head, s', i) {
      if i < k {
        assert old(Linked(head, s, i));
      } else if i > k + 1 {
        assert old(Linked(head, s, i - 1));
      }
    }
  }

  /** `list_add`: directly behind the head. */
  method ListAdd<T>(n: Node<T>, head: Node<T>, ghost s: seq<Node<T>>)
    requires Ring(head, s) && n != head && n !in s
    modifies n`next, n`prev, head`next, head.next`prev
    ensures Ring(head, [n] + s)
  {
    assert Linked(head, s, 0);
    ListInsert(n, head, head.next, head, s, 0);
    assert s[..0] + [n] + s[0..] == [n] + s;
  }

  /** `list_add_tail`: directly in front of the head. */
  method ListAddTail<T>(n: Node<T>, head: Node<T>, ghost s: seq<Node<T>>)
    requires Ring(head, s) && n != head && n !in s
    modifies n`next, n`prev, head`prev, head.prev`next
    ensures Ring(head, s + [n])
  {
    assert Linked(head, s, |s|);
    ListInsert(n, head.prev, head, head, s, |s|);
    assert s[..|s|] + [n] + s[|s|..] == s + [n];
  }

  /** `list_del`: the neighbours of `entry` close over it; its own links stay as they were. */
  method ListDel<T>(entry: Node<T>, ghost head: Node<T>, ghost s: seq<Node<T>>, ghost k: nat)
    requires Ring(head, s) && k < |s| && s[k] == entry
    modifies entry.prev`next, entry.next`prev
    ensures Ring(head, s[..k] + s[k + 1..])
    ensures entry.prev == old(entry.prev) && entry.next == old(entry.next)
  {
    AtInjective(head, s);
    assert entry == At(head, s, k + 1) && Linked(head, s, k) && Linked(head, s, k + 1);
    var prev, next := entry.prev, entry.next;
    prev.next := next;
    next.prev := prev;
    ghost var s' := s[..k] + s[k + 1..];
    assert forall i :: 0 <= i <= |s'| + 1 ==> At(head, s', i) == if i <= k then At(head, s, i) else At(head, s, i + 1);
    forall i | 0 <= i <= |s'| ensures Linked(head, s', i) {
      assert i < k ==> old(Linked(head, s, i));
      assert i > k ==> old(Linked(head, s, i + 1));
    }
  }

  /** Where a search that accepts the first match stops. */
  ghost function FirstMatch<T>(p: seq<T>, cbf: T -> bool): (k: nat)
    ensures k <= |p|
    ensures forall i :: 0 <= i < k ==> !cbf(p[i])
    ensures k < |p| ==> cbf(p[k])
  {
    if p == [] || cbf(p[0]) then 0 else 1 + FirstMatch(p[1..], cbf)
  }

  /** What a traversal leaves in the entries, and the accumulator it returns: `cbf` rewrites each
      payload in turn and the walk ends behind the first entry for which it answers `stop`. */
  function DoSpec<T, A>(p: seq<T>, cbf: (T, A) -> (T, A, int), arg: A, stop: int): (seq<T>, A) {
    if p == [] then (p, arg)
    else
      var (x, a, rc) := cbf(p[0], arg);
      if rc == stop then ([x] + p[1..], a)
      else
        var (rest, b) := DoSpec(p[1..], cbf, a, stop);
        ([x] + rest, b)
  }

  /** Which entries a traversal visits: a prefix of the list. */
  function Visited<T, A>(p: seq<T>, cbf: (T, A) -> (T, A, int), arg: A, stop: int): nat {
    if p == [] then 0
    else
      var (_, a, rc) := cbf(p[0], arg);
      if rc == stop then 1 else 1 + Visited(p[1..], cbf, a, stop)
  }

  /** A traversal keeps every entry behind the visited prefix, never loses an entry, and is cut
      short exactly by an entry that answered `stop`. */
  lemma {:induction false} DoTouchesOnlyAPrefix<T, A>(p: seq<T>, cbf: (T, A) -> (T, A, int), arg: A, stop: int)
    ensures var (q, _) := DoSpec(p, cbf, arg, stop); var v := Visited(p, cbf, arg, stop);
      && |q| == |p| && v <= |p| && q[v..] == p[v..]
      && (v < |p| ==>
        && v > 0
        && var (q0, a0) := DoSpec(p[..v - 1], cbf, arg, stop);
        q[..v - 1] == q0 && cbf(p[v - 1], a0).2 == stop)
  {
    if p != [] {
      var (x, a, rc) := cbf(p[0], arg);
      if rc == stop {
        assert p[..0] == [];
      } else {
        DoTouchesOnlyAPrefix(p[1..], cbf, a, stop);
        var v := Visited(p[1..], cbf, a, stop);
        if v < |p| - 1 {
          assert p[..v][1..] == p[1..][..v - 1];
        }
      }
    }
  }

  /** Finished entries in front of what the rest of a traversal leaves. */
  function DoRest<T, A>(done: seq<T>, rest: (seq<T>, A)): (seq<T>, A) {
    (done + rest.0, rest.1)
  }

  /** One turn of a traversal that has reached entry `k`. */
  lemma DoUnfold<T, A>(p: seq<T>, k: nat, cbf: (T, A) -> (T, A, int), arg: A, stop: int)
    requires k < |p|
    ensures var (x, a, rc) := cbf(p[k], arg); var done := p[..k] + [x];
      DoRest(p[..k], DoSpec(p[k..], cbf, arg, stop))
      == if rc == stop then (done + p[k + 1..], a) else DoRest(done, DoSpec(p[k + 1..], cbf, a, stop))
  {
    var (x, a, rc) := cbf(p[k], arg);
    var tail := if rc == stop then p[k + 1..] else DoSpec(p[k + 1..], cbf, a, stop).0;
    assert p[k..][1..] == p[k + 1..];
    assert p[..k] + ([x] + tail) == p[..k] + [x] + tail;
  }

  /** The first match is where nothing earlier matched. */
  lemma {:induction false} FirstMatchIs<T>(p: seq<T>, cbf: T -> bool, k: nat)
    requires k <= |p| && (forall i :: 0 <= i < k ==> !cbf(p[i])) && (k < |p| ==> cbf(p[k]))
    ensures FirstMatch(p, cbf) == k
  {
    if k > 0 {
      assert !cbf(p[0]);
      forall i | 0 <= i < k - 1 ensures !cbf(p[1..][i]) {
        assert !cbf(p[i + 1]);
      }
      FirstMatchIs(p[1..], cbf, k - 1);
    }
  }

  /** One of the lists of `Utils.c` (AppList, waitList, FdList): a head that carries no entry. */
  class EntryList<T> {
    const head: Node<T>
    ghost var nodes: seq<Node<T>>
    ghost var contents: seq<T>  // what the entries carry, in list order

    ghost predicate Valid()
      reads this, head, nodes
    {
      && Ring(head, nodes)
      && |contents| == |nodes|
      && forall i :: 0 <= i < |nodes| ==> nodes[i].payload == contents[i]
    }

    /** `AppListInit`, `waitListInit`, `FdListInit`. */
    constructor (filler: T)
      ensures Valid() && contents == [] && fresh(head)
    {
      head := new Node<T>(filler);
      nodes, contents := [], [];
    }

    /** `AppListAdd`, `waitListAdd`, `FdListAdd`: new entries go to the front. */
    method Add(p: Node<T>)
      requires Valid() && p != head && p !in nodes
      modifies this`nodes, this`contents, p`next, p`prev, head`next, head.next`prev
      ensures Valid() && nodes == [p] + old(nodes)
      ensures contents == [p.payload] + old(contents)
    {
      ListAdd(p, head, nodes);
      nodes, contents := [p] + nodes, [p.payload] + contents;
    }

    /** `list_empty`. */
    method Empty() returns (r: bool)
      requires Valid()
      ensures r <==> contents == []
    {
      r := head.next == head && head.prev == head;
      assert Linked(head, nodes, 0) && Linked(head, nodes, |nodes|);
    }

    /** `AppListFnd`, `waitListFnd`, `FdListFnd`: the first entry in list order that matches. */
    method Fnd(cbf: T -> bool) returns (p: Node?<T>)
      requires Valid()
      ensures var k := FirstMatch(contents, cbf); p == if k < |nodes| then nodes[k] else null
    {
      ghost var k := 0;
      var entry := head.next;
      assert Linked(head, nodes, 0);
      while entry != head
        invariant k <= |nodes| && entry == At(head, nodes, k + 1)
        invariant forall i :: 0 <= i < k ==> !cbf(contents[i])
        decreases |nodes| - k
      {
        assert entry == nodes[k];
        if cbf(entry.payload) {
          FirstMatchIs(contents, cbf, k);
          return entry;
        }
        assert Linked(head, nodes, k + 1);
        entry := entry.next;
        k := k + 1;
      }
      AtInjective(head, nodes);
      assert At(head, nodes, |nodes| + 1) == head;
      FirstMatchIs(contents, cbf, k);
      p := null;
    }

    /** `AppListGet`, `waitListGet`, `FdListGet`: find and unlink. */
    method Get(cbf: T -> bool) returns (p: Node?<T>)
      requires Valid()
      modifies this`nodes, this`contents, head`next, head`prev, nodes
      ensures Valid()
      ensures var k := FirstMatch(old(contents), cbf);
        if k < |old(nodes)| then
          p == old(nodes)[k] && nodes == old(nodes)[..k] + old(nodes)[k + 1..]
          && contents == old(contents)[..k] + old(contents)[k + 1..]
        else p == null && nodes == old(nodes) && contents == old(contents)
    {
      p := Fnd(cbf);
      if p != null {
        ghost var k := FirstMatch(contents, cbf);
        assert p == At(head, nodes, k + 1) && Linked(head, nodes, k) && Linked(head, nodes, k + 1);
        ListDel(p, head, nodes, k);
        nodes, contents := nodes[..k] + nodes[k + 1..], contents[..k] + contents[k + 1..];
      }
    }

    /** `AppListDo` (`stop` is -1) and `waitListDo` (`stop` is 1): walk the list once from the front
        while the callback rewrites what the entries carry.  The links are only read. */
    method Do<A>(cbf: (T, A) -> (T, A, int), arg: A, stop: int) returns (res: A)
      requires Valid()
      modifies this`contents, nodes
      ensures Valid() && nodes == old(nodes)
      ensures (contents, res) == DoSpec(old(contents), cbf, arg, stop)
    {
      ghost var before, k := contents, 0;
      res := arg;
      var entry := head.next;
      assert Linked(head, nodes, 0) && before[0..] == before;
      assert before[..0] + DoSpec(before, cbf, arg, stop).0 == DoSpec(before, cbf, arg, stop).0;
      while entry != head
        invariant Valid() && nodes == old(nodes) && k <= |nodes| && entry == At(head, nodes, k + 1)
        invariant contents[k..] == before[k..]
        invariant DoSpec(before, cbf, arg, stop) == DoRest(contents[..k], DoSpec(contents[k..], cbf, res, stop))
        decreases |nodes| - k
      {
        ghost var seen := contents;
        DoUnfold(seen, k, cbf, res, stop);
        var rc;
        entry, res, rc := CallBack(k, entry, cbf, res);
        assert contents[..k + 1] == seen[..k] + [contents[k]] && contents[k + 1..] == seen[k + 1..];
        if rc == stop {
          assert contents == contents[..k + 1] + seen[k + 1..];
          return;
        }
        k := k + 1;
      }
      AtInjective(head, nodes);
      assert At(head, nodes, |nodes| + 1) == head;
      assert contents[k..] == [] && contents[..k] + [] == contents;
    }

    /** One turn of the walk: the callback rewrites the entry, the ring stays, the walk moves on. */
    method CallBack<A>(ghost k: nat, entry: Node<T>, cbf: (T, A) -> (T, A, int), arg: A)
      returns (next: Node<T>, res: A, rc: int)
      requires Valid() && k < |nodes| && entry == nodes[k]
      modifies this`contents, entry`payload
      ensures Valid() && next == At(head, nodes, k + 2)
      ensures (contents[k], res, rc) == cbf(old(contents)[k], arg)
      ensures contents == old(contents)[k := contents[k]]
    {
      assert Linked(head, nodes, k + 1) && entry == At(head, nodes, k + 1);
      var (x, a, r) := cbf(entry.payload, arg);
      entry.payload, contents := x, contents[k := x];
      assert forall i :: 0 <= i <= |nodes| ==> old(Linked(head, nodes, i)) ==> Linked(head, nodes, i);
      return entry.next, a, r;
    }
  }
}
