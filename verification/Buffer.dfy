/** `buff.c`: a byte queue in a growable array, compacted before it is doubled. */
module Buffer {
  import opened Common

  const INT_MAX: nat := 0x7fff_ffff
  const INIT_BUFF_CAP: nat := 1024

  /** `cap` after `times` calls of `buff_expand`. */
  function Doubled(cap: nat, times: nat): nat {
    if times == 0 then cap else 2 * Doubled(cap, times - 1)
  }

  /** A buffer of capacity `cap` can be doubled until `need` bytes fit: no request is past `INT_MAX`, and
      the allocator grants each of them. */
  predicate CanGrow(alloc: nat -> bool, cap: nat, need: nat)
    requires cap > 0
    decreases if need > cap then need - cap else 0
  {
    need <= cap || (2 * cap <= INT_MAX && alloc(2 * cap) && CanGrow(alloc, 2 * cap, need))
  }

  /** An allocator that grants everything lets the buffer grow for up to half of `INT_MAX` bytes. */
  lemma {:induction false} GrowthSuffices(alloc: nat -> bool, cap: nat, need: nat)
    requires cap > 0 && 2 * need <= INT_MAX && forall n: nat :: alloc(n)
    ensures CanGrow(alloc, cap, need)
    decreases if need > cap then need - cap else 0
  {
    if need > cap {
      GrowthSuffices(alloc, 2 * cap, need);
    }
  }

  class Buff {
    var data: array<byte>
    var writeIndex: nat
    var readIndex: nat
    var cap: nat
    ghost const initCap: nat
    ghost var doublings: nat

    ghost predicate Valid()
      reads this, data
    {
      && data.Length == cap
      && 0 < cap <= INT_MAX
      && readIndex <= writeIndex <= cap
      && cap == Doubled(initCap, doublings)
    }

    /** The abstract queue: the readable slice. */
    ghost function Contents(): seq<byte>
      reads this, data
      requires Valid()
    {
      data[readIndex..writeIndex]
    }

    /** `buff_create`. */
    constructor (capacity: nat)
      requires 0 < capacity <= INT_MAX
      ensures Valid() && fresh(data)
      ensures Contents() == [] && cap == initCap == capacity
    {
      data := new byte[capacity](_ => 0);
      writeIndex, readIndex, cap := 0, 0, capacity;
      initCap, doublings := capacity, 0;
    }

    function Readable(): nat
      reads this
      requires readIndex <= writeIndex
    {
      writeIndex - readIndex
    }

    function Writable(): nat
      reads this
      requires writeIndex <= cap
    {
      cap - writeIndex
    }

    function Prependable(): nat
      reads this
    {
      readIndex
    }

    /** `buff_expand`: `int newcap` makes a request past `INT_MAX` fail, and `alloc` says which requests
        `realloc` grants.  It fails for no other reason. */
    method Expand(alloc: nat -> bool) returns (rc: int)
      requires Valid()
      modifies this
      ensures Valid() && (data == old(data) || fresh(data))
      ensures rc == if 2 * old(cap) <= INT_MAX && alloc(2 * old(cap)) then 0 else -1
      ensures readIndex == old(readIndex) && writeIndex == old(writeIndex)
      ensures Contents() == old(Contents())
      ensures cap == if rc == 0 then 2 * old(cap) else old(cap)
      ensures rc == -1 ==> data == old(data)
    {
      if 2 * cap > INT_MAX || !alloc(2 * cap) {
        return -1;
      }
      var newdata := new byte[2 * cap](_ => 0);
      forall i | 0 <= i < cap {
        newdata[i] := data[i];
      }
      assert newdata[readIndex..writeIndex] == data[readIndex..writeIndex];
      cap, data, doublings := 2 * cap, newdata, doublings + 1;
      rc := 0;
    }

    /** The `memmove` of `buff_write`: the readable bytes go to the front of the array. */
    method MoveDown()
      requires Valid()
      modifies this`readIndex, this`writeIndex, data
      ensures Valid() && Contents() == old(Contents())
      ensures Writable() == old(Writable()) + old(Prependable())
    {
      var readable := Readable();
      forall i | 0 <= i < readable {
        data[i] := data[readIndex + i];
      }
      assert data[..readable] == old(Contents());
      readIndex, writeIndex := 0, readable;
    }

    /** `buff_write`: append all of `src`, or fail and keep the queue as it was.  It fails exactly when the
        buffer cannot grow far enough. */
    method Write(src: seq<byte>, alloc: nat -> bool) returns (rc: int)
      requires Valid()
      modifies this, data
      ensures Valid() && (data == old(data) || fresh(data))
      ensures rc == if CanGrow(alloc, old(cap), old(Readable()) + |src|) then 0 else -1
      ensures Contents() == if rc == 0 then old(Contents()) + src else old(Contents())
      ensures old(Readable()) + |src| <= old(cap) ==> rc == 0 && cap == old(cap)
      ensures cap == old(cap) || (old(cap) < cap && cap < 2 * (old(Readable()) + |src|))
    {
      while true
        invariant Valid() && (data == old(data) || fresh(data))
        invariant Contents() == old(Contents())
        invariant cap == old(cap) || (old(cap) < cap && cap < 2 * (old(Readable()) + |src|))
        invariant old(Readable()) + |src| <= old(cap) ==> cap == old(cap)
        invariant CanGrow(alloc, old(cap), old(Readable()) + |src|) == CanGrow(alloc, cap, old(Readable()) + |src|)
        decreases old(Readable()) + |src| - cap
      {
        if Writable() >= |src| {
          break;
        }
        var prependable := Prependable();
        if prependable + Writable() >= |src| {
          MoveDown();
          break;
        }
        assert |old(Contents())| == Readable();
        var expanded := Expand(alloc);
        if expanded < 0 {
          return -1;
        }
      }
      Append(src);
      rc := 0;
    }

    /** The closing `memcpy` of `buff_write`, once `src` fits behind `writeIndex`. */
    method Append(src: seq<byte>)
      requires Valid() && |src| <= Writable()
      modifies this`writeIndex, data
      ensures Valid() && Contents() == old(Contents()) + src
    {
      ghost var front := Contents();
      forall i | 0 <= i < |src| {
        data[writeIndex + i] := src[i];
      }
      assert data[readIndex..writeIndex] == front;
      assert data[writeIndex..writeIndex + |src|] == src;
      writeIndex := writeIndex + |src|;
    }

    /** `buff_concat`: append the readable part of `rear`, which keeps it. */
    method Concat(rear: Buff, alloc: nat -> bool) returns (rc: int)
      requires Valid() && rear.Valid() && rear != this && rear.data != data
      modifies this, data
      ensures Valid() && (data == old(data) || fresh(data))
      ensures rear.Valid() && rear.Contents() == old(rear.Contents())
      ensures rc == if CanGrow(alloc, old(cap), old(Readable()) + |old(rear.Contents())|) then 0 else -1
      ensures Contents() == if rc == 0 then old(Contents()) + rear.Contents() else old(Contents())
    {
      rc := Write(rear.data[rear.readIndex..rear.writeIndex], alloc);
    }

    /** `buff_read`; its `assert(size <= readable)` is the precondition. */
    method Read(size: nat) returns (dst: seq<byte>)
      requires Valid() && size <= Readable()
      modifies this`readIndex
      ensures Valid() && dst + Contents() == old(Contents()) && |dst| == size
    {
      dst := data[readIndex..readIndex + size];
      readIndex := readIndex + size;
    }

    /** `buff_skip`. */
    method Skip(size: nat)
      requires Valid() && size <= Readable()
      modifies this`readIndex
      ensures Valid() && Contents() == old(Contents())[size..]
    {
      readIndex := readIndex + size;
    }

    /** `buff_readfd`.  `offer` is what the descriptor delivers to a large enough `read`; an empty
        offer is end of file and `failed` an error return.  A full buffer is grown first, so a
        result of 0 always means end of file and never lack of room, and otherwise as much is read as
        there is, or as there is room for. */
    method ReadFd(offer: seq<byte>, failed: bool, alloc: nat -> bool) returns (n: int)
      requires Valid()
      modifies this, data
      ensures Valid() && (data == old(data) || fresh(data))
      ensures var room := if old(Writable()) > 0 then old(Writable())
                          else if 2 * old(cap) <= INT_MAX && alloc(2 * old(cap)) then old(cap) else 0;
        n == if room == 0 || failed then -1 else if |offer| <= room then |offer| else room
      ensures Contents() == if n > 0 then old(Contents()) + offer[..n] else old(Contents())
      ensures n == 0 ==> offer == []
    {
      if Writable() == 0 {
        var expanded := Expand(alloc);
        if expanded < 0 {
          return -1;
        }
      }
      if failed {
        return -1;
      }
      n := if |offer| <= Writable() then |offer| else Writable();
      if n > 0 {
        Append(offer[..n]);
      }
    }

    /** `buff_writefd`: the descriptor takes at most `room` bytes; `room <= 0` is its error return. */
    method WriteFd(room: int) returns (n: int, sent: seq<byte>)
      requires Valid()
      modifies this`readIndex
      ensures Valid() && sent + Contents() == old(Contents())
      ensures n == if room <= 0 then room else if room < |old(Contents())| then room else |old(Contents())|
      ensures |sent| == if n <= 0 then 0 else n
    {
      var readable := Readable();
      n := if room < readable || room <= 0 then room else readable;
      if n <= 0 {
        return n, [];
      }
      sent := data[readIndex..readIndex + n];
      readIndex := readIndex + n;
    }

    /** `buff_clear`. */
    method Clear()
      requires Valid()
      modifies this`readIndex, this`writeIndex
      ensures Valid() && Contents() == []
    {
      writeIndex, readIndex := 0, 0;
    }
  }
}
