/** `Pool`: fixed slots, a free list threaded through an index array, and hand-off of a freed slot
    to a waiter. */
module PoolModel {
  import opened Types
  import M = KernelModel

  /** The free slots in list order, and the slots' contents. */
  datatype Pool = Pool(cap: nat, free: seq<nat>, nodes: seq<Value>)

  ghost predicate PoolOk(p: Pool) {
    && p.cap <= 255 && |p.nodes| == p.cap
    && forall j :: 0 <= j < |p.free| ==> p.free[j] < p.cap
  }

  /** Every task parked on the pool offers the value it wants to store. */
  ghost predicate WaitersParked(k: M.Kern, l: ListId)
    requires M.ListOk(k, l)
  {
    forall j :: 0 <= j < |M.Q(k, l)| ==> k.tasks[M.Q(k, l)[j]].ptr.Parked?
  }

  /** `Pool::new`. The contents of fresh slots are arbitrary. */
  function New(cap: nat, nodes: seq<Value>): Pool {
    Pool(cap, seq(cap, i => i), nodes)
  }

  /** Take the first free slot and store `v` in it. */
  function Store(p: Pool, v: Value): (Pool, nat)
    requires PoolOk(p) && p.free != []
  {
    (Pool(p.cap, p.free[1..], p.nodes[p.free[0] := v]), p.free[0])
  }

  /** `alloc`. */
  function Alloc(p: Pool, v: Value): (Pool, Option<nat>)
    requires PoolOk(p)
  {
    if p.free == [] then (p, None) else (Store(p, v).0, Some(Store(p, v).1))
  }

  /** `alloc_blocking`; the caller finds its slot in `wait_ptr`. */
  function AllocBlocking(k: M.Kern, p: Pool, l: ListId, v: Value): (M.Kern, Pool)
    requires M.Started(k) && PoolOk(p)
  {
    if p.free != [] then (M.SetPtr(k, k.cur, Index(Store(p, v).1)), Store(p, v).0)
    else (M.Park(M.SetPtr(k, k.cur, Parked(v)), l), p)
  }

  /** `PoolBox::drop`: the slot and the waiter's value meet, or the slot becomes free. */
  function Drop(k: M.Kern, p: Pool, l: ListId, slot: nat): (M.Kern, Pool)
    requires M.Started(k) && M.ListOk(k, l) && WaitersParked(k, l) && PoolOk(p) && slot < p.cap
  {
    if M.Q(k, l) == [] then (k, p.(free := [slot] + p.free)) else
    var v := k.tasks[M.BestWaiter(k, l)].ptr.val;
    (M.WakeBestWith(k, l, Index(slot)), p.(nodes := p.nodes[slot := v]))
  }
}

/** The pool on the heap. */
module Pools {
  import opened Types
  import opened Seqs
  import M = KernelModel
  import V = PoolModel
  import opened Scheduler

  const NIL: u8 := 0xFF

  class Pool {
    const nodes: array<Value>
    const next: array<u8>
    var freeHead: u8
    const waitHead: WaitHead

    /** The free list, as linked. */
    ghost var free: seq<nat>

    /** The slot at position `j` of the free list, or the terminator past its end. */
    ghost function SlotAt(j: nat): nat
      reads this
    {
      if j < |free| then free[j] else NIL
    }

    ghost predicate FreeLinkAt(j: nat)
      requires j < |free| && free[j] < next.Length
      reads this, next
    {
      next[free[j]] == SlotAt(j + 1)
    }

    /** The free list is in range, free of repetition, and ends in 0xFF. */
    ghost predicate Valid()
      reads this, next
    {
      && nodes.Length == next.Length <= 255
      && NoDup(free)
      && (forall j :: 0 <= j < |free| ==> free[j] < next.Length)
      && freeHead == SlotAt(0)
      && (forall j :: 0 <= j < |free| ==> FreeLinkAt(j))
    }

    ghost function View(): V.Pool
      reads this, nodes
    {
      V.Pool(nodes.Length, free, nodes[..])
    }

    /** `Pool::new`: slot 0 links to 1, and so on; the last to the terminator. */
    constructor (n: nat, h: WaitHead)
      requires n <= 255
      ensures Valid() && waitHead == h && View() == V.New(n, nodes[..])
    {
      nodes, next, waitHead := new Value[n], new u8[n], h;
      freeHead := if n == 0 then NIL else 0;
      free := seq(n, i => i);
      new;
      LinkAll();
    }

    /** The loop of `Pool::new`. */
    method LinkAll()
      requires next.Length <= 255 && nodes.Length == next.Length
      requires free == seq(next.Length, i => i) && freeHead == if next.Length == 0 then NIL else 0
      modifies next
      ensures Valid()
    {
      var n, i := next.Length, 0;
      while i < n
        invariant 0 <= i <= n
        invariant forall j :: 0 <= j < i ==> next[j] == if j + 1 < n then j + 1 else NIL
      {
        next[i] := if i + 1 < n then i + 1 else NIL;
        i := i + 1;
      }
      assert forall j :: 0 <= j < n ==> FreeLinkAt(j);
    }

    /** Take the head of the free list and store `v` there. */
    method Store(k: Kernel, v: Value) returns (s: u8)
      requires Valid() && freeHead != NIL && k.Valid()
      modifies this`freeHead, this`free, nodes
      ensures Valid() && k.Valid()
      ensures V.PoolOk(old(View())) && (View(), s as nat) == V.Store(old(View()), v)
    {
      s := freeHead;
      assert FreeLinkAt(0);
      freeHead := next[s];
      nodes[s] := v;
      free := free[1..];
      forall j | 0 <= j < |free|
        ensures FreeLinkAt(j)
      {
        assert old(FreeLinkAt(j + 1));
      }
    }

    /** Put a slot that is not free in front of the free list. */
    method Release(k: Kernel, slot: u8)
      requires Valid() && slot < nodes.Length && slot !in free && k.Valid()
      modifies this`freeHead, this`free, next
      ensures Valid() && k.Valid() && View() == old(View()).(free := [slot] + old(View()).free)
    {
      next[slot] := freeHead;
      freeHead := slot;
      free := [slot] + free;
      forall j | 0 <= j < |free|
        ensures FreeLinkAt(j)
      {
        if j > 0 {
          assert old(FreeLinkAt(j - 1));
        }
      }
    }

    /** `alloc`. */
    method Alloc(k: Kernel, v: Value) returns (slot: Option<u8>)
      requires Valid() && k.Valid()
      modifies this`freeHead, this`free, nodes
      ensures Valid() && k.Valid() && V.PoolOk(old(View()))
      ensures View() == V.Alloc(old(View()), v).0
      ensures slot == match V.Alloc(old(View()), v).1 case None => None case Some(s) => Some(s)
    {
      if freeHead == NIL {
        return None;
      }
      var s := Store(k, v);
      slot := Some(s);
    }

    /** `alloc_blocking`, up to the point where the slot is in `wait_ptr` or the caller is parked. */
    method AllocBlocking(k: Kernel, v: Value) returns (mustBlock: bool)
      requires Valid() && k.Valid() && k.Knows(waitHead) && M.Started(k.st) && M.Runnable(k.st.tasks[k.st.cur])
      modifies this`freeHead, this`free, nodes, k`st, k`pendsv, waitHead`head, k.spawned`state, k.spawned`waitPtr
      ensures Valid() && k.Valid() && V.PoolOk(old(View()))
      ensures (k.st, View()) == V.AllocBlocking(old(k.st), old(View()), waitHead.lid, v)
      ensures mustBlock <==> old(View()).free == []
    {
      mustBlock := freeHead == NIL;
      if mustBlock {
        ParkWith(k, Parked(v));
      } else {
        var s := Store(k, v);
        WriteSlot(k, s);
      }
    }

    method ParkWith(k: Kernel, p: WaitPtr)
      requires Valid() && k.Valid() && k.Knows(waitHead) && M.Started(k.st) && M.Runnable(k.st.tasks[k.st.cur])
      modifies k`st, k`pendsv, waitHead`head, k.spawned`state, k.spawned`waitPtr
      ensures Valid() && k.Valid() && View() == old(View())
      ensures k.st == M.Park(M.SetPtr(old(k.st), old(k.st).cur, p), waitHead.lid)
    {
      k.ParkWith(waitHead, p);
    }

    method WriteSlot(k: Kernel, s: u8)
      requires Valid() && k.Valid() && M.Started(k.st)
      modifies k`st, k.spawned`waitPtr
      ensures Valid() && k.Valid() && View() == old(View())
      ensures k.st == M.SetPtr(old(k.st), old(k.st).cur, Index(s))
    {
      k.WritePtr(k.current, Index(s));
    }

    /** `available`: the walk along the free list ends. */
    method Available() returns (count: nat)
      requires Valid()
      ensures count == |View().free|
    {
      count := 0;
      var cur := freeHead;
      while cur != NIL
        invariant 0 <= count <= |free| && cur == SlotAt(count)
        decreases |free| - count
      {
        assert FreeLinkAt(count);
        count := count + 1;
        cur := next[cur];
      }
    }

    /** The critical section of `PoolBox::drop`. */
    method Drop(k: Kernel, slot: u8)
      requires Valid() && k.Valid() && k.Knows(waitHead) && M.Started(k.st)
      requires slot < nodes.Length && slot !in free
      requires M.ListOk(k.st, waitHead.lid) && V.WaitersParked(k.st, waitHead.lid)
      modifies this`freeHead, this`free, next, nodes
      modifies k`st, k`pendsv, waitHead`head, k.spawned`state, k.spawned`waitPtr
      ensures Valid() && k.Valid() && V.PoolOk(old(View()))
      ensures (k.st, View()) == V.Drop(old(k.st), old(View()), waitHead.lid, slot)
    {
      k.HeadShowsEmpty(waitHead);
      if waitHead.head != null {
        HandOver(k, slot);
      } else {
        Release(k, slot);
      }
    }

    /** The best waiter's value goes into the slot, and the slot's index to the waiter. */
    method HandOver(k: Kernel, slot: u8)
      requires Valid() && k.Valid() && k.Knows(waitHead) && M.Started(k.st) && slot < nodes.Length
      requires M.ListOk(k.st, waitHead.lid) && V.WaitersParked(k.st, waitHead.lid) && M.Q(k.st, waitHead.lid) != []
      modifies nodes, k`st, k`pendsv, waitHead`head, k.spawned`state, k.spawned`waitPtr
      ensures Valid() && k.Valid() && V.PoolOk(old(View()))
      ensures (k.st, View()) == V.Drop(old(k.st), old(View()), waitHead.lid, slot)
    {
      var src := k.WakeHighestWith(waitHead, Index(slot));
      CopyIn(k, slot, src.val);
    }

    method CopyIn(k: Kernel, slot: u8, v: Value)
      requires Valid() && k.Valid() && slot < nodes.Length
      modifies nodes
      ensures Valid() && k.Valid() && View() == old(View()).(nodes := old(View()).nodes[slot as nat := v])
    {
      nodes[slot] := v;
    }
  }
}
