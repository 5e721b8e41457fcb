/** Pool steps keep the invariants. */
module PoolSteps {
  import opened Types
  import opened KernelModel
  import opened KernelProofs
  import opened SystemModel
  import opened Frames
  import P = PoolModel

  predicate OfPool(pc: Pc, p: nat) {
    pc.InPool? && pc.p == p
  }

  /** Pool `p` and the tasks in its calls apart, nothing moved. */
  ghost predicate PoolsApart(s: Sys, s': Sys, p: nat)
    requires PcInv(s) && PcInv(s')
  {
    && p < |s.pools| == |s'.pools| && |s'.pcs| == |s.pcs|
    && (forall j :: 0 <= j < |s.pools| && j != p ==> s'.pools[j] == s.pools[j] && Q(s'.k, PoolQ(j)) == Q(s.k, PoolQ(j)))
    && (forall t :: 0 <= t < |s.pcs| && !OfPool(s'.pcs[t], p) ==> SameTask(s, s', t) || (s.pcs[t] == s'.pcs[t] == Free))
    && (forall t :: 0 <= t < |s.pcs| && OfPool(s'.pcs[t], p) ==> s.pcs[t] == s'.pcs[t] || s.pcs[t] == Free)
  }

  lemma PoolInvKept(s: Sys, s': Sys, p: nat)
    requires PcInv(s) && PcInv(s') && PoolInv(s) && PoolsApart(s, s', p)
    requires forall t :: 0 <= t < |s.pcs| && OfPool(s'.pcs[t], p) ==> TenantInv(s', t)
    requires OnePoolInv(s', p)
    ensures PoolInv(s')
  {
    forall j | 0 <= j < |s'.pools|
      ensures OnePoolInv(s', j)
    {
      assert OnePoolInv(s, j);
      if j != p {
        forall x | x in s.pools[j].holder
          ensures HolderInv(s', j, x)
        {
          assert HolderInv(s, j, x);
        }
      }
    }
    forall t | 0 <= t < |s'.pcs|
      ensures TenantInv(s', t)
    {
      assert TenantInv(s, t);
    }
  }

  /** A waiter that was granted its slot is where it was. */
  ghost predicate TenantsStay(s: Sys, s': Sys, p: nat)
    requires PcInv(s) && PcInv(s')
  {
    && |s'.pcs| == |s.pcs|
    && forall t :: 0 <= t < |s.pcs| && OfPool(s.pcs[t], p) && Released(s, t) ==>
      s'.pcs[t] == s.pcs[t] && Released(s', t) && s'.k.tasks[t].ptr == s.k.tasks[t].ptr
  }

  // ------------------------------------------------------------------ the slots

  lemma HolderStays(s: Sys, s': Sys, p: nat, x: nat)
    requires PcInv(s) && PcInv(s') && p < |s.pools| == |s'.pools| && TenantsStay(s, s', p)
    requires P.PoolOk(s.pools[p].pool) && P.PoolOk(s'.pools[p].pool) && s'.pools[p].pool.cap == s.pools[p].pool.cap
    requires x in s.pools[p].holder && x in s'.pools[p].holder && s'.pools[p].holder[x] == s.pools[p].holder[x]
    requires HolderInv(s, p, x) && s'.pools[p].pool.nodes[x] == s.pools[p].pool.nodes[x]
    ensures HolderInv(s', p, x)
  {
  }

  /** The first free slot was given out. */
  lemma SlotTaken(s: Sys, s': Sys, p: nat, v: Value)
    requires PcInv(s) && PcInv(s') && p < |s.pools| == |s'.pools| && OnePoolInv(s, p) && TenantsStay(s, s', p)
    requires s.pools[p].pool.free != [] && s'.pools[p].pool == P.Store(s.pools[p].pool, v).0
    requires var x := s.pools[p].pool.free[0];
      && s'.pools[p].holder.Keys == s.pools[p].holder.Keys + {x}
      && (forall y :: y in s.pools[p].holder && y != x ==> s'.pools[p].holder[y] == s.pools[p].holder[y])
      && HolderInv(s', p, x)
    requires Q(s'.k, PoolQ(p)) == Q(s.k, PoolQ(p))
    ensures OnePoolInv(s', p)
  {
    var free, x := s.pools[p].pool.free, s.pools[p].pool.free[0];
    assert free == [x] + free[1..];
    forall y | y in s'.pools[p].holder
      ensures HolderInv(s', p, y)
    {
      if y != x {
        assert HolderInv(s, p, y);
        HolderStays(s, s', p, y);
      }
    }
  }

  /** A held slot got a new content and a new holder. */
  lemma SlotReused(s: Sys, s': Sys, p: nat, x: nat, v: Value)
    requires PcInv(s) && PcInv(s') && p < |s.pools| == |s'.pools| && OnePoolInv(s, p) && TenantsStay(s, s', p)
    requires x in s.pools[p].holder && x < s.pools[p].pool.cap
    requires s'.pools[p].pool == s.pools[p].pool.(nodes := s.pools[p].pool.nodes[x := v])
    requires s'.pools[p].holder.Keys == s.pools[p].holder.Keys
    requires forall y :: y in s.pools[p].holder && y != x ==> s'.pools[p].holder[y] == s.pools[p].holder[y]
    requires HolderInv(s', p, x)
    requires Q(s.k, PoolQ(p)) == [] ==> Q(s'.k, PoolQ(p)) == []
    ensures OnePoolInv(s', p)
  {
    forall y | y in s'.pools[p].holder
      ensures HolderInv(s', p, y)
    {
      if y != x {
        assert HolderInv(s, p, y);
        HolderStays(s, s', p, y);
      }
    }
  }

  /** A held slot became free. */
  lemma SlotFreed(s: Sys, s': Sys, p: nat, x: nat)
    requires PcInv(s) && PcInv(s') && p < |s.pools| == |s'.pools| && OnePoolInv(s, p) && TenantsStay(s, s', p)
    requires x in s.pools[p].holder && x < s.pools[p].pool.cap
    requires s'.pools[p] == PoolLog(s.pools[p].pool.(free := [x] + s.pools[p].pool.free), s.pools[p].holder - {x})
    requires Q(s'.k, PoolQ(p)) == []
    ensures OnePoolInv(s', p)
  {
    forall y | y in s'.pools[p].holder
      ensures HolderInv(s', p, y)
    {
      assert HolderInv(s, p, y);
      HolderStays(s, s', p, y);
    }
  }

  /** Granted slots keep their tenants as long as only other slots change hands. */
  lemma TenantsKept(s: Sys, s': Sys, p: nat, x: nat, t: nat)
    requires PcInv(s) && PcInv(s') && p < |s.pools| == |s'.pools| && |s'.pcs| == |s.pcs|
    requires t < |s.pcs| && TenantInv(s, t) && OfPool(s.pcs[t], p) && SameTask(s, s', t)
    requires x !in s.pools[p].holder || s.pools[p].holder[x].Boxed?
    requires forall y :: y in s.pools[p].holder && y != x ==>
      y in s'.pools[p].holder && s'.pools[p].holder[y] == s.pools[p].holder[y]
    ensures TenantInv(s', t)
  {
  }

  // ------------------------------------------------------------------ the steps

  lemma AllocSound(s: Sys, p: nat, v: Value)
    requires KernelInv(s.k) && PcInv(s) && PoolInv(s) && p < |s.pools|
    ensures Sound(s, AllocStep(s, p, v), Pools)
  {
    var s' := AllocStep(s, p, v);
    assert OnePoolInv(s, p);
    NoneTouched(s, s', Pools);
    if s.pools[p].pool.free != [] {
      var x := s.pools[p].pool.free[0];
      SlotTaken(s, s', p, v);
      forall t | 0 <= t < |s.pcs| && OfPool(s'.pcs[t], p)
        ensures TenantInv(s', t)
      {
        assert TenantInv(s, t);
        TenantsKept(s, s', p, x, t);
      }
      PoolInvKept(s, s', p);
    }
  }

  lemma WriteSound(s: Sys, p: nat, x: nat, v: Value)
    requires KernelInv(s.k) && PcInv(s) && PoolInv(s) && BoxLive(s, p, x)
    ensures Sound(s, WriteStep(s, p, x, v), Pools)
  {
    var s' := WriteStep(s, p, x, v);
    assert OnePoolInv(s, p) && HolderInv(s, p, x);
    NoneTouched(s, s', Pools);
    SlotReused(s, s', p, x, v);
    forall t | 0 <= t < |s.pcs| && OfPool(s'.pcs[t], p)
      ensures TenantInv(s', t)
    {
      assert TenantInv(s, t);
      TenantsKept(s, s', p, x, t);
    }
    PoolInvKept(s, s', p);
  }

  /** Only the running task's `wait_ptr` and place changed. */
  lemma AllocNowWithin(s: Sys, s': Sys, p: nat, v: Value, x: u8)
    requires KernelInv(s.k) && PcInv(s) && Thread(s)
    requires s'.k == SetPtr(s.k, s.k.cur, Index(x)) && s'.pcs == s.pcs[s.k.cur := InPool(p, v)]
    ensures Within(s, s', Pools) && Calm(s.k, s'.k)
    ensures forall t :: 0 <= t < |s.pcs| && t != s.k.cur ==> SameTask(s, s', t)
  {
    SetPtrIsCalm(s.k, s.k.cur, Index(x));
    forall t | 0 <= t < |s'.pcs|
      ensures PcFits(s'.pcs[t], s'.k.tasks[t].state)
    {
      assert PcFits(s.pcs[t], s.k.tasks[t].state);
    }
  }

  /** With a free slot `alloc_blocking` takes it at once. */
  lemma AllocNowSound(s: Sys, s': Sys, p: nat, v: Value)
    requires KernelInv(s.k) && PcInv(s) && PoolInv(s) && Thread(s) && p < |s.pools|
    requires s.pools[p].pool.free != [] && s' == AllocBlockingStep(s, p, v)
    ensures Sound(s, s', Pools)
  {
    var x, c := s.pools[p].pool.free[0], s.k.cur;
    assert OnePoolInv(s, p);
    AllocNowWithin(s, s', p, v, x);
    SlotTaken(s, s', p, v);
    forall t | 0 <= t < |s.pcs| && OfPool(s'.pcs[t], p)
      ensures TenantInv(s', t)
    {
      assert TenantInv(s, t);
      if t != c {
        TenantsKept(s, s', p, x, t);
      }
    }
    PoolInvKept(s, s', p);
  }

  /** Without one the caller parks. */
  lemma AllocParksSound(s: Sys, s': Sys, p: nat, v: Value)
    requires KernelInv(s.k) && PcInv(s) && PoolInv(s) && Thread(s) && p < |s.pools|
    requires s.pools[p].pool.free == [] && s' == AllocBlockingStep(s, p, v)
    ensures Sound(s, s', Pools)
  {
    assert OnePoolInv(s, p);
    RunnerParks(s, s', PoolQ(p), Parked(v), InPool(p, v), Pools);
    forall y | y in s'.pools[p].holder
      ensures HolderInv(s', p, y)
    {
      assert HolderInv(s, p, y);
      HolderStays(s, s', p, y);
    }
    forall t | 0 <= t < |s.pcs| && OfPool(s'.pcs[t], p)
      ensures TenantInv(s', t)
    {
      assert TenantInv(s, t);
    }
    PoolInvKept(s, s', p);
  }

  lemma AllocBlockingSound(s: Sys, p: nat, v: Value)
    requires KernelInv(s.k) && PcInv(s) && PoolInv(s) && Thread(s) && p < |s.pools|
    ensures Sound(s, AllocBlockingStep(s, p, v), Pools)
  {
    if s.pools[p].pool.free != [] {
      AllocNowSound(s, AllocBlockingStep(s, p, v), p, v);
    } else {
      AllocParksSound(s, AllocBlockingStep(s, p, v), p, v);
    }
  }

  /** Nobody waits: the slot becomes free. */
  lemma DropFreesSound(s: Sys, s': Sys, p: nat, x: nat)
    requires KernelInv(s.k) && PcInv(s) && PoolInv(s) && BoxLive(s, p, x)
    requires Q(s.k, PoolQ(p)) == [] && s' == DropStep(s, p, x)
    ensures Sound(s, s', Pools)
  {
    assert OnePoolInv(s, p) && HolderInv(s, p, x);
    NoneTouched(s, s', Pools);
    SlotFreed(s, s', p, x);
    forall t | 0 <= t < |s.pcs| && OfPool(s'.pcs[t], p)
      ensures TenantInv(s', t)
    {
      assert TenantInv(s, t);
      TenantsKept(s, s', p, x, t);
    }
    PoolInvKept(s, s', p);
  }

  /** A waiter was woken with the slot. */
  lemma TenantsAfterGrant(s: Sys, s': Sys, p: nat, x: u8)
    requires PcInv(s) && PcInv(s') && PoolInv(s) && s'.pcs == s.pcs && Woke(s.k, s'.k, PoolQ(p), Index(x))
    requires p < |s.pools| == |s'.pools| && x in s.pools[p].holder && s.pools[p].holder[x].Boxed?
    requires var w := BestWaiter(s.k, PoolQ(p));
      && s.k.tasks[w].ptr.Parked?
      && s'.pools[p].holder == s.pools[p].holder[x as nat := Granted(w, s.k.tasks[w].ptr.val)]
    requires forall j :: 0 <= j < |s.pools| && j != p ==> s'.pools[j] == s.pools[j]
    ensures PoolsApart(s, s', p) && TenantsStay(s, s', p)
    ensures forall t :: 0 <= t < |s.pcs| && OfPool(s'.pcs[t], p) ==> TenantInv(s', t)
  {
    var w := BestWaiter(s.k, PoolQ(p));
    assert PcFits(s.pcs[w], s.k.tasks[w].state) && TenantInv(s, w);
    forall t | 0 <= t < |s.pcs| && OfPool(s'.pcs[t], p)
      ensures TenantInv(s', t)
    {
      assert TenantInv(s, t);
    }
  }

  lemma DropGrantsKeeps(s: Sys, s': Sys, p: nat, x: nat)
    requires KernelInv(s.k) && PcInv(s) && PcInv(s') && PoolInv(s) && BoxLive(s, p, x)
    requires Q(s.k, PoolQ(p)) != [] && s' == DropStep(s, p, x) && x < 256 && Woke(s.k, s'.k, PoolQ(p), Index(x))
    ensures PoolInv(s')
  {
    TenantsOffer(s, p);
    var w := BestWaiter(s.k, PoolQ(p));
    assert OnePoolInv(s, p) && HolderInv(s, p, x);
    TenantsAfterGrant(s, s', p, x);
    assert PcFits(s.pcs[w], s.k.tasks[w].state) && TenantInv(s', w);
    SlotReused(s, s', p, x, s.k.tasks[w].ptr.val);
    PoolInvKept(s, s', p);
  }

  /** Somebody waits: the slot goes to it with its own value inside. */
  lemma DropGrantsSound(s: Sys, s': Sys, p: nat, x: nat)
    requires KernelInv(s.k) && PcInv(s) && PoolInv(s) && BoxLive(s, p, x)
    requires Q(s.k, PoolQ(p)) != [] && s' == DropStep(s, p, x)
    ensures Sound(s, s', Pools)
  {
    TenantsOffer(s, p);
    assert OnePoolInv(s, p) && HolderInv(s, p, x);
    WaiterWakes(s, s', PoolQ(p), Index(x), Pools);
    DropGrantsKeeps(s, s', p, x);
  }

  lemma DropSound(s: Sys, p: nat, x: nat)
    requires KernelInv(s.k) && PcInv(s) && PoolInv(s) && BoxLive(s, p, x)
    ensures Sound(s, DropStep(s, p, x), Pools)
  {
    if Q(s.k, PoolQ(p)) == [] {
      DropFreesSound(s, DropStep(s, p, x), p, x);
    } else {
      DropGrantsSound(s, DropStep(s, p, x), p, x);
    }
  }
}
