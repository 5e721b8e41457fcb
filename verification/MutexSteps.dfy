/** Mutex and condition-variable steps keep the invariants. */
module MutexSteps {
  import opened Types
  import opened KernelModel
  import opened KernelProofs
  import opened SystemModel
  import opened Frames
  import X = MutexModel
  import C = CondvarModel

  // ------------------------------------------------------------------ priorities

  predicate OnlyPriorities(k: Kern, k': Kern) {
    && k' == k.(tasks := k'.tasks) && |k'.tasks| == |k.tasks|
    && forall t :: 0 <= t < |k.tasks| ==> k'.tasks[t] == k.tasks[t].(priority := k'.tasks[t].priority)
  }

  /** Inheritance changes nothing but a priority. */
  lemma PriorityEdit(s: Sys, s': Sys)
    requires KernelInv(s.k) && PcInv(s) && MutexInv(s) && OnlyPriorities(s.k, s'.k) && s' == s.(k := s'.k)
    ensures Within(s, s', Mutexes) && Steady(s.k, s'.k) && MutexInv(s')
  {
    SameBlockedKeepsWaitInv(s.k, s'.k);
    forall t | 0 <= t < |s'.pcs|
      ensures PcFits(s'.pcs[t], s'.k.tasks[t].state)
    {
      assert PcFits(s.pcs[t], s.k.tasks[t].state);
    }
    MutexSame(s, s');
  }

  lemma MutexSame(s: Sys, s': Sys)
    requires PcInv(s) && PcInv(s') && MutexInv(s) && OnlyPriorities(s.k, s'.k) && s' == s.(k := s'.k)
    ensures MutexInv(s')
  {
    forall m | 0 <= m < |s'.mutexes|
      ensures OwnerInv(s', m)
    {
      assert OwnerInv(s, m);
    }
    forall t | 0 <= t < |s'.pcs|
      ensures LockerInv(s', t)
    {
      assert LockerInv(s, t);
    }
    forall t: nat, m: nat
      ensures GuardInv(s', t, m)
    {
      assert GuardInv(s, t, m);
    }
  }

  // ------------------------------------------------------------------ single effects

  /** The current task parked inside `lock` on a mutex that has an owner, or inside `wait`. */
  lemma MutexAfterPark(s: Sys, s': Sys, l: ListId, p: WaitPtr, pc: Pc)
    requires PcInv(s) && PcInv(s') && MutexInv(s) && ParkedOn(s.k, s'.k, l, p)
    requires s' == s.(k := s'.k, pcs := s.pcs[s.k.cur := pc]) && (s.pcs[s.k.cur] == Free || s.pcs[s.k.cur].Relock?)
    requires match pc
      case InLock(m) => m < |s.mutexes| && s.mutexes[m].Some? && l == MutexQ(m)
      case InCond(c, m) => c < s.conds && m < |s.mutexes| && l == CondQ(c)
      case _ => false
    ensures MutexInv(s')
  {
    forall m | 0 <= m < |s'.mutexes|
      ensures OwnerInv(s', m)
    {
      assert OwnerInv(s, m);
    }
    forall t | 0 <= t < |s'.pcs|
      ensures LockerInv(s', t)
    {
      assert LockerInv(s, t);
    }
    forall t: nat, m: nat
      ensures GuardInv(s', t, m)
    {
      assert GuardInv(s, t, m);
    }
  }

  /** The lock passed from the current task to the best waiter. */
  lemma MutexAfterGrant(s: Sys, s': Sys, m: nat, p: WaitPtr)
    requires PcInv(s) && PcInv(s') && MutexInv(s) && Started(s.k) && Woke(s.k, s'.k, MutexQ(m), p)
    requires m < |s.mutexes| && s.mutexes[m] == Some(s.k.cur) && s.k.tasks[s.k.cur].state != Blocked(MutexQ(m))
    requires s.pcs[s.k.cur] != InLock(m)
    requires s' == s.(k := s'.k, mutexes := s.mutexes[m := Some(BestWaiter(s.k, MutexQ(m)))],
                      guards := s.guards - {(s.k.cur, m)})
    ensures MutexInv(s')
  {
    var w := BestWaiter(s.k, MutexQ(m));
    assert PcFits(s.pcs[w], s.k.tasks[w].state) && w != s.k.cur;
    forall j | 0 <= j < |s'.mutexes|
      ensures OwnerInv(s', j)
    {
      assert OwnerInv(s, j);
    }
    forall t | 0 <= t < |s'.pcs|
      ensures LockerInv(s', t)
    {
      assert LockerInv(s, t);
    }
    forall t: nat, j: nat
      ensures GuardInv(s', t, j)
    {
      assert GuardInv(s, t, j);
    }
  }

  /** Somebody's hold on `m` began or ended, with no task waiting. */
  lemma MutexAfterSwap(s: Sys, s': Sys, m: nat, owner: Option<nat>)
    requires PcInv(s) && PcInv(s') && MutexInv(s) && Started(s.k) && s'.k == s.k && m < |s.mutexes|
    requires Q(s.k, MutexQ(m)) == [] && s.k.tasks[s.k.cur].state != Blocked(MutexQ(m))
    requires s'.mutexes == s.mutexes[m := owner] && s'.conds == s.conds
    requires (s.mutexes[m] == Some(s.k.cur) && owner == None && s'.guards == s.guards - {(s.k.cur, m)}
              && s'.pcs == s.pcs)
          || (s.mutexes[m] == None && owner == Some(s.k.cur) && s'.guards == s.guards + {(s.k.cur, m)}
              && s'.pcs == s.pcs[s.k.cur := Free] && (s.pcs[s.k.cur] == Free || s.pcs[s.k.cur].Relock?))
    requires s.pcs[s.k.cur] != InLock(m)
    ensures MutexInv(s')
  {
    forall j | 0 <= j < |s'.mutexes|
      ensures OwnerInv(s', j)
    {
      assert OwnerInv(s, j);
    }
    forall t | 0 <= t < |s'.pcs|
      ensures LockerInv(s', t)
    {
      assert LockerInv(s, t);
    }
    forall t: nat, j: nat
      ensures GuardInv(s', t, j)
    {
      assert GuardInv(s, t, j);
    }
  }

  // ------------------------------------------------------------------ the steps

  /** The caller of `lock`: in its own code, or back from a notified `wait`. */
  ghost predicate MayLock(s: Sys) {
    && Started(s.k) && |s.pcs| == |s.k.tasks| && !s.k.pendsv && s.k.cur != Idle(s.k)
    && (s.pcs[s.k.cur] == Free || s.pcs[s.k.cur].Relock?)
  }

  lemma LockSound(s: Sys, m: nat)
    requires KernelInv(s.k) && PcInv(s) && MutexInv(s) && MayLock(s) && m < |s.mutexes|
    ensures Kept(s, LockStep(s, m), Mutexes)
  {
    assert OwnerInv(s, m);
    if s.mutexes[m].None? {
      LockFree(s, LockStep(s, m), m);
    } else {
      LockContended(s, LockStep(s, m), m);
    }
  }

  lemma LockFree(s: Sys, s': Sys, m: nat)
    requires KernelInv(s.k) && PcInv(s) && MutexInv(s) && MayLock(s) && m < |s.mutexes|
    requires s.mutexes[m].None? && s' == LockStep(s, m)
    ensures Kept(s, s', Mutexes)
  {
    var c := s.k.cur;
    assert OwnerInv(s, m);
    CalmSelf(s.k);
    forall t | 0 <= t < |s'.pcs|
      ensures PcFits(s'.pcs[t], s'.k.tasks[t].state) && (t != c ==> SameTask(s, s', t))
    {
      assert PcFits(s.pcs[t], s.k.tasks[t].state);
    }
    MutexAfterSwap(s, s', m, Some(c));
  }

  lemma LockContended(s: Sys, s': Sys, m: nat)
    requires KernelInv(s.k) && PcInv(s) && MutexInv(s) && MayLock(s) && m < |s.mutexes|
    requires s.mutexes[m].Some? && s' == LockStep(s, m)
    ensures Kept(s, s', Mutexes)
  {
    assert OwnerInv(s, m);
    var c, l := s.k.cur, MutexQ(m);
    var s1 := s.(k := X.Boost(s.k, s.mutexes[m].value));
    PriorityEdit(s, s1);
    SetPtrSame(s1.k, c);
    RunnerParks(s1, s', l, s1.k.tasks[c].ptr, InLock(m), Mutexes);
    WithinChain(s, s1, s', Mutexes);
    SteadyChain(s.k, s1.k, s'.k);
    assert s'.mutexes == s.mutexes;
    MutexAfterPark(s1, s', l, s1.k.tasks[c].ptr, InLock(m));
  }

  lemma TryLockSound(s: Sys, m: nat)
    requires KernelInv(s.k) && PcInv(s) && MutexInv(s) && Thread(s) && m < |s.mutexes|
    ensures Sound(s, TryLockStep(s, m), Mutexes)
  {
    var s' := TryLockStep(s, m);
    assert OwnerInv(s, m);
    NoneTouched(s, s', Mutexes);
    if s.mutexes[m].None? {
      MutexAfterSwap(s, s', m, Some(s.k.cur));
    } else {
      assert s'.mutexes == s.mutexes;
    }
  }

  /** Passing the lock on, once the holder's priority was restored. */
  lemma GrantSound(s: Sys, s': Sys, m: nat)
    requires KernelInv(s.k) && PcInv(s) && MutexInv(s) && ListOk(s.k, MutexQ(m))
    requires m < |s.mutexes| && s.mutexes[m] == Some(s.k.cur)
    requires s.k.tasks[s.k.cur].state != Blocked(MutexQ(m)) && s.pcs[s.k.cur] != InLock(m)
    requires var (k, owner) := X.Grant(s.k, MutexQ(m));
      s' == s.(k := k, mutexes := s.mutexes[m := owner], guards := s.guards - {(s.k.cur, m)})
    ensures Within(s, s', Mutexes) && Calm(s.k, s'.k) && MutexInv(s')
  {
    var l := MutexQ(m);
    if Q(s.k, l) == [] {
      NoneTouched(s, s', Mutexes);
      MutexAfterSwap(s, s', m, None);
    } else {
      var p := s.k.tasks[BestWaiter(s.k, l)].ptr;
      RouseAsRouseWith(s.k, l, Best(s.k, l));
      WaiterWakes(s, s', l, p, Mutexes);
      MutexAfterGrant(s, s', m, p);
    }
  }

  lemma UnlockSound(s: Sys, m: nat)
    requires KernelInv(s.k) && PcInv(s) && MutexInv(s) && Thread(s) && (s.k.cur, m) in s.guards
    ensures Kept(s, UnlockStep(s, m), Mutexes)
  {
    assert GuardInv(s, s.k.cur, m);
    var s1, s' := s.(k := X.Restore(s.k, s.k.cur)), UnlockStep(s, m);
    PriorityEdit(s, s1);
    assert ListOk(s1.k, MutexQ(m));
    GrantSound(s1, s', m);
    WithinChain(s, s1, s', Mutexes);
    SteadyChain(s.k, s1.k, s'.k);
  }

  /** `wait` is the running task parking on the condition variable and then releasing the mutex. */
  lemma WaitAsParkThenUnlock(k: Kern, cl: ListId, ml: ListId)
    requires KernelInv(k) && !k.pendsv
    ensures WaitInv(Park(k, cl)) && ListOk(Park(k, cl), ml)
    ensures C.Wait(k, cl, k.cur, ml) == X.Unlock(Park(k, cl), k.cur, ml)
  {
    PushKeepsWaitInv(k, cl, k.cur);
    SameBlockedKeepsWaitInv(Push(k, cl, k.cur), Park(k, cl));
    assert ListOk(Push(k, cl, k.cur), ml) && ListOk(Park(k, cl), ml);
  }

  lemma CondWaitSound(s: Sys, c: nat, m: nat)
    requires KernelInv(s.k) && PcInv(s) && MutexInv(s) && Thread(s) && c < s.conds && (s.k.cur, m) in s.guards
    ensures Kept(s, CondWaitStep(s, c, m), Mutexes)
  {
    assert GuardInv(s, s.k.cur, m);
    var t, cl, s' := s.k.cur, CondQ(c), CondWaitStep(s, c, m);
    var s1 := s.(k := Park(s.k, cl), pcs := s.pcs[t := InCond(c, m)]);
    WaitAsParkThenUnlock(s.k, cl, MutexQ(m));
    SetPtrSame(s.k, t);
    RunnerParks(s, s1, cl, s.k.tasks[t].ptr, InCond(c, m), Mutexes);
    MutexAfterPark(s, s1, cl, s.k.tasks[t].ptr, InCond(c, m));
    ReleaseSound(s1, s', m);
    WithinChain(s, s1, s', Mutexes);
    SteadyChain(s.k, s1.k, s'.k);
  }

  /** The parked waiter's mutex is released. */
  lemma ReleaseSound(s: Sys, s': Sys, m: nat)
    requires KernelInv(s.k) && PcInv(s) && MutexInv(s) && ListOk(s.k, MutexQ(m))
    requires m < |s.mutexes| && s.mutexes[m] == Some(s.k.cur) && s.pcs[s.k.cur].InCond?
    requires var (k, owner) := X.Unlock(s.k, s.k.cur, MutexQ(m));
      s' == s.(k := k, mutexes := s.mutexes[m := owner], guards := s.guards - {(s.k.cur, m)})
    ensures Within(s, s', Mutexes) && Steady(s.k, s'.k) && MutexInv(s')
  {
    assert PcFits(s.pcs[s.k.cur], s.k.tasks[s.k.cur].state);
    var s1 := s.(k := X.Restore(s.k, s.k.cur));
    PriorityEdit(s, s1);
    assert ListOk(s1.k, MutexQ(m));
    GrantSound(s1, s', m);
    WithinChain(s, s1, s', Mutexes);
    SteadyChain(s.k, s1.k, s'.k);
  }

  // ------------------------------------------------------------------ notification

  /** Tasks left the condition variable for the queue of their mutex. */
  lemma MutexAfterNotify(s: Sys, s': Sys)
    requires PcInv(s) && PcInv(s') && MutexInv(s) && |s'.pcs| == |s.pcs|
    requires s'.mutexes == s.mutexes && s'.guards == s.guards && s'.conds == s.conds
    requires forall m :: Q(s'.k, MutexQ(m)) == Q(s.k, MutexQ(m))
    requires forall t :: 0 <= t < |s.pcs| ==>
      SameTask(s, s', t) || (s.pcs[t].InCond? && s'.pcs[t] == Relock(s.pcs[t].m))
    ensures MutexInv(s')
  {
    forall m | 0 <= m < |s'.mutexes|
      ensures OwnerInv(s', m)
    {
      assert OwnerInv(s, m);
    }
    forall t | 0 <= t < |s'.pcs|
      ensures LockerInv(s', t)
    {
      assert LockerInv(s, t);
    }
    forall t: nat, m: nat
      ensures GuardInv(s', t, m)
    {
      assert GuardInv(s, t, m);
    }
  }

  /** The best waiter of `c` has gone from `wait` to `lock`; nobody else moved. */
  lemma NotifiedOne(s: Sys, s': Sys, c: nat, p: WaitPtr)
    requires PcInv(s) && Woke(s.k, s'.k, CondQ(c), p) && p == s.k.tasks[BestWaiter(s.k, CondQ(c))].ptr
    requires var w := BestWaiter(s.k, CondQ(c)); s'.pcs == s.pcs[w := Notified(s.pcs[w])]
    ensures Within(s, s', Mutexes)
    ensures forall t :: 0 <= t < |s.pcs| ==> SameTask(s, s', t) || (s.pcs[t].InCond? && s'.pcs[t] == Relock(s.pcs[t].m))
    ensures forall m :: Q(s'.k, MutexQ(m)) == Q(s.k, MutexQ(m))
  {
    var w := BestWaiter(s.k, CondQ(c));
    assert PcFits(s.pcs[w], s.k.tasks[w].state);
    forall t | 0 <= t < |s'.pcs|
      ensures PcFits(s'.pcs[t], s'.k.tasks[t].state) && (t != w ==> SameTask(s, s', t))
    {
      assert PcFits(s.pcs[t], s.k.tasks[t].state);
    }
  }

  lemma NotifyOneSound(s: Sys, c: nat)
    requires KernelInv(s.k) && PcInv(s) && MutexInv(s) && c < s.conds
    ensures Sound(s, NotifyOneStep(s, c), Mutexes)
    ensures forall m :: Q(NotifyOneStep(s, c).k, MutexQ(m)) == Q(s.k, MutexQ(m))
  {
    var s', l := NotifyOneStep(s, c), CondQ(c);
    assert ListOk(s.k, l);
    if Q(s.k, l) == [] {
      NoneTouched(s, s', Mutexes);
    } else {
      var p := s.k.tasks[BestWaiter(s.k, l)].ptr;
      WakeBestIsCalm(s.k, l);
      RouseAsRouseWith(s.k, l, Best(s.k, l));
      WakesOne(s.k, l, p);
      NotifiedOne(s, s', c, p);
      MutexAfterNotify(s, s');
    }
  }

  /** The waiters of `c` have gone from `wait` to `lock`; nobody else moved. */
  lemma NotifiedAll(s: Sys, s': Sys, c: nat)
    requires PcInv(s) && PcInv(s') && |s'.pcs| == |s.pcs| && Drained(s.k, s'.k, CondQ(c))
    requires forall t :: 0 <= t < |s.pcs| ==>
      s'.pcs[t] == if s.k.tasks[t].state == Blocked(CondQ(c)) then Notified(s.pcs[t]) else s.pcs[t]
    ensures forall t :: 0 <= t < |s.pcs| ==> SameTask(s, s', t) || (s.pcs[t].InCond? && s'.pcs[t] == Relock(s.pcs[t].m))
    ensures forall m :: Q(s'.k, MutexQ(m)) == Q(s.k, MutexQ(m))
  {
    forall t | 0 <= t < |s.pcs|
      ensures SameTask(s, s', t) || (s.pcs[t].InCond? && s'.pcs[t] == Relock(s.pcs[t].m))
    {
      assert PcFits(s.pcs[t], s.k.tasks[t].state);
    }
  }

  lemma NotifyAllSound(s: Sys, c: nat)
    requires KernelInv(s.k) && PcInv(s) && MutexInv(s) && c < s.conds
    ensures Sound(s, NotifyAllStep(s, c), Mutexes)
    ensures forall m :: Q(NotifyAllStep(s, c).k, MutexQ(m)) == Q(s.k, MutexQ(m))
  {
    var s', l := NotifyAllStep(s, c), CondQ(c);
    forall t | 0 <= t < |s.pcs| && s.k.tasks[t].state == Blocked(l)
      ensures s.pcs[t].InCond?
    {
      assert PcFits(s.pcs[t], s.k.tasks[t].state);
    }
    WaitersDrain(s, s', l, Mutexes);
    NotifiedAll(s, s', c);
    MutexAfterNotify(s, s');
  }
}
