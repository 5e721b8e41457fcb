/** A step touches the tasks, lists and objects of one kind of primitive; the invariants of the
    other kinds carry over. */
module Frames {
  import opened Types
  import opened Seqs
  import opened KernelModel
  import opened KernelProofs
  import opened SystemModel

  datatype Family = Nothing | Mutexes | Semaphores | OnceCells | Channels | Events | Pools | Clock

  function PcFamily(pc: Pc): Family {
    match pc
    case Free => Nothing
    case InLock(_) => Mutexes
    case Relock(_) => Mutexes
    case InCond(_, _) => Mutexes
    case InSem(_) => Semaphores
    case InOnce(_) => OnceCells
    case InSend(_, _) => Channels
    case InRecv(_) => Channels
    case InAny(_, _) => Events
    case InAll(_, _) => Events
    case InPool(_, _) => Pools
    case InSleep(_) => Clock
    case InTimer(_, _) => Clock
  }

  function ListFamily(l: ListId): Family {
    match l
    case MutexQ(_) => Mutexes
    case CondQ(_) => Mutexes
    case SemQ(_) => Semaphores
    case OnceQ(_) => OnceCells
    case SendQ(_) => Channels
    case RecvQ(_) => Channels
    case AnyQ(_) => Events
    case AllQ(_) => Events
    case PoolQ(_) => Pools
  }

  /** Ready and Running, and the quanta, make no difference to a primitive. */
  function Settled(p: Phase): Phase {
    if p.Ready? || p.Running? then Ready(0) else p
  }

  predicate SameTask(s: Sys, s': Sys, t: nat)
    requires |s.pcs| == |s.k.tasks| == |s'.pcs| == |s'.k.tasks| && t < |s.pcs|
  {
    && s'.pcs[t] == s.pcs[t]
    && Settled(s'.k.tasks[t].state) == Settled(s.k.tasks[t].state)
    && s'.k.tasks[t].ptr == s.k.tasks[t].ptr
  }

  predicate Belongs(pc: Pc, f: Family) {
    PcFamily(pc) == Nothing || PcFamily(pc) == f
  }

  /** The tasks and lists touched belong to family `f`. */
  ghost predicate Within(s: Sys, s': Sys, f: Family) {
    && PcInv(s) && PcInv(s') && |s'.pcs| == |s.pcs|
    && (forall t :: 0 <= t < |s.pcs| ==> LocalAt(s, s', t, f))
    && (forall l :: ListFamily(l) != f ==> Q(s'.k, l) == Q(s.k, l))
  }

  /** The whole step stays within family `f`. */
  ghost predicate Local(s: Sys, s': Sys, f: Family) {
    && Within(s, s', f)
    && (f != Mutexes ==> s'.mutexes == s.mutexes && s'.guards == s.guards) && s'.conds == s.conds
    && (f != Semaphores ==> s'.sems == s.sems)
    && (f != OnceCells ==> s'.onces == s.onces)
    && (f != Channels ==> s'.chans == s.chans)
    && (f != Events ==> s'.events == s.events)
    && (f != Pools ==> s'.pools == s.pools)
    && (f != Clock ==> s'.timers == s.timers && s'.uptime == s.uptime && s'.k.tick == s.k.tick)
  }

  ghost predicate LocalAt(s: Sys, s': Sys, t: nat, f: Family)
    requires PcInv(s) && PcInv(s') && t < |s.pcs| == |s'.pcs|
  {
    SameTask(s, s', t) || (Belongs(s.pcs[t], f) && Belongs(s'.pcs[t], f))
  }

  lemma FrameMutexes(s: Sys, s': Sys, f: Family)
    requires Local(s, s', f) && f != Mutexes && MutexInv(s)
    ensures MutexInv(s')
  {
    forall m | 0 <= m < |s'.mutexes|
      ensures OwnerInv(s', m)
    {
      assert OwnerInv(s, m);
    }
    forall t | 0 <= t < |s'.pcs|
      ensures LockerInv(s', t)
    {
      assert LocalAt(s, s', t, f) && LockerInv(s, t);
    }
    forall t: nat, m: nat
      ensures GuardInv(s', t, m)
    {
      assert GuardInv(s, t, m);
      assert t < |s.pcs| ==> LocalAt(s, s', t, f);
    }
  }

  lemma FrameSemaphores(s: Sys, s': Sys, f: Family)
    requires Local(s, s', f) && f != Semaphores && SemInv(s)
    ensures SemInv(s')
  {
    forall i | 0 <= i < |s'.sems|
      ensures OneSemInv(s', i)
    {
      assert OneSemInv(s, i);
    }
    forall t | 0 <= t < |s'.pcs|
      ensures TakerInv(s', t)
    {
      assert LocalAt(s, s', t, f) && TakerInv(s, t);
    }
  }

  lemma FrameOnceCells(s: Sys, s': Sys, f: Family)
    requires Local(s, s', f) && f != OnceCells && OnceInv(s)
    ensures OnceInv(s')
  {
    forall o | 0 <= o < |s'.onces|
      ensures OneOnceInv(s', o)
    {
      assert OneOnceInv(s, o);
    }
    forall t | 0 <= t < |s'.pcs|
      ensures CallerInv(s', t)
    {
      assert LocalAt(s, s', t, f) && CallerInv(s, t);
    }
  }

  lemma FrameChannels(s: Sys, s': Sys, f: Family)
    requires KernelInv(s.k) && Local(s, s', f) && f != Channels && ChanInv(s)
    ensures ChanInv(s')
  {
    forall h | 0 <= h < |s'.chans|
      ensures OneChanInv(s', h)
    {
      assert OneChanInv(s, h) && ListOk(s.k, SendQ(h));
      var q := Q(s.k, SendQ(h));
      forall j | 0 <= j < |q|
        ensures Offer(s'.k, q[j]) == Offer(s.k, q[j])
      {
        assert LocalAt(s, s', q[j], f) && PcFits(s.pcs[q[j]], s.k.tasks[q[j]].state);
      }
      assert Offers(s'.k, q) == Offers(s.k, q);
    }
    forall t | 0 <= t < |s'.pcs|
      ensures PeerInv(s', t)
    {
      assert LocalAt(s, s', t, f) && PeerInv(s, t);
    }
  }

  lemma FrameEvents(s: Sys, s': Sys, f: Family)
    requires Local(s, s', f) && f != Events && EventInv(s)
    ensures EventInv(s')
  {
    forall t | 0 <= t < |s'.pcs|
      ensures WatcherInv(s', t)
    {
      assert LocalAt(s, s', t, f) && WatcherInv(s, t);
    }
  }

  lemma FramePools(s: Sys, s': Sys, f: Family)
    requires Local(s, s', f) && f != Pools && PoolInv(s)
    ensures PoolInv(s')
  {
    forall p | 0 <= p < |s'.pools|
      ensures OnePoolInv(s', p)
    {
      assert OnePoolInv(s, p);
      forall x | x in s.pools[p].holder
        ensures HolderInv(s', p, x)
      {
        assert HolderInv(s, p, x);
        var h := s.pools[p].holder[x];
        assert h.Granted? ==> LocalAt(s, s', h.t, f);
      }
    }
    forall t | 0 <= t < |s'.pcs|
      ensures TenantInv(s', t)
    {
      assert LocalAt(s, s', t, f) && TenantInv(s, t);
    }
  }

  lemma FrameClock(s: Sys, s': Sys, f: Family)
    requires Local(s, s', f) && f != Clock && TimeInv(s)
    ensures TimeInv(s')
  {
    forall t | 0 <= t < |s'.pcs|
      ensures SleeperInv(s', t)
    {
      assert LocalAt(s, s', t, f) && SleeperInv(s, t);
    }
    forall t, u | 0 <= t < u < |s'.pcs|
      ensures OneWaiter(s', t, u)
    {
      assert LocalAt(s, s', t, f) && LocalAt(s, s', u, f) && OneWaiter(s, t, u);
    }
    forall i | 0 <= i < |s'.timers|
      ensures OneTimerInv(s', i)
    {
      assert OneTimerInv(s, i);
    }
  }

  ghost predicate FamilyInv(s: Sys, f: Family)
    requires PcInv(s)
  {
    match f
    case Nothing => true
    case Mutexes => MutexInv(s)
    case Semaphores => SemInv(s)
    case OnceCells => OnceInv(s)
    case Channels => ChanInv(s)
    case Events => EventInv(s)
    case Pools => PoolInv(s)
    case Clock => TimeInv(s)
  }

  /** So it is enough to look at the family that the step is about. */
  lemma FrameAll(s: Sys, s': Sys, f: Family)
    requires Inv(s) && Local(s, s', f) && KernelInv(s'.k) && FamilyInv(s', f)
    ensures Inv(s')
  {
    if f != Mutexes {
      FrameMutexes(s, s', f);
    }
    if f != Semaphores {
      FrameSemaphores(s, s', f);
    }
    if f != OnceCells {
      FrameOnceCells(s, s', f);
    }
    if f != Channels {
      FrameChannels(s, s', f);
    }
    if f != Events {
      FrameEvents(s, s', f);
    }
    if f != Pools {
      FramePools(s, s', f);
    }
    if f != Clock {
      FrameClock(s, s', f);
    }
  }

  // ------------------------------------------------------------------ the three ways to touch tasks

  /** A step of family `f` that keeps everything, and leaves priorities and preemption alone. */
  ghost predicate Sound(s: Sys, s': Sys, f: Family) {
    Local(s, s', f) && FamilyInv(s', f) && Calm(s.k, s'.k)
  }

  /** A step of family `f` that keeps everything but may change priorities. */
  ghost predicate Kept(s: Sys, s': Sys, f: Family) {
    Local(s, s', f) && FamilyInv(s', f) && Steady(s.k, s'.k)
  }

  lemma WithinChain(s: Sys, s1: Sys, s': Sys, f: Family)
    requires Within(s, s1, f) && Within(s1, s', f)
    ensures Within(s, s', f)
  {
    forall t | 0 <= t < |s.pcs|
      ensures LocalAt(s, s', t, f)
    {
      assert LocalAt(s, s1, t, f) && LocalAt(s1, s', t, f);
    }
  }

  /** No task is touched. */
  lemma NoneTouched(s: Sys, s': Sys, f: Family)
    requires KernelInv(s.k) && PcInv(s) && s'.k == s.k && s'.pcs == s.pcs
    ensures Within(s, s', f) && Calm(s.k, s'.k)
    ensures forall t :: 0 <= t < |s.pcs| && s.pcs[t] != Free ==> Released(s', t) == Released(s, t)
  {
    CalmSelf(s.k);
  }

  /** The current task was pushed on `l`, with `p` in its `wait_ptr`. */
  ghost predicate ParkedOn(k: Kern, k': Kern, l: ListId, p: WaitPtr) {
    && Started(k) && |k'.tasks| == |k.tasks|
    && Q(k', l) == [k.cur] + Q(k, l) && (forall l' :: l' != l ==> Q(k', l') == Q(k, l'))
    && (forall t :: 0 <= t < |k.tasks| && t != k.cur ==> k'.tasks[t] == k.tasks[t])
    && k'.tasks[k.cur] == k.tasks[k.cur].(state := Blocked(l), ptr := p)
  }

  /** The best waiter of `l` was woken with `p` in its `wait_ptr`. */
  ghost predicate Woke(k: Kern, k': Kern, l: ListId, p: WaitPtr) {
    && ListOk(k, l) && Q(k, l) != [] && |k'.tasks| == |k.tasks|
    && Q(k', l) == Without(Q(k, l), Best(k, l)) && (forall l' :: l' != l ==> Q(k', l') == Q(k, l'))
    && var w := BestWaiter(k, l);
    && k.tasks[w].state == Blocked(l)
    && k'.tasks[w] == k.tasks[w].(state := Ready(k.tasks[w].slice), ptr := p)
    && forall u :: 0 <= u < |k.tasks| && u != w ==> k'.tasks[u] == k.tasks[u]
  }

  /** The running task parks on `l` inside the call `pc`. */
  lemma RunnerParks(s: Sys, s': Sys, l: ListId, p: WaitPtr, pc: Pc, f: Family)
    requires KernelInv(s.k) && PcInv(s) && !s.k.pendsv && s.k.cur != Idle(s.k) && Belongs(s.pcs[s.k.cur], f)
    requires s'.k == Park(SetPtr(s.k, s.k.cur, p), l) && s'.pcs == s.pcs[s.k.cur := pc]
    requires PcFits(pc, Blocked(l)) && PcFamily(pc) == ListFamily(l) == f
    ensures Within(s, s', f) && Calm(s.k, s'.k) && ParkedOn(s.k, s'.k, l, p)
  {
    ParkWithIsCalm(s.k, l, p);
    forall t | 0 <= t < |s'.pcs|
      ensures PcFits(s'.pcs[t], s'.k.tasks[t].state)
    {
      assert PcFits(s.pcs[t], s.k.tasks[t].state);
    }
  }

  lemma WakesOne(k: Kern, l: ListId, p: WaitPtr)
    requires Started(k) && ListOk(k, l) && Q(k, l) != []
    ensures Woke(k, WakeBestWith(k, l, p), l, p)
  {
    assert k.tasks[Q(k, l)[Best(k, l)]].state == Blocked(l);
  }

  lemma WokeWithin(s: Sys, s': Sys, l: ListId, p: WaitPtr, f: Family)
    requires PcInv(s) && Woke(s.k, s'.k, l, p) && !l.CondQ? && s'.pcs == s.pcs && ListFamily(l) == f
    ensures Within(s, s', f)
  {
    forall t | 0 <= t < |s'.pcs|
      ensures PcFits(s'.pcs[t], s'.k.tasks[t].state) && (SameTask(s, s', t) || PcFamily(s.pcs[t]) == f)
    {
      assert PcFits(s.pcs[t], s.k.tasks[t].state);
    }
  }

  /** The best waiter of `l` is woken with `p` in its `wait_ptr`. */
  lemma WaiterWakes(s: Sys, s': Sys, l: ListId, p: WaitPtr, f: Family)
    requires KernelInv(s.k) && PcInv(s) && ListOk(s.k, l) && Q(s.k, l) != []
    requires s'.k == WakeBestWith(s.k, l, p) && !l.CondQ? && s'.pcs == s.pcs && ListFamily(l) == f
    ensures Within(s, s', f) && Calm(s.k, s'.k) && Woke(s.k, s'.k, l, p)
  {
    WakeBestWithIsCalm(s.k, l, p);
    WakesOne(s.k, l, p);
    WokeWithin(s, s', l, p, f);
  }

  /** Every waiter of `l` is woken; `pcs'` says where each of them goes on. */
  lemma WaitersDrain(s: Sys, s': Sys, l: ListId, f: Family)
    requires KernelInv(s.k) && PcInv(s) && s'.k == Pend(Drain(s.k, l).0, Drain(s.k, l).1) && ListFamily(l) == f
    requires |s'.pcs| == |s.pcs|
    requires forall t :: 0 <= t < |s.pcs| && s.k.tasks[t].state != Blocked(l) ==> s'.pcs[t] == s.pcs[t]
    requires forall t :: 0 <= t < |s.pcs| && s.k.tasks[t].state == Blocked(l) ==>
      PcFits(s'.pcs[t], Ready(0)) && PcFamily(s'.pcs[t]) == f
    ensures Within(s, s', f) && Calm(s.k, s'.k) && Drained(s.k, s'.k, l)
  {
    assert Pend(s.k, false) == s.k;
    DrainIsCalm(s.k, false, l);
    DrainDrains(s.k, l);
    DrainedWithin(s, s', l, f);
  }

  lemma DrainedWithin(s: Sys, s': Sys, l: ListId, f: Family)
    requires PcInv(s) && |s'.pcs| == |s.pcs| && Drained(s.k, s'.k, l) && ListFamily(l) == f
    requires forall t :: 0 <= t < |s.pcs| && s.k.tasks[t].state != Blocked(l) ==> s'.pcs[t] == s.pcs[t]
    requires forall t :: 0 <= t < |s.pcs| && s.k.tasks[t].state == Blocked(l) ==>
      PcFits(s'.pcs[t], Ready(0)) && PcFamily(s'.pcs[t]) == f
    ensures Within(s, s', f)
  {
    forall t | 0 <= t < |s'.pcs|
      ensures PcFits(s'.pcs[t], s'.k.tasks[t].state) && (s.k.tasks[t].state == Blocked(l) ==> PcFamily(s.pcs[t]) == f)
    {
      assert PcFits(s.pcs[t], s.k.tasks[t].state);
    }
    assert PcFits(s.pcs[Idle(s.k)], s.k.tasks[Idle(s.k)].state);
  }
}
