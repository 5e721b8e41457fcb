/** Each step is what the code on the heap does: wherever an operation is enabled, the method that
    carries it out may be called, and what its contract says of the kernel and of its object is what
    the step makes of them, while no other object differs. */
module Links {
  import opened Types
  import M = KernelModel
  import opened KernelProofs
  import opened SystemModel
  import opened Runs
  import opened Priorities
  import X = MutexModel
  import C = CondvarModel
  import S = SemaphoreModel
  import O = OnceModel
  import H = ChannelModel
  import E = EventModel
  import P = PoolModel
  import T = TimerModel

  /** The state after a step, where the invariant holds again. */
  ghost function Next(s: Sys, op: Op): (r: Sys)
    requires Inv(s) && Enabled(s, op)
    ensures Inv(r)
  {
    StepKeeps(s, op);
    Step(s, op)
  }

  /** The running task may block. */
  ghost predicate CanPark(k: M.Kern) {
    M.Started(k) && k.tasks[k.cur].state.Running?
  }

  // Each predicate says that only the kernel, one object of one kind, and what is not on the heap
  // may differ, and what the first two are.

  ghost predicate KernelEdit(s: Sys, s': Sys, k: M.Kern) {
    s' == s.(k := k, pcs := s'.pcs, uptime := s'.uptime)
  }

  ghost predicate MutexEdit(s: Sys, s': Sys, m: nat, r: (M.Kern, Option<nat>)) {
    m < |s.mutexes| && s' == s.(k := r.0, mutexes := s.mutexes[m := r.1], pcs := s'.pcs, guards := s'.guards)
  }

  ghost predicate SemEdit(s: Sys, s': Sys, i: nat, r: (M.Kern, S.Sem)) {
    && i < |s.sems| == |s'.sems| && s' == s.(k := r.0, sems := s.sems[i := s'.sems[i]], pcs := s'.pcs)
    && s'.sems[i].sem == r.1
  }

  ghost predicate OnceEdit(s: Sys, s': Sys, o: nat, r: (M.Kern, O.OnceState)) {
    && o < |s.onces| == |s'.onces| && s' == s.(k := r.0, onces := s.onces[o := s'.onces[o]], pcs := s'.pcs)
    && s'.onces[o].state == r.1
  }

  ghost predicate ChanEdit(s: Sys, s': Sys, h: nat, r: (M.Kern, H.Chan)) {
    && h < |s.chans| == |s'.chans| && s' == s.(k := r.0, chans := s.chans[h := s'.chans[h]], pcs := s'.pcs)
    && s'.chans[h].chan == r.1
  }

  ghost predicate EventEdit(s: Sys, s': Sys, e: nat, r: (M.Kern, Flags)) {
    e < |s.events| && s' == s.(k := r.0, events := s.events[e := r.1], pcs := s'.pcs)
  }

  ghost predicate PoolEdit(s: Sys, s': Sys, p: nat, r: (M.Kern, P.Pool)) {
    && p < |s.pools| == |s'.pools| && s' == s.(k := r.0, pools := s.pools[p := s'.pools[p]], pcs := s'.pcs)
    && s'.pools[p].pool == r.1
  }

  ghost predicate TimerEdit(s: Sys, s': Sys, i: nat, r: (M.Kern, T.Timer)) {
    && i < |s.timers| == |s'.timers| && s' == s.(k := r.0, timers := s.timers[i := s'.timers[i]], pcs := s'.pcs)
    && s'.timers[i].timer == r.1
  }

  // ------------------------------------------------------------------ the scheduler

  lemma SwitchIs(s: Sys, sp: int)
    requires Inv(s) && s.k.pendsv
    ensures M.Started(s.k) && M.OneRunning(s.k) && M.Next(M.Retire(s.k.(pendsv := false), sp)).Some?
    ensures KernelEdit(s, Next(s, Op.PendSv(sp)), M.Switch(s.k, sp))
  {
    SwitchKeeps(s.k, sp);
  }

  lemma SleepIs(s: Sys, until: u64)
    requires Inv(s) && Enabled(s, Op.Sleep(until))
    ensures CanPark(s.k) && KernelEdit(s, Next(s, Op.Sleep(until)), M.SleepUntil(s.k, until))
  {
    ThreadIsRunning(s);
  }

  lemma ExitIs(s: Sys)
    requires Inv(s) && Enabled(s, Op.Exit)
    ensures CanPark(s.k) && KernelEdit(s, Next(s, Op.Exit), M.Exit(s.k))
  {
    ThreadIsRunning(s);
  }

  // ------------------------------------------------------------------ mutexes, condition variables

  lemma LockIs(s: Sys, m: nat)
    requires Inv(s) && Enabled(s, Op.Lock(m))
    ensures CanPark(s.k) && m < |s.mutexes| && X.OwnerOk(s.k, s.mutexes[m])
    ensures MutexEdit(s, Next(s, Op.Lock(m)), m, X.Lock(s.k, s.mutexes[m], MutexQ(m)))
  {
    ThreadIsRunning(s);
    assert OwnerInv(s, m);
  }

  lemma UnlockIs(s: Sys, m: nat)
    requires Inv(s) && Enabled(s, Op.Unlock(m))
    ensures M.Started(s.k) && m < |s.mutexes| && s.mutexes[m] == Some(s.k.cur as nat) && M.ListOk(s.k, MutexQ(m))
    ensures MutexEdit(s, Next(s, Op.Unlock(m)), m, X.Unlock(s.k, s.k.cur, MutexQ(m)))
  {
    assert GuardInv(s, s.k.cur, m) && M.ListOk(s.k, MutexQ(m));
  }

  lemma CondWaitIs(s: Sys, c: nat, m: nat)
    requires Inv(s) && Enabled(s, Op.CondWait(c, m))
    ensures CanPark(s.k) && M.WaitInv(s.k) && c < s.conds && m < |s.mutexes| && s.mutexes[m] == Some(s.k.cur as nat)
    ensures MutexEdit(s, Next(s, Op.CondWait(c, m)), m, C.Wait(s.k, CondQ(c), s.k.cur, MutexQ(m)))
  {
    ThreadIsRunning(s);
    assert GuardInv(s, s.k.cur, m);
  }

  lemma NotifyOneIs(s: Sys, c: nat)
    requires Inv(s) && Enabled(s, Op.NotifyOne(c))
    ensures M.Started(s.k) && c < s.conds && M.ListOk(s.k, CondQ(c))
    ensures KernelEdit(s, Next(s, Op.NotifyOne(c)), C.NotifyOne(s.k, CondQ(c)))
  {
    assert M.ListOk(s.k, CondQ(c));
  }

  /** A notified waiter locks its mutex again. */
  lemma RelockIs(s: Sys, m: nat)
    requires Inv(s) && Enabled(s, Return) && s.pcs[s.k.cur] == Relock(m)
    ensures CanPark(s.k) && m < |s.mutexes| && X.OwnerOk(s.k, s.mutexes[m])
    ensures MutexEdit(s, Next(s, Return), m, X.Lock(s.k, s.mutexes[m], MutexQ(m)))
  {
    assert LockerInv(s, s.k.cur);
    assert OwnerInv(s, m);
  }

  // ------------------------------------------------------------------ semaphores, once cells

  lemma TakeIs(s: Sys, i: nat)
    requires Inv(s) && Enabled(s, Op.Take(i))
    ensures CanPark(s.k) && i < |s.sems|
    ensures SemEdit(s, Next(s, Op.Take(i)), i, S.Take(s.k, s.sems[i].sem, SemQ(i)))
  {
    ThreadIsRunning(s);
  }

  lemma GiveIs(s: Sys, i: nat)
    requires Inv(s) && Enabled(s, Op.Give(i))
    ensures M.Started(s.k) && i < |s.sems| && M.ListOk(s.k, SemQ(i))
    ensures SemEdit(s, Next(s, Op.Give(i)), i, S.Give(s.k, s.sems[i].sem, SemQ(i)))
  {
    assert M.ListOk(s.k, SemQ(i));
  }

  lemma BeginIs(s: Sys, o: nat)
    requires Inv(s) && Enabled(s, Op.Begin(o))
    ensures CanPark(s.k) && o < |s.onces|
    ensures OnceEdit(s, Next(s, Op.Begin(o)), o, O.Begin(s.k, s.onces[o].state, OnceQ(o)))
  {
    ThreadIsRunning(s);
  }

  // ------------------------------------------------------------------ channels

  lemma SendIs(s: Sys, h: nat, v: Value)
    requires Inv(s) && Enabled(s, Op.Send(h, v))
    ensures CanPark(s.k) && h < |s.chans| && M.ListOk(s.k, RecvQ(h))
    ensures ChanEdit(s, Next(s, Op.Send(h, v)), h, H.Send(s.k, s.chans[h].chan, SendQ(h), RecvQ(h), v))
  {
    ThreadIsRunning(s);
    SendersOffer(s, h);
  }

  lemma TrySendIs(s: Sys, h: nat, v: Value)
    requires Inv(s) && Enabled(s, Op.TrySend(h, v))
    ensures M.Started(s.k) && h < |s.chans| && M.ListOk(s.k, RecvQ(h))
    ensures var r := H.TrySend(s.k, s.chans[h].chan, RecvQ(h), v);
      ChanEdit(s, Next(s, Op.TrySend(h, v)), h, (r.0, r.1))
  {
    SendersOffer(s, h);
  }

  lemma RecvIs(s: Sys, h: nat)
    requires Inv(s) && Enabled(s, Op.Recv(h))
    ensures CanPark(s.k) && h < |s.chans| && M.ListOk(s.k, SendQ(h)) && H.SendersParked(s.k, SendQ(h))
    ensures var r := H.Recv(s.k, s.chans[h].chan, SendQ(h), RecvQ(h));
      ChanEdit(s, Next(s, Op.Recv(h)), h, (r.0, r.1))
  {
    ThreadIsRunning(s);
    SendersOffer(s, h);
  }

  lemma TryRecvIs(s: Sys, h: nat)
    requires Inv(s) && Enabled(s, Op.TryRecv(h))
    ensures M.Started(s.k) && h < |s.chans| && M.ListOk(s.k, SendQ(h)) && H.SendersParked(s.k, SendQ(h))
    ensures var r := H.TryRecv(s.k, s.chans[h].chan, SendQ(h));
      ChanEdit(s, Next(s, Op.TryRecv(h)), h, (r.0, r.1))
  {
    SendersOffer(s, h);
  }

  // ------------------------------------------------------------------ event groups

  lemma SetIs(s: Sys, e: nat, mask: Flags)
    requires Inv(s) && Enabled(s, Op.SetFlags(e, mask))
    ensures e < |s.events| && E.GroupOk(s.k, AnyQ(e), AllQ(e))
    ensures var r := E.Set(s.k, s.events[e], AnyQ(e), AllQ(e), mask);
      EventEdit(s, Next(s, Op.SetFlags(e, mask)), e, (M.Pend(r.k, r.preempt), r.bits))
  {
    WatchersAsk(s, e);
  }

  lemma WaitAnyIs(s: Sys, e: nat, mask: Flags)
    requires Inv(s) && Enabled(s, Op.WaitAny(e, mask))
    ensures CanPark(s.k) && e < |s.events|
    ensures EventEdit(s, Next(s, Op.WaitAny(e, mask)), e, E.WaitAny(s.k, s.events[e], AnyQ(e), mask))
  {
    ThreadIsRunning(s);
  }

  lemma WaitAllIs(s: Sys, e: nat, mask: Flags)
    requires Inv(s) && Enabled(s, Op.WaitAll(e, mask))
    ensures CanPark(s.k) && e < |s.events|
    ensures EventEdit(s, Next(s, Op.WaitAll(e, mask)), e, E.WaitAll(s.k, s.events[e], AllQ(e), mask))
  {
    ThreadIsRunning(s);
  }

  // ------------------------------------------------------------------ pools

  lemma AllocIs(s: Sys, p: nat, v: Value)
    requires Inv(s) && Enabled(s, Op.Alloc(p, v))
    ensures p < |s.pools| && P.PoolOk(s.pools[p].pool)
    ensures PoolEdit(s, Next(s, Op.Alloc(p, v)), p, (s.k, P.Alloc(s.pools[p].pool, v).0))
  {
    assert OnePoolInv(s, p);
  }

  lemma AllocBlockingIs(s: Sys, p: nat, v: Value)
    requires Inv(s) && Enabled(s, Op.AllocBlocking(p, v))
    ensures CanPark(s.k) && p < |s.pools| && P.PoolOk(s.pools[p].pool)
    ensures PoolEdit(s, Next(s, Op.AllocBlocking(p, v)), p, P.AllocBlocking(s.k, s.pools[p].pool, PoolQ(p), v))
  {
    ThreadIsRunning(s);
    assert OnePoolInv(s, p);
  }

  lemma WriteIs(s: Sys, p: nat, slot: nat, v: Value)
    requires Inv(s) && Enabled(s, Op.Write(p, slot, v))
    ensures p < |s.pools| && P.PoolOk(s.pools[p].pool) && slot < s.pools[p].pool.cap
    ensures var pool := s.pools[p].pool;
      PoolEdit(s, Next(s, Op.Write(p, slot, v)), p, (s.k, pool.(nodes := pool.nodes[slot := v])))
  {
    assert OnePoolInv(s, p) && HolderInv(s, p, slot);
  }

  lemma DropIs(s: Sys, p: nat, slot: nat)
    requires Inv(s) && Enabled(s, Op.DropBox(p, slot))
    ensures M.Started(s.k) && M.ListOk(s.k, PoolQ(p)) && P.WaitersParked(s.k, PoolQ(p))
    ensures p < |s.pools| && P.PoolOk(s.pools[p].pool)
    ensures slot < s.pools[p].pool.cap && slot !in s.pools[p].pool.free
    ensures PoolEdit(s, Next(s, Op.DropBox(p, slot)), p, P.Drop(s.k, s.pools[p].pool, PoolQ(p), slot))
  {
    assert OnePoolInv(s, p) && HolderInv(s, p, slot);
    TenantsOffer(s, p);
  }

  // ------------------------------------------------------------------ timers

  lemma WaitIs(s: Sys, i: nat)
    requires Inv(s) && Enabled(s, Op.TimerWait(i))
    ensures CanPark(s.k) && i < |s.timers|
    ensures KernelEdit(s, Next(s, Op.TimerWait(i)), M.SleepUntil(s.k, s.timers[i].timer.next))
  {
    ThreadIsRunning(s);
  }

  /** The sleep of `wait` is over. */
  lemma WaitEndIs(s: Sys, i: nat, until: u64)
    requires Inv(s) && Enabled(s, Return) && s.pcs[s.k.cur] == InTimer(i, until)
    ensures i < |s.timers| && TimerEdit(s, Next(s, Return), i, (s.k, T.Advance(s.timers[i].timer)))
  {
    assert SleeperInv(s, s.k.cur);
  }

  // ------------------------------------------------------------------ calls that only return

  predicate SameChan(a: ChanLog, b: ChanLog) {
    a.chan == b.chan
  }

  predicate SamePool(a: PoolLog, b: PoolLog) {
    a.pool == b.pool
  }

  /** Nothing on the heap differs. */
  ghost predicate NoEdit(s: Sys, s': Sys) {
    && |s'.chans| == |s.chans| && (forall h :: 0 <= h < |s.chans| ==> SameChan(s'.chans[h], s.chans[h]))
    && |s'.pools| == |s.pools| && (forall p :: 0 <= p < |s.pools| ==> SamePool(s'.pools[p], s.pools[p]))
    && s' == s.(pcs := s'.pcs, guards := s'.guards, chans := s'.chans, pools := s'.pools)
  }

  lemma RecvEndIs(s: Sys)
    requires Inv(s) && Enabled(s, Return) && s.pcs[s.k.cur].InRecv?
    ensures NoEdit(s, Next(s, Return))
  {
    assert PeerInv(s, s.k.cur);
  }

  lemma AllocEndIs(s: Sys)
    requires Inv(s) && Enabled(s, Return) && s.pcs[s.k.cur].InPool?
    ensures NoEdit(s, Next(s, Return))
  {
    assert TenantInv(s, s.k.cur);
  }

  lemma WaitReturnIs(s: Sys)
    requires Inv(s) && Enabled(s, Return)
    requires var pc := s.pcs[s.k.cur]; !pc.Relock? && !pc.InTimer? && !pc.InRecv? && !pc.InPool?
    ensures NoEdit(s, Next(s, Return))
  {
  }

  lemma ReturnIs(s: Sys)
    requires Inv(s) && Enabled(s, Return) && !s.pcs[s.k.cur].Relock? && !s.pcs[s.k.cur].InTimer?
    ensures NoEdit(s, Next(s, Return))
  {
    if s.pcs[s.k.cur].InRecv? {
      RecvEndIs(s);
    } else if s.pcs[s.k.cur].InPool? {
      AllocEndIs(s);
    } else {
      WaitReturnIs(s);
    }
  }

  // ------------------------------------------------------------------ all operations

  /** `Kernel.SystickHandler`, `PendsvSaveAndSwitch`, `TriggerPendsv`, `YieldNow`, `SleepUntil`, `Exit`. */
  ghost predicate SchedulerLink(s: Sys, op: Op, s': Sys) {
    var k := s.k;
    && M.Started(k) && M.OneRunning(k)
    && (op.Tick? ==> KernelEdit(s, s', M.SysTick(k)))
    && (op.PendSv? ==> M.Next(M.Retire(k.(pendsv := false), op.sp)).Some? && KernelEdit(s, s', M.Switch(k, op.sp)))
    && (op.LateTrigger? ==> KernelEdit(s, s', M.Pend(k, true)))
    && (op.Yield? ==> KernelEdit(s, s', M.Yield(k)))
    && (op.Sleep? ==> CanPark(k) && KernelEdit(s, s', M.SleepUntil(k, op.until)))
    && (op.Exit? ==> CanPark(k) && KernelEdit(s, s', M.Exit(k)))
  }

  lemma SchedulerLinks(s: Sys, op: Op)
    requires Inv(s) && Enabled(s, op)
    ensures SchedulerLink(s, op, Next(s, op))
  {
    if op.PendSv? {
      SwitchIs(s, op.sp);
    } else if op.Sleep? {
      SleepIs(s, op.until);
    } else if op.Exit? {
      ExitIs(s);
    }
  }

  /** The methods of `Mutex`. A notified waiter of a condition variable locks its mutex when it returns. */
  ghost predicate LockLink(s: Sys, op: Op, s': Sys)
    requires M.Started(s.k) && |s.pcs| == |s.k.tasks|
  {
    var k, c := s.k, s.k.cur as nat;
    var m := Subject(s, op);
    && ((op.Lock? || (op.Return? && s.pcs[c].Relock?)) ==>
          && CanPark(k) && m < |s.mutexes| && X.OwnerOk(k, s.mutexes[m])
          && MutexEdit(s, s', m, X.Lock(k, s.mutexes[m], MutexQ(m))))
    && (op.TryLock? ==> m < |s.mutexes| && MutexEdit(s, s', m, (k, X.TryLock(k, s.mutexes[m]).0)))
    && (op.Unlock? ==>
          && m < |s.mutexes| && s.mutexes[m] == Some(c) && M.ListOk(k, MutexQ(m))
          && MutexEdit(s, s', m, X.Unlock(k, c, MutexQ(m))))
  }

  lemma LockLinks(s: Sys, op: Op)
    requires Inv(s) && Enabled(s, op)
    ensures LockLink(s, op, Next(s, op))
  {
    if op.Lock? {
      LockIs(s, op.m);
    } else if op.Unlock? {
      UnlockIs(s, op.m);
    } else if op.Return? && s.pcs[s.k.cur].Relock? {
      RelockIs(s, s.pcs[s.k.cur].m);
    }
  }

  /** The methods of `Condvar`. */
  ghost predicate CondvarLink(s: Sys, op: Op, s': Sys)
    requires M.Started(s.k) && M.WaitInv(s.k)
  {
    var k, c := s.k, s.k.cur as nat;
    && (op.CondWait? ==>
          && CanPark(k) && op.c < s.conds && op.m < |s.mutexes| && s.mutexes[op.m] == Some(c)
          && MutexEdit(s, s', op.m, C.Wait(k, CondQ(op.c), c, MutexQ(op.m))))
    && (op.NotifyOne? ==> M.ListOk(k, CondQ(op.c)) && KernelEdit(s, s', C.NotifyOne(k, CondQ(op.c))))
    && (op.NotifyAll? ==> KernelEdit(s, s', C.NotifyAll(k, CondQ(op.c))))
  }

  lemma CondvarLinks(s: Sys, op: Op)
    requires Inv(s) && Enabled(s, op)
    ensures CondvarLink(s, op, Next(s, op))
  {
    if op.CondWait? {
      CondWaitIs(s, op.c, op.m);
    } else if op.NotifyOne? {
      NotifyOneIs(s, op.c);
    }
  }

  /** The methods of `Semaphore` and `Once`. */
  ghost predicate TokenLink(s: Sys, op: Op, s': Sys)
    requires M.Started(s.k) && M.WaitInv(s.k)
  {
    var k := s.k;
    && (op.Take? ==> CanPark(k) && op.i < |s.sems| && SemEdit(s, s', op.i, S.Take(k, s.sems[op.i].sem, SemQ(op.i))))
    && (op.TryTake? ==> op.i < |s.sems| && SemEdit(s, s', op.i, (k, S.TryTake(s.sems[op.i].sem).0)))
    && (op.Give? ==>
          && op.i < |s.sems| && M.ListOk(k, SemQ(op.i))
          && SemEdit(s, s', op.i, S.Give(k, s.sems[op.i].sem, SemQ(op.i))))
    && (op.Begin? ==>
          && CanPark(k) && op.o < |s.onces|
          && OnceEdit(s, s', op.o, O.Begin(k, s.onces[op.o].state, OnceQ(op.o))))
    && (op.Finish? ==> OnceEdit(s, s', op.o, (O.Finish(k, OnceQ(op.o)), O.Done)))
  }

  lemma TokenLinks(s: Sys, op: Op)
    requires Inv(s) && Enabled(s, op)
    ensures TokenLink(s, op, Next(s, op))
  {
    if op.Take? {
      TakeIs(s, op.i);
    } else if op.Give? {
      GiveIs(s, op.i);
    } else if op.Begin? {
      BeginIs(s, op.o);
    }
  }

  /** The methods of `Channel`. */
  ghost predicate ChannelLink(s: Sys, op: Op, s': Sys)
    requires M.Started(s.k)
  {
    OnChannel(op) ==>
      var k, h := s.k, op.h;
      && h < |s.chans| && M.ListOk(k, RecvQ(h)) && M.ListOk(k, SendQ(h)) && H.SendersParked(k, SendQ(h))
      && var c := s.chans[h].chan;
      && (op.Send? ==> CanPark(k) && ChanEdit(s, s', h, H.Send(k, c, SendQ(h), RecvQ(h), op.v)))
      && (op.TrySend? ==> var r := H.TrySend(k, c, RecvQ(h), op.v); ChanEdit(s, s', h, (r.0, r.1)))
      && (op.Recv? ==> CanPark(k) && var r := H.Recv(k, c, SendQ(h), RecvQ(h)); ChanEdit(s, s', h, (r.0, r.1)))
      && (op.TryRecv? ==> var r := H.TryRecv(k, c, SendQ(h)); ChanEdit(s, s', h, (r.0, r.1)))
  }

  lemma ChannelLinks(s: Sys, op: Op)
    requires Inv(s) && Enabled(s, op)
    ensures ChannelLink(s, op, Next(s, op))
  {
    if op.Send? {
      SendersOffer(s, op.h);
      SendIs(s, op.h, op.v);
    } else if op.TrySend? {
      SendersOffer(s, op.h);
      TrySendIs(s, op.h, op.v);
    } else if op.Recv? {
      SendersOffer(s, op.h);
      RecvIs(s, op.h);
    } else if op.TryRecv? {
      SendersOffer(s, op.h);
      TryRecvIs(s, op.h);
    }
  }

  /** The methods of `EventGroup`. */
  ghost predicate EventLink(s: Sys, op: Op, s': Sys)
    requires M.Started(s.k)
  {
    OnGroup(op) ==>
      var k, e := s.k, op.e;
      && e < |s.events|
      && (op.SetFlags? ==>
            && E.GroupOk(k, AnyQ(e), AllQ(e))
            && var r := E.Set(k, s.events[e], AnyQ(e), AllQ(e), op.mask);
            EventEdit(s, s', e, (M.Pend(r.k, r.preempt), r.bits)))
      && (op.ClearFlags? ==> EventEdit(s, s', e, (k, s.events[e] - op.mask)))
      && (op.WaitAny? ==> CanPark(k) && EventEdit(s, s', e, E.WaitAny(k, s.events[e], AnyQ(e), op.mask)))
      && (op.WaitAll? ==> CanPark(k) && EventEdit(s, s', e, E.WaitAll(k, s.events[e], AllQ(e), op.mask)))
  }

  lemma EventLinks(s: Sys, op: Op)
    requires Inv(s) && Enabled(s, op)
    ensures EventLink(s, op, Next(s, op))
  {
    if op.SetFlags? {
      SetIs(s, op.e, op.mask);
    } else if op.WaitAny? {
      WaitAnyIs(s, op.e, op.mask);
    } else if op.WaitAll? {
      WaitAllIs(s, op.e, op.mask);
    }
  }

  /** The methods of `Pool`, and the assignment through a `PoolBox`. */
  ghost predicate PoolLink(s: Sys, op: Op, s': Sys)
    requires M.Started(s.k)
  {
    OnPool(op) ==>
      var k, p := s.k, op.p;
      && p < |s.pools| && P.PoolOk(s.pools[p].pool)
      && var pool := s.pools[p].pool;
      && (op.Alloc? ==> PoolEdit(s, s', p, (k, P.Alloc(pool, op.v).0)))
      && (op.AllocBlocking? ==> CanPark(k) && PoolEdit(s, s', p, P.AllocBlocking(k, pool, PoolQ(p), op.v)))
      && (op.Write? ==>
            op.slot < pool.cap && PoolEdit(s, s', p, (k, pool.(nodes := pool.nodes[op.slot := op.v]))))
      && (op.DropBox? ==>
            && M.ListOk(k, PoolQ(p)) && P.WaitersParked(k, PoolQ(p)) && op.slot < pool.cap && op.slot !in pool.free
            && PoolEdit(s, s', p, P.Drop(k, pool, PoolQ(p), op.slot)))
  }

  lemma PoolLinks(s: Sys, op: Op)
    requires Inv(s) && Enabled(s, op)
    ensures PoolLink(s, op, Next(s, op))
  {
    if op.Alloc? {
      AllocIs(s, op.p, op.v);
    } else if op.AllocBlocking? {
      AllocBlockingIs(s, op.p, op.v);
    } else if op.Write? {
      WriteIs(s, op.p, op.slot, op.v);
    } else if op.DropBox? {
      DropIs(s, op.p, op.slot);
    }
  }

  /** The methods of `Timer`; the rest of `wait` follows when the sleep is over. Every other blocking
      call just returns. */
  ghost predicate TimerLink(s: Sys, op: Op, s': Sys)
    requires M.Started(s.k) && |s.pcs| == |s.k.tasks|
  {
    var k, pc := s.k, s.pcs[s.k.cur];
    && (op.TimerAfter? ==> TimerEdit(s, s', op.i, (k, T.After(k.tick, op.delay))))
    && (op.TimerEvery? ==> TimerEdit(s, s', op.i, (k, T.Every(k.tick, op.period))))
    && (op.TimerWait? ==>
          CanPark(k) && op.i < |s.timers| && KernelEdit(s, s', M.SleepUntil(k, s.timers[op.i].timer.next)))
    && (op.Return? && pc.InTimer? ==>
          pc.i < |s.timers| && TimerEdit(s, s', pc.i, (k, T.Advance(s.timers[pc.i].timer))))
    && (op.Return? && !pc.InTimer? && !pc.Relock? ==> NoEdit(s, s'))
  }

  lemma TimerLinks(s: Sys, op: Op)
    requires Inv(s) && Enabled(s, op)
    ensures TimerLink(s, op, Next(s, op))
  {
    if op.TimerWait? {
      WaitIs(s, op.i);
    } else if op.Return? && s.pcs[s.k.cur].InTimer? {
      WaitEndIs(s, s.pcs[s.k.cur].i, s.pcs[s.k.cur].until);
    } else if op.Return? && !s.pcs[s.k.cur].Relock? {
      ReturnIs(s);
    }
  }
}
