/** The whole kernel as one state machine. A step is the critical section of one API call by the
    running task together with the context switch it requests, an interrupt-safe call, a tick, or
    PendSV. Beside the kernel's own state the machine records where each task is inside a blocking
    call, which guards and pool boxes are live, and what was sent, taken, given and started. */
module SystemModel {
  import opened Types
  import opened Seqs
  import opened KernelModel
  import opened KernelProofs
  import X = MutexModel
  import C = CondvarModel
  import S = SemaphoreModel
  import O = OnceModel
  import H = ChannelModel
  import E = EventModel
  import P = PoolModel
  import T = TimerModel

  /** Where a task is. `Free` is the caller's own code; anything else is a blocking call that has
      passed its critical section and not returned. A notified condvar waiter still has to lock. */
  datatype Pc =
    | Free
    | InLock(m: nat)
    | Relock(m: nat)
    | InCond(c: nat, m: nat)
    | InSem(s: nat)
    | InOnce(o: nat)
    | InSend(h: nat, v: Value)
    | InRecv(h: nat)
    | InAny(e: nat, mask: Flags)
    | InAll(e: nat, mask: Flags)
    | InPool(p: nat, v: Value)
    | InSleep(until: u64)
    | InTimer(i: nat, until: u64)

  datatype SemLog = SemLog(sem: S.Sem, initial: nat, gives: nat, granted: nat, dropped: nat)
  datatype OnceLog = OnceLog(state: O.OnceState, runner: Option<nat>, starts: nat)

  /** `inbox` holds what was handed to a parked receiver that has not returned yet. */
  datatype ChanLog = ChanLog(
    chan: H.Chan, sent: seq<Value>, accepted: seq<Value>, delivered: seq<Value>, rejected: seq<Value>,
    inbox: map<nat, Value>)

  /** Who holds a slot that is not free: a live `PoolBox`, or a waiter that has not returned yet. */
  datatype Holder = Boxed(v: Value) | Granted(t: nat, v: Value)
  datatype PoolLog = PoolLog(pool: P.Pool, holder: map<nat, Holder>)

  /** `start` is the uptime at creation, `step` the delay or period, `ended` the uptime at which
      each completed wait returned. */
  datatype TimerLog = TimerLog(timer: T.Timer, start: nat, step: u64, ended: seq<nat>)

  /** `uptime` counts ticks without wrapping. `guards` holds a pair for each live mutex guard. */
  datatype Sys = Sys(
    k: Kern, pcs: seq<Pc>, uptime: nat,
    mutexes: seq<Option<nat>>, guards: set<(nat, nat)>, conds: nat,
    sems: seq<SemLog>, onces: seq<OnceLog>, chans: seq<ChanLog>, events: seq<Flags>,
    pools: seq<PoolLog>, timers: seq<TimerLog>)

  // ------------------------------------------------------------------ invariants

  /** Blocked where the call blocks, or on its way out of it. */
  predicate PcFits(pc: Pc, p: Phase) {
    var runnable := p.Ready? || p.Running?;
    match pc
    case Free => runnable || p.Dead?
    case InLock(m) => runnable || p == Blocked(MutexQ(m))
    case Relock(_) => runnable
    case InCond(c, _) => p == Blocked(CondQ(c))
    case InSem(s) => runnable || p == Blocked(SemQ(s))
    case InOnce(o) => runnable || p == Blocked(OnceQ(o))
    case InSend(h, _) => runnable || p == Blocked(SendQ(h))
    case InRecv(h) => runnable || p == Blocked(RecvQ(h))
    case InAny(e, _) => runnable || p == Blocked(AnyQ(e))
    case InAll(e, _) => runnable || p == Blocked(AllQ(e))
    case InPool(q, _) => runnable || p == Blocked(PoolQ(q))
    case InSleep(d) => runnable || p == Sleeping(d)
    case InTimer(_, d) => runnable || p == Sleeping(d)
  }

  ghost predicate PcInv(s: Sys) {
    && |s.pcs| == |s.k.tasks| > 0
    && s.pcs[Idle(s.k)] == Free
    && forall t :: 0 <= t < |s.pcs| ==> PcFits(s.pcs[t], s.k.tasks[t].state)
  }

  /** The task has a call to finish and has been let out of its wait. */
  ghost predicate Released(s: Sys, t: nat)
    requires PcInv(s) && t < |s.pcs|
  {
    s.pcs[t] != Free && Runnable(s.k.tasks[t])
  }

  // --- mutexes and condition variables

  ghost predicate MutexInv(s: Sys)
    requires PcInv(s)
  {
    && (forall m :: 0 <= m < |s.mutexes| ==> OwnerInv(s, m))
    && (forall t :: 0 <= t < |s.pcs| ==> LockerInv(s, t))
    && (forall t, m :: GuardInv(s, t, m))
  }

  /** An owner is a task, and waiters imply an owner: nobody can barge in. */
  ghost predicate OwnerInv(s: Sys, m: nat)
    requires m < |s.mutexes|
  {
    && X.OwnerOk(s.k, s.mutexes[m])
    && (Q(s.k, MutexQ(m)) != [] ==> s.mutexes[m].Some?)
  }

  /** A task let out of `lock` owns the mutex. */
  ghost predicate LockerInv(s: Sys, t: nat)
    requires PcInv(s) && t < |s.pcs|
  {
    match s.pcs[t]
    case InLock(m) => m < |s.mutexes| && (Released(s, t) ==> s.mutexes[m] == Some(t))
    case Relock(m) => m < |s.mutexes|
    case InCond(c, m) => c < s.conds && m < |s.mutexes|
    case _ => true
  }

  /** A guard is live exactly while its task owns the mutex and is not still inside `lock`. */
  ghost predicate GuardInv(s: Sys, t: nat, m: nat)
    requires PcInv(s)
  {
    (t, m) in s.guards <==>
    (t < |s.pcs| && m < |s.mutexes| && s.mutexes[m] == Some(t) && !(s.pcs[t] == InLock(m) && Released(s, t)))
  }

  // --- semaphores and once cells

  ghost predicate SemInv(s: Sys)
    requires PcInv(s)
  {
    && (forall i :: 0 <= i < |s.sems| ==> OneSemInv(s, i))
    && forall t :: 0 <= t < |s.pcs| ==> TakerInv(s, t)
  }

  ghost predicate TakerInv(s: Sys, t: nat)
    requires PcInv(s) && t < |s.pcs|
  {
    s.pcs[t].InSem? ==> s.pcs[t].s < |s.sems|
  }

  /** Every token is accounted for, and tasks wait only when there is none. */
  ghost predicate OneSemInv(s: Sys, i: nat)
    requires i < |s.sems|
  {
    var log := s.sems[i];
    && log.sem.count <= log.sem.max
    && log.initial + log.gives == log.sem.count + log.granted + log.dropped
    && (Q(s.k, SemQ(i)) != [] ==> log.sem.count == 0)
  }

  ghost predicate OnceInv(s: Sys)
    requires PcInv(s)
  {
    && (forall o :: 0 <= o < |s.onces| ==> OneOnceInv(s, o))
    && forall t :: 0 <= t < |s.pcs| ==> CallerInv(s, t)
  }

  /** A task let out of `call_once` finds the initialisation complete. */
  ghost predicate CallerInv(s: Sys, t: nat)
    requires PcInv(s) && t < |s.pcs|
  {
    s.pcs[t].InOnce? ==> s.pcs[t].o < |s.onces| && (Released(s, t) ==> s.onces[s.pcs[t].o].state == O.Done)
  }

  /** The closure was started once if the cell left its first state; tasks wait only while it runs. */
  ghost predicate OneOnceInv(s: Sys, o: nat)
    requires o < |s.onces|
  {
    var log := s.onces[o];
    && log.starts == (if log.state == O.Unstarted then 0 else 1)
    && (log.runner.Some? <==> log.state == O.InProgress)
    && (Q(s.k, OnceQ(o)) != [] ==> log.state == O.InProgress)
  }

  // --- channels

  ghost predicate ChanInv(s: Sys)
    requires PcInv(s)
  {
    && (forall h :: 0 <= h < |s.chans| ==> OneChanInv(s, h))
    && forall t :: 0 <= t < |s.pcs| ==> PeerInv(s, t)
  }

  /** The value a parked sender offers. */
  function Offer(k: Kern, t: nat): Value {
    if t < |k.tasks| && k.tasks[t].ptr.Parked? then k.tasks[t].ptr.val else 0
  }

  function Offers(k: Kern, q: seq<nat>): seq<Value> {
    seq(|q|, j requires 0 <= j < |q| => Offer(k, q[j]))
  }

  /** Nobody waits to send while there is room, nor to receive while there is an item; what was
      accepted is what was delivered followed by what is buffered; and every value sent was
      accepted, rejected, or is still offered by its parked sender. */
  ghost predicate OneChanInv(s: Sys, h: nat)
    requires h < |s.chans|
  {
    var log := s.chans[h];
    && |log.chan.items| <= log.chan.cap
    && (Q(s.k, SendQ(h)) != [] ==> |log.chan.items| == log.chan.cap)
    && (Q(s.k, RecvQ(h)) != [] ==> log.chan.items == [])
    && log.accepted == log.delivered + log.chan.items
    && multiset(log.sent) == multiset(log.accepted) + multiset(log.rejected) + multiset(Offers(s.k, Q(s.k, SendQ(h))))
  }

  /** A parked sender offers the value of its call; a receiver let out of `recv` finds in its slot
      what was handed to it. */
  ghost predicate PeerInv(s: Sys, t: nat)
    requires PcInv(s) && t < |s.pcs|
  {
    match s.pcs[t]
    case InSend(h, v) => h < |s.chans| && (!Released(s, t) ==> s.k.tasks[t].ptr == Parked(v))
    case InRecv(h) =>
      && h < |s.chans|
      && (if Released(s, t) then t in s.chans[h].inbox && s.k.tasks[t].ptr == Filled(s.chans[h].inbox[t])
          else s.k.tasks[t].ptr == Hole)
    case _ => true
  }

  // --- event groups

  ghost predicate EventInv(s: Sys)
    requires PcInv(s)
  {
    forall t :: 0 <= t < |s.pcs| ==> WatcherInv(s, t)
  }

  /** Nobody is parked whose condition holds; a task let out of `wait_any` finds in `wait_ptr` a
      non-empty part of what it asked for. */
  ghost predicate WatcherInv(s: Sys, t: nat)
    requires PcInv(s) && t < |s.pcs|
  {
    match s.pcs[t]
    case InAny(e, mask) =>
      && e < |s.events| && s.k.tasks[t].ptr.Mask?
      && var got := s.k.tasks[t].ptr.flags;
      if Released(s, t) then got != {} && got <= mask else got == mask && s.events[e] * mask == {}
    case InAll(e, mask) =>
      && e < |s.events|
      && (!Released(s, t) ==> s.k.tasks[t].ptr == Mask(mask) && !(mask <= s.events[e]))
    case _ => true
  }

  // --- pools

  ghost predicate PoolInv(s: Sys)
    requires PcInv(s)
  {
    && (forall p :: 0 <= p < |s.pools| ==> OnePoolInv(s, p))
    && forall t :: 0 <= t < |s.pcs| ==> TenantInv(s, t)
  }

  /** The free list and the held slots partition the pool, a held slot contains its holder's value,
      and tasks wait only when no slot is free. */
  ghost predicate OnePoolInv(s: Sys, p: nat)
    requires PcInv(s) && p < |s.pools|
  {
    var log := s.pools[p];
    && P.PoolOk(log.pool) && NoDup(log.pool.free)
    && (forall x :: 0 <= x < log.pool.cap ==> (x in log.pool.free <==> x !in log.holder))
    && (forall x :: x in log.holder ==> HolderInv(s, p, x))
    && (Q(s.k, PoolQ(p)) != [] ==> log.pool.free == [])
  }

  ghost predicate HolderInv(s: Sys, p: nat, x: nat)
    requires PcInv(s) && p < |s.pools| && x in s.pools[p].holder && P.PoolOk(s.pools[p].pool)
  {
    var log := s.pools[p];
    && x < log.pool.cap && log.pool.nodes[x] == log.holder[x].v
    && (log.holder[x].Granted? ==>
          var t := log.holder[x].t;
          t < |s.pcs| && s.pcs[t] == InPool(p, log.holder[x].v) && Released(s, t) && s.k.tasks[t].ptr == Index(x))
  }

  ghost predicate TenantInv(s: Sys, t: nat)
    requires PcInv(s) && t < |s.pcs|
  {
    match s.pcs[t]
    case InPool(p, v) =>
      && p < |s.pools|
      && if Released(s, t)
         then var ptr := s.k.tasks[t].ptr;
           ptr.Index? && (ptr.slot as nat) in s.pools[p].holder && s.pools[p].holder[ptr.slot as nat] == Granted(t, v)
         else s.k.tasks[t].ptr == Parked(v)
    case _ => true
  }

  // --- time

  ghost predicate TimeInv(s: Sys)
    requires PcInv(s)
  {
    && s.k.tick == s.uptime % TWO_64
    && (forall t :: 0 <= t < |s.pcs| ==> SleeperInv(s, t))
    && (forall t, u :: 0 <= t < u < |s.pcs| ==> OneWaiter(s, t, u))
    && (forall i :: 0 <= i < |s.timers| ==> OneTimerInv(s, i))
  }

  /** No two tasks wait on the same timer. */
  predicate OneWaiter(s: Sys, t: nat, u: nat)
    requires t < |s.pcs| && u < |s.pcs|
  {
    s.pcs[t].InTimer? && s.pcs[u].InTimer? ==> s.pcs[t].i != s.pcs[u].i
  }

  /** Nobody leaves a sleep before its deadline, as long as the tick counter has not wrapped. */
  ghost predicate SleeperInv(s: Sys, t: nat)
    requires PcInv(s) && t < |s.pcs|
  {
    match s.pcs[t]
    case InSleep(d) => Released(s, t) && s.uptime < TWO_64 ==> d <= s.uptime
    case InTimer(i, d) =>
      && i < |s.timers| && d == s.timers[i].timer.next
      && (Released(s, t) && s.uptime < TWO_64 ==> d <= s.uptime)
    case _ => true
  }

  /** The deadline after `n` completed waits. */
  function Deadline(log: TimerLog, n: nat): nat {
    if log.timer.period.None? then log.start + log.step else log.start + (n + 1) * log.step
  }

  /** The deadline advances by exactly one period a wait, and no wait returned before its own. */
  ghost predicate OneTimerInv(s: Sys, i: nat)
    requires i < |s.timers|
  {
    var log := s.timers[i];
    && (log.timer.period.Some? ==> log.timer.period.value == log.step)
    && log.timer.next == Deadline(log, |log.ended|) % TWO_64
    && forall j :: 0 <= j < |log.ended| ==> OnTime(log, j, s.uptime)
  }

  ghost predicate OnTime(log: TimerLog, j: nat, now: nat)
    requires j < |log.ended|
  {
    now < TWO_64 && Deadline(log, j) < TWO_64 ==> Deadline(log, j) <= log.ended[j] <= now
  }

  ghost predicate Inv(s: Sys) {
    && KernelInv(s.k) && PcInv(s)
    && MutexInv(s) && SemInv(s) && OnceInv(s) && ChanInv(s) && EventInv(s) && PoolInv(s) && TimeInv(s)
  }

  // ------------------------------------------------------------------ what a step may rely on

  /** The running task is in its own code and about to make a call: no exception is due, and the
      idle task makes none. */
  ghost predicate Thread(s: Sys) {
    && Started(s.k) && |s.pcs| == |s.k.tasks|
    && !s.k.pendsv && s.k.cur != Idle(s.k) && s.pcs[s.k.cur] == Free
  }

  lemma ThreadIsRunning(s: Sys)
    requires KernelInv(s.k) && Thread(s)
    ensures s.k.tasks[s.k.cur].state.Running?
  {
  }

  // What is parked in `wait_ptr` is what the code that reads it expects.

  lemma SendersOffer(s: Sys, h: nat)
    requires KernelInv(s.k) && PcInv(s) && ChanInv(s)
    ensures ListOk(s.k, SendQ(h)) && ListOk(s.k, RecvQ(h)) && H.SendersParked(s.k, SendQ(h))
  {
    assert ListOk(s.k, SendQ(h)) && ListOk(s.k, RecvQ(h));
    forall j | 0 <= j < |Q(s.k, SendQ(h))|
      ensures s.k.tasks[Q(s.k, SendQ(h))[j]].ptr.Parked?
    {
      assert PeerInv(s, Q(s.k, SendQ(h))[j]);
    }
  }

  lemma WatchersAsk(s: Sys, e: nat)
    requires KernelInv(s.k) && PcInv(s) && EventInv(s)
    ensures E.GroupOk(s.k, AnyQ(e), AllQ(e))
  {
    assert ListOk(s.k, AnyQ(e)) && ListOk(s.k, AllQ(e));
    forall j | 0 <= j < |Q(s.k, AnyQ(e))|
      ensures s.k.tasks[Q(s.k, AnyQ(e))[j]].ptr.Mask?
    {
      assert WatcherInv(s, Q(s.k, AnyQ(e))[j]);
    }
    forall j | 0 <= j < |Q(s.k, AllQ(e))|
      ensures s.k.tasks[Q(s.k, AllQ(e))[j]].ptr.Mask?
    {
      assert WatcherInv(s, Q(s.k, AllQ(e))[j]);
    }
  }

  lemma TenantsOffer(s: Sys, p: nat)
    requires KernelInv(s.k) && PcInv(s) && PoolInv(s)
    ensures ListOk(s.k, PoolQ(p)) && P.WaitersParked(s.k, PoolQ(p))
  {
    assert ListOk(s.k, PoolQ(p));
    forall j | 0 <= j < |Q(s.k, PoolQ(p))|
      ensures s.k.tasks[Q(s.k, PoolQ(p))[j]].ptr.Parked?
    {
      assert TenantInv(s, Q(s.k, PoolQ(p))[j]);
    }
  }

  // ------------------------------------------------------------------ steps

  datatype Op =
    | Tick
    | PendSv(sp: int)
      /** `trigger_pendsv` follows the critical section; a task that was switched out in between
          raises it when it runs again, whether or not a switch is still needed. */
    | LateTrigger
    | Yield
    | Sleep(until: u64)
    | Exit
    | Lock(m: nat)
    | TryLock(m: nat)
    | Unlock(m: nat)
    | CondWait(c: nat, m: nat)
    | NotifyOne(c: nat)
    | NotifyAll(c: nat)
    | Take(i: nat)
    | TryTake(i: nat)
    | Give(i: nat)
    | Begin(o: nat)
    | Finish(o: nat)
    | Send(h: nat, v: Value)
    | TrySend(h: nat, v: Value)
    | Recv(h: nat)
    | TryRecv(h: nat)
    | SetFlags(e: nat, mask: Flags)
    | ClearFlags(e: nat, mask: Flags)
    | WaitAny(e: nat, mask: Flags)
    | WaitAll(e: nat, mask: Flags)
    | Alloc(p: nat, v: Value)
    | AllocBlocking(p: nat, v: Value)
    | Write(p: nat, slot: nat, v: Value)
    | DropBox(p: nat, slot: nat)
    | TimerAfter(i: nat, delay: u64)
    | TimerEvery(i: nat, period: u64)
    | TimerWait(i: nat)
      /** A task whose blocking call was satisfied runs again and the call returns. */
    | Return

  /** No task is inside `wait` on this timer, which it would have borrowed. */
  predicate TimerFree(s: Sys, i: nat) {
    i < |s.timers| && forall t :: 0 <= t < |s.pcs| ==> !(s.pcs[t].InTimer? && s.pcs[t].i == i)
  }

  /** A live `PoolBox` for the slot exists. */
  predicate BoxLive(s: Sys, p: nat, slot: nat) {
    p < |s.pools| && slot in s.pools[p].holder && s.pools[p].holder[slot].Boxed?
  }

  /** When a step can happen. Calls that block, or that a guard or a borrow ties to a task, are made
      by the running task; the others also by interrupt handlers, at any time. */
  ghost predicate Enabled(s: Sys, op: Op) {
    match op
    case Tick => true
    case PendSv(_) => s.k.pendsv
    case LateTrigger => true
    case Yield => Thread(s)
    case Sleep(_) => Thread(s)
    case Exit => Thread(s)
    case Lock(m) => Thread(s) && m < |s.mutexes|
    case TryLock(m) => Thread(s) && m < |s.mutexes|
    case Unlock(m) => Thread(s) && (s.k.cur, m) in s.guards
    case CondWait(c, m) => Thread(s) && c < s.conds && (s.k.cur, m) in s.guards
    case NotifyOne(c) => c < s.conds
    case NotifyAll(c) => c < s.conds
    case Take(i) => Thread(s) && i < |s.sems|
    case TryTake(i) => i < |s.sems|
    case Give(i) => i < |s.sems|
    case Begin(o) => Thread(s) && o < |s.onces|
    case Finish(o) => Thread(s) && o < |s.onces| && s.onces[o].runner == Some(s.k.cur)
    case Send(h, _) => Thread(s) && h < |s.chans|
    case TrySend(h, _) => h < |s.chans|
    case Recv(h) => Thread(s) && h < |s.chans|
    case TryRecv(h) => h < |s.chans|
    case SetFlags(e, _) => e < |s.events|
    case ClearFlags(e, _) => e < |s.events|
    case WaitAny(e, _) => Thread(s) && e < |s.events|
    case WaitAll(e, _) => Thread(s) && e < |s.events|
    case Alloc(p, _) => p < |s.pools|
    case AllocBlocking(p, _) => Thread(s) && p < |s.pools|
    case Write(p, slot, _) => BoxLive(s, p, slot)
    case DropBox(p, slot) => BoxLive(s, p, slot)
    case TimerAfter(i, _) => Thread(s) && TimerFree(s, i)
    case TimerEvery(i, _) => Thread(s) && TimerFree(s, i)
    case TimerWait(i) => Thread(s) && TimerFree(s, i)
    case Return => Started(s.k) && |s.pcs| == |s.k.tasks| && !s.k.pendsv && s.pcs[s.k.cur] != Free
  }

  ghost function LockStep(s: Sys, m: nat): Sys
    requires KernelInv(s.k) && PcInv(s) && MutexInv(s) && m < |s.mutexes|
  {
    assert OwnerInv(s, m);
    var (k, owner) := X.Lock(s.k, s.mutexes[m], MutexQ(m));
    s.(k := k, mutexes := s.mutexes[m := owner],
    pcs := s.pcs[s.k.cur := if s.mutexes[m].None? then Free else InLock(m)],
    guards := if s.mutexes[m].None? then s.guards + {(s.k.cur, m)} else s.guards)
  }

  ghost function TryLockStep(s: Sys, m: nat): Sys
    requires KernelInv(s.k) && PcInv(s) && MutexInv(s) && m < |s.mutexes|
  {
    var (owner, acquired) := X.TryLock(s.k, s.mutexes[m]);
    s.(mutexes := s.mutexes[m := owner], guards := if acquired then s.guards + {(s.k.cur, m)} else s.guards)
  }

  ghost function UnlockStep(s: Sys, m: nat): Sys
    requires KernelInv(s.k) && PcInv(s) && MutexInv(s) && (s.k.cur, m) in s.guards
  {
    assert GuardInv(s, s.k.cur, m);
    assert ListOk(s.k, MutexQ(m));
    var (k, owner) := X.Unlock(s.k, s.k.cur, MutexQ(m));
    s.(k := k, mutexes := s.mutexes[m := owner], guards := s.guards - {(s.k.cur, m)})
  }

  ghost function CondWaitStep(s: Sys, c: nat, m: nat): Sys
    requires KernelInv(s.k) && PcInv(s) && MutexInv(s) && Thread(s) && (s.k.cur, m) in s.guards
  {
    assert GuardInv(s, s.k.cur, m);
    var (k, owner) := C.Wait(s.k, CondQ(c), s.k.cur, MutexQ(m));
    s.(k := k, mutexes := s.mutexes[m := owner], guards := s.guards - {(s.k.cur, m)},
    pcs := s.pcs[s.k.cur := InCond(c, m)])
  }

  /** A notified waiter's next action is to lock its mutex again. */
  function Notified(pc: Pc): Pc {
    if pc.InCond? then Relock(pc.m) else pc
  }

  ghost function NotifyOneStep(s: Sys, c: nat): Sys
    requires KernelInv(s.k) && PcInv(s)
  {
    assert ListOk(s.k, CondQ(c));
    if Q(s.k, CondQ(c)) == [] then s else
    var t := BestWaiter(s.k, CondQ(c));
    s.(k := C.NotifyOne(s.k, CondQ(c)), pcs := s.pcs[t := Notified(s.pcs[t])])
  }

  ghost function NotifyAllStep(s: Sys, c: nat): Sys
    requires KernelInv(s.k) && PcInv(s)
  {
    s.(k := C.NotifyAll(s.k, CondQ(c)),
    pcs := seq(|s.pcs|, t requires 0 <= t < |s.pcs| =>
      if s.k.tasks[t].state == Blocked(CondQ(c)) then Notified(s.pcs[t]) else s.pcs[t]))
  }

  ghost function TakeStep(s: Sys, i: nat): Sys
    requires KernelInv(s.k) && PcInv(s) && i < |s.sems|
  {
    var log := s.sems[i];
    var (k, sem) := S.Take(s.k, log.sem, SemQ(i));
    var taken := if log.sem.count > 0 then 1 else 0;
    s.(k := k, sems := s.sems[i := log.(sem := sem, granted := log.granted + taken)],
    pcs := if log.sem.count > 0 then s.pcs else s.pcs[s.k.cur := InSem(i)])
  }

  ghost function TryTakeStep(s: Sys, i: nat): Sys
    requires i < |s.sems|
  {
    var log := s.sems[i];
    var (sem, ok) := S.TryTake(log.sem);
    s.(sems := s.sems[i := log.(sem := sem, granted := log.granted + if ok then 1 else 0)])
  }

  ghost function GiveStep(s: Sys, i: nat): Sys
    requires KernelInv(s.k) && PcInv(s) && i < |s.sems|
  {
    assert ListOk(s.k, SemQ(i));
    var log := s.sems[i];
    var (k, sem) := S.Give(s.k, log.sem, SemQ(i));
    var handed := Q(s.k, SemQ(i)) != [];
    var lost := !handed && log.sem.count >= log.sem.max;
    s.(k := k, sems := s.sems[i := log.(sem := sem, gives := log.gives + 1,
    granted := log.granted + (if handed then 1 else 0), dropped := log.dropped + if lost then 1 else 0)])
  }

  ghost function BeginStep(s: Sys, o: nat): Sys
    requires KernelInv(s.k) && PcInv(s) && o < |s.onces|
  {
    var log := s.onces[o];
    var (k, state) := O.Begin(s.k, log.state, OnceQ(o));
    if log.state == O.Unstarted
    then s.(k := k, onces := s.onces[o := OnceLog(state, Some(s.k.cur), log.starts + 1)])
    else s.(k := k, pcs := if log.state == O.InProgress then s.pcs[s.k.cur := InOnce(o)] else s.pcs)
  }

  ghost function FinishStep(s: Sys, o: nat): Sys
    requires KernelInv(s.k) && PcInv(s) && o < |s.onces|
  {
    s.(k := O.Finish(s.k, OnceQ(o)), onces := s.onces[o := OnceLog(O.Done, None, s.onces[o].starts)])
  }

  /** The log of a value that was accepted: handed to a waiting receiver, or buffered. */
  function Accepted(k: Kern, log: ChanLog, chan: H.Chan, rl: ListId, v: Value): ChanLog
    requires ListOk(k, rl)
  {
    var l := log.(chan := chan, sent := log.sent + [v], accepted := log.accepted + [v]);
    if Q(k, rl) == [] then l
    else l.(delivered := l.delivered + [v], inbox := l.inbox[BestWaiter(k, rl) := v])
  }

  ghost function SendStep(s: Sys, h: nat, v: Value): Sys
    requires KernelInv(s.k) && PcInv(s) && ChanInv(s) && h < |s.chans|
  {
    SendersOffer(s, h);
    var log := s.chans[h];
    var (k, chan) := H.Send(s.k, log.chan, SendQ(h), RecvQ(h), v);
    if H.Accept(s.k, log.chan, RecvQ(h), v).Some?
    then s.(k := k, chans := s.chans[h := Accepted(s.k, log, chan, RecvQ(h), v)])
    else s.(k := k, chans := s.chans[h := log.(sent := log.sent + [v])], pcs := s.pcs[s.k.cur := InSend(h, v)])
  }

  ghost function TrySendStep(s: Sys, h: nat, v: Value): Sys
    requires KernelInv(s.k) && PcInv(s) && ChanInv(s) && h < |s.chans|
  {
    SendersOffer(s, h);
    var log := s.chans[h];
    var (k, chan, ok) := H.TrySend(s.k, log.chan, RecvQ(h), v);
    s.(k := k, chans := s.chans[h :=
    if ok then Accepted(s.k, log, chan, RecvQ(h), v)
    else log.(sent := log.sent + [v], rejected := log.rejected + [v])])
  }

  /** The log of an item that was delivered from the ring, and of the one that refilled it. */
  function Delivered(k: Kern, log: ChanLog, chan: H.Chan, sl: ListId): ChanLog
    requires ListOk(k, sl) && log.chan.items != []
  {
    log.(chan := chan, delivered := log.delivered + [log.chan.items[0]],
    accepted := log.accepted + if Q(k, sl) == [] then [] else [Offer(k, BestWaiter(k, sl))])
  }

  ghost function RecvStep(s: Sys, h: nat): Sys
    requires KernelInv(s.k) && PcInv(s) && ChanInv(s) && h < |s.chans|
  {
    SendersOffer(s, h);
    var log := s.chans[h];
    var (k, chan, v) := H.Recv(s.k, log.chan, SendQ(h), RecvQ(h));
    if v.Some? then s.(k := k, chans := s.chans[h := Delivered(s.k, log, chan, SendQ(h))])
    else s.(k := k, pcs := s.pcs[s.k.cur := InRecv(h)])
  }

  ghost function TryRecvStep(s: Sys, h: nat): Sys
    requires KernelInv(s.k) && PcInv(s) && ChanInv(s) && h < |s.chans|
  {
    SendersOffer(s, h);
    var log := s.chans[h];
    var (k, chan, v) := H.TryRecv(s.k, log.chan, SendQ(h));
    if v.Some? then s.(k := k, chans := s.chans[h := Delivered(s.k, log, chan, SendQ(h))]) else s
  }

  ghost function SetStep(s: Sys, e: nat, mask: Flags): Sys
    requires KernelInv(s.k) && PcInv(s) && EventInv(s) && e < |s.events|
  {
    WatchersAsk(s, e);
    var r := E.Set(s.k, s.events[e], AnyQ(e), AllQ(e), mask);
    s.(k := Pend(r.k, r.preempt), events := s.events[e := r.bits])
  }

  ghost function WaitAnyStep(s: Sys, e: nat, mask: Flags): Sys
    requires KernelInv(s.k) && PcInv(s) && e < |s.events|
  {
    var (k, bits) := E.WaitAny(s.k, s.events[e], AnyQ(e), mask);
    s.(k := k, events := s.events[e := bits], pcs := s.pcs[s.k.cur := InAny(e, mask)])
  }

  ghost function WaitAllStep(s: Sys, e: nat, mask: Flags): Sys
    requires KernelInv(s.k) && PcInv(s) && e < |s.events|
  {
    var (k, bits) := E.WaitAll(s.k, s.events[e], AllQ(e), mask);
    s.(k := k, events := s.events[e := bits], pcs := s.pcs[s.k.cur := InAll(e, mask)])
  }

  ghost function AllocStep(s: Sys, p: nat, v: Value): Sys
    requires KernelInv(s.k) && PcInv(s) && PoolInv(s) && p < |s.pools|
  {
    assert OnePoolInv(s, p);
    var log := s.pools[p];
    var (pool, slot) := P.Alloc(log.pool, v);
    if slot.None? then s
    else s.(pools := s.pools[p := PoolLog(pool, log.holder[slot.value := Boxed(v)])])
  }

  ghost function AllocBlockingStep(s: Sys, p: nat, v: Value): Sys
    requires KernelInv(s.k) && PcInv(s) && PoolInv(s) && p < |s.pools|
  {
    assert OnePoolInv(s, p);
    var log := s.pools[p];
    var (k, pool) := P.AllocBlocking(s.k, log.pool, PoolQ(p), v);
    var s' := s.(k := k, pcs := s.pcs[s.k.cur := InPool(p, v)]);
    if log.pool.free == [] then s'
    else s'.(pools := s.pools[p := PoolLog(pool, log.holder[log.pool.free[0] := Granted(s.k.cur, v)])])
  }

  ghost function WriteStep(s: Sys, p: nat, slot: nat, v: Value): Sys
    requires KernelInv(s.k) && PcInv(s) && PoolInv(s) && BoxLive(s, p, slot)
  {
    assert OnePoolInv(s, p) && HolderInv(s, p, slot);
    var log := s.pools[p];
    s.(pools := s.pools[p := PoolLog(log.pool.(nodes := log.pool.nodes[slot := v]), log.holder[slot := Boxed(v)])])
  }

  ghost function DropStep(s: Sys, p: nat, slot: nat): Sys
    requires KernelInv(s.k) && PcInv(s) && PoolInv(s) && BoxLive(s, p, slot)
  {
    assert OnePoolInv(s, p) && HolderInv(s, p, slot);
    TenantsOffer(s, p);
    var log := s.pools[p];
    var (k, pool) := P.Drop(s.k, log.pool, PoolQ(p), slot);
    var holder := if Q(s.k, PoolQ(p)) == [] then log.holder - {slot}
                  else var t := BestWaiter(s.k, PoolQ(p)); log.holder[slot := Granted(t, s.k.tasks[t].ptr.val)];
    s.(k := k, pools := s.pools[p := PoolLog(pool, holder)])
  }

  function NewTimer(s: Sys, timer: T.Timer, step: u64): TimerLog {
    TimerLog(timer, s.uptime, step, [])
  }

  /** What happens between the end of the wait and the return of the call. */
  ghost function ReturnStep(s: Sys): Sys
    requires Inv(s) && Enabled(s, Return)
  {
    var cur := s.k.cur;
    assert Released(s, cur);
    assert LockerInv(s, cur) && PeerInv(s, cur) && TenantInv(s, cur) && SleeperInv(s, cur);
    var s' := s.(pcs := s.pcs[cur := Free]);
    match s.pcs[cur]
    case InLock(m) => s'.(guards := s.guards + {(cur, m)})
    case Relock(m) => LockStep(s, m)
    case InRecv(h) => s'.(chans := s.chans[h := s.chans[h].(inbox := s.chans[h].inbox - {cur})])
    case InPool(p, v) =>
      s'.(pools := s.pools[p := s.pools[p].(holder := s.pools[p].holder[s.k.tasks[cur].ptr.slot as nat := Boxed(v)])])
    case InTimer(i, _) =>
      s'.(timers := s.timers[i := s.timers[i].(timer := T.Advance(s.timers[i].timer),
      ended := s.timers[i].ended + [s.uptime])])
    case _ => s'
  }

  // `Step` is in parts: pools, timers, channels and event groups have their own.

  predicate OnPool(op: Op) {
    op.Alloc? || op.AllocBlocking? || op.Write? || op.DropBox?
  }

  predicate OnTimer(op: Op) {
    op.TimerAfter? || op.TimerEvery? || op.TimerWait?
  }

  predicate OnChannel(op: Op) {
    op.Send? || op.TrySend? || op.Recv? || op.TryRecv?
  }

  predicate OnGroup(op: Op) {
    op.SetFlags? || op.ClearFlags? || op.WaitAny? || op.WaitAll?
  }

  ghost function PoolStep(s: Sys, op: Op): Sys
    requires Inv(s) && Enabled(s, op) && OnPool(op)
  {
    match op
    case Alloc(p, v) => AllocStep(s, p, v)
    case AllocBlocking(p, v) => AllocBlockingStep(s, p, v)
    case Write(p, slot, v) => WriteStep(s, p, slot, v)
    case DropBox(p, slot) => DropStep(s, p, slot)
  }

  ghost function TimerStep(s: Sys, op: Op): Sys
    requires Inv(s) && Enabled(s, op) && OnTimer(op)
  {
    match op
    case TimerAfter(i, d) => s.(timers := s.timers[i := NewTimer(s, T.After(s.k.tick, d), d)])
    case TimerEvery(i, p) => s.(timers := s.timers[i := NewTimer(s, T.Every(s.k.tick, p), p)])
    case TimerWait(i) =>
      s.(k := SleepUntil(s.k, s.timers[i].timer.next), pcs := s.pcs[s.k.cur := InTimer(i, s.timers[i].timer.next)])
  }

  ghost function ChannelStep(s: Sys, op: Op): Sys
    requires Inv(s) && Enabled(s, op) && OnChannel(op)
  {
    match op
    case Send(h, v) => SendStep(s, h, v)
    case TrySend(h, v) => TrySendStep(s, h, v)
    case Recv(h) => RecvStep(s, h)
    case TryRecv(h) => TryRecvStep(s, h)
  }

  ghost function GroupStep(s: Sys, op: Op): Sys
    requires Inv(s) && Enabled(s, op) && OnGroup(op)
  {
    match op
    case SetFlags(e, mask) => SetStep(s, e, mask)
    case ClearFlags(e, mask) => s.(events := s.events[e := s.events[e] - mask])
    case WaitAny(e, mask) => WaitAnyStep(s, e, mask)
    case WaitAll(e, mask) => WaitAllStep(s, e, mask)
  }

  /** What a step does. */
  ghost function Step(s: Sys, op: Op): Sys
    requires Inv(s) && Enabled(s, op)
  {
    var cur := s.k.cur;
    match op
    case Tick => s.(k := SysTick(s.k), uptime := s.uptime + 1)
    case PendSv(sp) => s.(k := Switch(s.k, sp))
    case LateTrigger => s.(k := Pend(s.k, true))
    case Yield => s.(k := KernelModel.Yield(s.k))
    case Sleep(d) => s.(k := SleepUntil(s.k, d), pcs := s.pcs[cur := InSleep(d)])
    case Exit => s.(k := KernelModel.Exit(s.k))
    case Lock(m) => LockStep(s, m)
    case TryLock(m) => TryLockStep(s, m)
    case Unlock(m) => UnlockStep(s, m)
    case CondWait(c, m) => CondWaitStep(s, c, m)
    case NotifyOne(c) => NotifyOneStep(s, c)
    case NotifyAll(c) => NotifyAllStep(s, c)
    case Take(i) => TakeStep(s, i)
    case TryTake(i) => TryTakeStep(s, i)
    case Give(i) => GiveStep(s, i)
    case Begin(o) => BeginStep(s, o)
    case Finish(o) => FinishStep(s, o)
    case Return => ReturnStep(s)
    case Alloc(_, _) => PoolStep(s, op)
    case AllocBlocking(_, _) => PoolStep(s, op)
    case Write(_, _, _) => PoolStep(s, op)
    case DropBox(_, _) => PoolStep(s, op)
    case TimerAfter(_, _) => TimerStep(s, op)
    case TimerEvery(_, _) => TimerStep(s, op)
    case TimerWait(_) => TimerStep(s, op)
    case Send(_, _) => ChannelStep(s, op)
    case TrySend(_, _) => ChannelStep(s, op)
    case Recv(_) => ChannelStep(s, op)
    case TryRecv(_) => ChannelStep(s, op)
    case SetFlags(_, _) => GroupStep(s, op)
    case ClearFlags(_, _) => GroupStep(s, op)
    case WaitAny(_, _) => GroupStep(s, op)
    case WaitAll(_, _) => GroupStep(s, op)
  }
}
