/** What the kernel guarantees in every reachable state and at every step of every run. */
module Guarantees {
  import opened Types
  import opened Seqs
  import opened KernelModel
  import opened KernelProofs
  import opened SystemModel
  import opened Runs
  import O = OnceModel
  import H = ChannelModel
  import E = EventModel
  import P = PoolModel

  // ------------------------------------------------------------------ scheduler

  /** Only the current task is ever Running; it is unless a switch is due; and the idle task can
      always run. */
  lemma OneRunningTask(tr: Trace, s: Sys)
    requires Reaches(tr, s)
    ensures Started(s.k) && forall t :: 0 <= t < |s.k.tasks| && s.k.tasks[t].state.Running? ==> t == s.k.cur
    ensures !s.k.pendsv ==> s.k.tasks[s.k.cur].state.Running?
    ensures Runnable(s.k.tasks[Idle(s.k)])
  {
    Safety(tr, s);
  }

  /** The switch from `k` finds its task, which is Ready, and afterwards exactly that task is Running. */
  ghost predicate SwitchFinds(k: Kern, sp: int) {
    && Started(k) && OneRunning(k)
    && var k1 := Retire(k.(pendsv := false), sp);
    && var k' := Switch(k, sp);
    && Next(k1).Some? && IsNext(k1, Next(k1).value) && k1.tasks[Next(k1).value].state.Ready?
    && k'.cur == Next(k1).value
    && forall t :: 0 <= t < |k'.tasks| ==> (k'.tasks[t].state.Running? <==> t == k'.cur)
  }

  lemma KernelSwitches(k: Kern, sp: int)
    requires KernelInv(k)
    ensures SwitchFinds(k, sp)
  {
    SwitchKeeps(k, sp);
    NextIsFirstOfTopTier(Retire(k.(pendsv := false), sp));
  }

  /** A switch never finds nothing to run and never a task in the wrong state. */
  lemma SwitchSucceeds(tr: Trace, s: Sys, sp: int)
    requires Reaches(tr, s) && s.k.pendsv
    ensures SwitchFinds(s.k, sp)
  {
    Safety(tr, s);
    KernelSwitches(s.k, sp);
  }

  predicate BlockedOn(k: Kern, l: ListId, t: nat) {
    t < |k.tasks| && k.tasks[t].state == Blocked(l)
  }

  lemma ListsHoldTheBlocked(k: Kern)
    requires WaitInv(k)
    ensures forall l :: NoDup(Q(k, l))
    ensures forall l, t: nat :: t in Q(k, l) <==> BlockedOn(k, l, t)
  {
    forall l
      ensures NoDup(Q(k, l)) && forall t: nat :: t in Q(k, l) ==> BlockedOn(k, l, t)
    {
      assert ListOk(k, l);
    }
    forall l, t: nat | BlockedOn(k, l, t)
      ensures t in Q(k, l)
    {
      assert OnItsList(k, t);
    }
  }

  /** The wait lists have no repetition, are pairwise disjoint, and together hold exactly the
      Blocked tasks, each on the list it is blocked on. */
  lemma WaitListsAreSound(tr: Trace, s: Sys)
    requires Reaches(tr, s)
    ensures forall l :: NoDup(Q(s.k, l))
    ensures forall l, t: nat :: t in Q(s.k, l) <==> BlockedOn(s.k, l, t)
    ensures forall l, l', t: nat :: l != l' && t in Q(s.k, l) ==> t !in Q(s.k, l')
  {
    Safety(tr, s);
    ListsHoldTheBlocked(s.k);
  }

  /** What is parked in `wait_ptr` is always what the code that reads it takes it for: a sender's or
      an allocating task's value, or an event mask. */
  lemma ParkedPointersFit(tr: Trace, s: Sys, i: nat)
    requires Reaches(tr, s)
    ensures ListOk(s.k, SendQ(i)) && H.SendersParked(s.k, SendQ(i))
    ensures ListOk(s.k, PoolQ(i)) && P.WaitersParked(s.k, PoolQ(i))
    ensures E.GroupOk(s.k, AnyQ(i), AllQ(i))
  {
    Safety(tr, s);
    SendersOffer(s, i);
    TenantsOffer(s, i);
    WatchersAsk(s, i);
  }

  // ------------------------------------------------------------------ mutexes and condition variables

  /** At most one guard of a mutex is live, and its task is the owner. */
  lemma MutualExclusion(tr: Trace, s: Sys, t: nat, u: nat, m: nat)
    requires Reaches(tr, s) && (t, m) in s.guards
    ensures m < |s.mutexes| && s.mutexes[m] == Some(t)
    ensures (u, m) in s.guards ==> u == t
  {
    Safety(tr, s);
    assert GuardInv(s, t, m) && GuardInv(s, u, m);
  }

  /** And the owner has a live guard, unless it was let out of `lock` and has not returned yet. */
  lemma OwnersAreGuarded(tr: Trace, s: Sys, t: nat, m: nat)
    requires Reaches(tr, s) && m < |s.mutexes| && s.mutexes[m] == Some(t)
    ensures t < |s.pcs| == |s.k.tasks|
    ensures (t, m) in s.guards <==> !(s.pcs[t] == InLock(m) && Runnable(s.k.tasks[t]))
  {
    Safety(tr, s);
    assert OwnerInv(s, m) && GuardInv(s, t, m);
  }

  /** Nobody can take a mutex past its waiters, and whoever is let out of `lock` already owns it. */
  lemma NoBarging(tr: Trace, s: Sys, t: nat, m: nat)
    requires Reaches(tr, s) && t < |s.k.tasks| && |s.pcs| == |s.k.tasks| && m < |s.mutexes|
    ensures s.k.tasks[t].state == Blocked(MutexQ(m)) ==> s.mutexes[m].Some?
    ensures s.pcs[t] == InLock(m) && Runnable(s.k.tasks[t]) ==> s.mutexes[m] == Some(t)
  {
    Safety(tr, s);
    assert OwnerInv(s, m) && LockerInv(s, t) && OnItsList(s.k, t);
  }

  /** A task inside `wait` that was not notified is on the condition variable's list, so a notify
      reaches it. */
  lemma WaitersAreNotified(tr: Trace, s: Sys, t: nat, c: nat, m: nat)
    requires Reaches(tr, s) && t < |s.pcs| && s.pcs[t] == InCond(c, m)
    ensures t < |s.k.tasks| && t in Q(s.k, CondQ(c)) && c < s.conds
    ensures Enabled(s, NotifyAll(c)) && Inv(s) && Step(s, NotifyAll(c)).pcs[t] == Relock(m)
  {
    Safety(tr, s);
    assert PcFits(s.pcs[t], s.k.tasks[t].state) && LockerInv(s, t) && OnItsList(s.k, t);
  }

  /** `wait` blocks its caller and gives the mutex up in one step. */
  lemma WaitIsAtomic(tr: Trace, s: Sys, c: nat, m: nat)
    requires Reaches(tr, s) && Inv(s) && Enabled(s, CondWait(c, m))
    ensures var s', t := Step(s, CondWait(c, m)), s.k.cur;
      && s'.pcs[t] == InCond(c, m) && t in Q(s'.k, CondQ(c))
      && m < |s'.mutexes| && s'.mutexes[m] != Some(t) && (t, m) !in s'.guards
  {
    var s', t := Step(s, CondWait(c, m)), s.k.cur;
    StepKeeps(s, CondWait(c, m));
    assert GuardInv(s, t, m) && GuardInv(s', t, m);
    assert PcFits(s'.pcs[t], s'.k.tasks[t].state) && OnItsList(s'.k, t);
  }

  /** `lock`, and `wait` with its second `lock`, return only to the owner. */
  lemma LockReturnsOwner(tr: Trace, s: Sys, m: nat)
    requires Reaches(tr, s) && Inv(s) && Enabled(s, Return)
    requires s.pcs[s.k.cur] == InLock(m) || s.pcs[s.k.cur] == Relock(m)
    ensures var s', t := Step(s, Return), s.k.cur;
      s'.pcs[t] == Free ==> m < |s'.mutexes| && s'.mutexes[m] == Some(t) && (t, m) in s'.guards
  {
    var s', t := Step(s, Return), s.k.cur;
    StepKeeps(s, Return);
    assert LockerInv(s, t);
    if s'.pcs[t] == Free {
      assert (t, m) in s'.guards;
      assert GuardInv(s', t, m);
    }
  }

  // ------------------------------------------------------------------ semaphores and once cells

  /** Tokens are conserved, never exceed the maximum, and nobody waits while one is left. */
  lemma TokensAreConserved(tr: Trace, s: Sys, i: nat)
    requires Reaches(tr, s) && i < |s.sems|
    ensures var log := s.sems[i];
      && log.initial + log.gives == log.sem.count + log.granted + log.dropped && log.sem.count <= log.sem.max
      && forall t :: 0 <= t < |s.k.tasks| && s.k.tasks[t].state == Blocked(SemQ(i)) ==> log.sem.count == 0
  {
    Safety(tr, s);
    assert OneSemInv(s, i);
    forall t | 0 <= t < |s.k.tasks| && s.k.tasks[t].state == Blocked(SemQ(i))
      ensures s.sems[i].sem.count == 0
    {
      assert OnItsList(s.k, t);
    }
  }

  function Stage(state: O.OnceState): nat {
    match state
    case Unstarted => 0
    case InProgress => 1
    case Done => 2
  }

  /** The closure is started at most once, and tasks wait only while it runs. */
  lemma ClosureStartsOnce(tr: Trace, s: Sys, o: nat)
    requires Reaches(tr, s) && o < |s.onces|
    ensures s.onces[o].starts <= 1 && (s.onces[o].starts == 0 <==> s.onces[o].state == O.Unstarted)
    ensures forall t :: 0 <= t < |s.k.tasks| && s.k.tasks[t].state == Blocked(OnceQ(o)) ==>
      s.onces[o].state == O.InProgress
  {
    Safety(tr, s);
    assert OneOnceInv(s, o);
    forall t | 0 <= t < |s.k.tasks| && s.k.tasks[t].state == Blocked(OnceQ(o))
      ensures s.onces[o].state == O.InProgress
    {
      assert OnItsList(s.k, t);
    }
  }

  lemma PoolLeavesOnces(s: Sys, op: Op)
    requires Inv(s) && Enabled(s, op) && (OnPool(op) || OnTimer(op))
    ensures Step(s, op).onces == s.onces
  {
  }

  lemma DataLeavesOnces(s: Sys, op: Op)
    requires Inv(s) && Enabled(s, op) && (OnChannel(op) || OnGroup(op))
    ensures Step(s, op).onces == s.onces
  {
  }

  lemma OthersLeaveOnces(s: Sys, op: Op)
    requires Inv(s) && Enabled(s, op) && !op.Begin? && !op.Finish?
    ensures Step(s, op).onces == s.onces
  {
    if OnPool(op) || OnTimer(op) {
      PoolLeavesOnces(s, op);
    } else if OnChannel(op) || OnGroup(op) {
      DataLeavesOnces(s, op);
    }
  }

  /** A once cell is changed by its own calls only, and never goes back. */
  lemma OnceMovesForward(s: Sys, op: Op, o: nat)
    requires Inv(s) && Enabled(s, op) && o < |s.onces|
    ensures var s' := Step(s, op);
      && |s'.onces| == |s.onces| && Stage(s.onces[o].state) <= Stage(s'.onces[o].state)
      && (s'.onces[o] != s.onces[o] ==> op == Begin(o) || op == Finish(o))
      && s'.onces[o].starts <= s.onces[o].starts + (if op == Begin(o) && s.onces[o].state == O.Unstarted then 1 else 0)
  {
    if op.Begin? || op.Finish? {
      assert OneOnceInv(s, o);
    } else {
      OthersLeaveOnces(s, op);
    }
  }

  lemma {:induction false} OnceNeverReverts(s: Sys, ops: seq<Op>, o: nat)
    requires Inv(s) && Legal(s, ops) && o < |s.onces|
    ensures |Run(s, ops).onces| == |s.onces| && Stage(s.onces[o].state) <= Stage(Run(s, ops).onces[o].state)
    decreases |ops|
  {
    if ops == [] {
      RunEmpty(s);
    } else {
      Unroll(s, ops);
      OnceNeverReverts(s, Front(ops), o);
      OnceMovesForward(Run(s, Front(ops)), Last(ops), o);
    }
  }

  /** A caller that had to wait returns only once the initialisation is complete. */
  lemma CallOnceReturnsDone(tr: Trace, s: Sys, o: nat)
    requires Reaches(tr, s) && Enabled(s, Return) && s.pcs[s.k.cur] == InOnce(o)
    ensures o < |s.onces| && s.onces[o].state == O.Done
  {
    Safety(tr, s);
    assert CallerInv(s, s.k.cur);
  }

  /** And so does one that did not: after either critical section the caller is parked, or about to
      run the closure, or the cell is Done. */
  lemma CallOnceEndsDone(tr: Trace, s: Sys, op: Op, o: nat)
    requires Reaches(tr, s) && Inv(s) && Enabled(s, op) && (op == Begin(o) || op == Finish(o))
    ensures var s' := Step(s, op);
      && o < |s'.onces| && s.k.cur < |s'.pcs|
      && (s'.pcs[s.k.cur] == InOnce(o) || s'.onces[o].runner == Some(s.k.cur) || s'.onces[o].state == O.Done)
      && (s'.onces[o].runner == Some(s.k.cur) && s'.pcs[s.k.cur] == Free ==> s.onces[o].state == O.Unstarted)
  {
    assert OneOnceInv(s, o);
  }

  // ------------------------------------------------------------------ channels

  /** What was accepted is what was delivered followed by the ring, in order; every value sent is in
      exactly one of delivered, ring, offered by its parked sender, or rejected. */
  lemma ValuesAreConserved(tr: Trace, s: Sys, h: nat)
    requires Reaches(tr, s) && h < |s.chans|
    ensures var log := s.chans[h];
      && log.accepted == log.delivered + log.chan.items && |log.chan.items| <= log.chan.cap
      && multiset(log.sent) == multiset(log.delivered) + multiset(log.chan.items)
                               + multiset(Offers(s.k, Q(s.k, SendQ(h)))) + multiset(log.rejected)
  {
    Safety(tr, s);
    assert OneChanInv(s, h);
  }

  /** With room for at least one item nobody is stranded: senders are parked only when the ring is
      full and receivers only when it is empty, hence never both. */
  lemma NobodyIsStranded(tr: Trace, s: Sys, h: nat)
    requires Reaches(tr, s) && h < |s.chans|
    ensures var log := s.chans[h];
      && (Q(s.k, SendQ(h)) != [] ==> |log.chan.items| == log.chan.cap)
      && (Q(s.k, RecvQ(h)) != [] ==> log.chan.items == [])
      && (log.chan.cap >= 1 ==> Q(s.k, SendQ(h)) == [] || Q(s.k, RecvQ(h)) == [])
  {
    Safety(tr, s);
    assert OneChanInv(s, h);
  }

  /** A receiver let out of `recv` finds in its slot the value that was handed to it. */
  lemma ReceiverGetsItsValue(tr: Trace, s: Sys, h: nat)
    requires Reaches(tr, s) && Enabled(s, Return) && s.pcs[s.k.cur] == InRecv(h)
    ensures h < |s.chans| && s.k.cur in s.chans[h].inbox && s.k.tasks[s.k.cur].ptr == Filled(s.chans[h].inbox[s.k.cur])
  {
    Safety(tr, s);
    assert PeerInv(s, s.k.cur) && PcFits(s.pcs[s.k.cur], s.k.tasks[s.k.cur].state);
  }

  // ------------------------------------------------------------------ event groups

  /** Nobody stays parked whose condition holds. */
  lemma NobodyIsMissed(tr: Trace, s: Sys, t: nat, e: nat, mask: Flags)
    requires Reaches(tr, s) && t < |s.pcs| && |s.pcs| == |s.k.tasks|
    ensures s.pcs[t] == InAny(e, mask) && s.k.tasks[t].state == Blocked(AnyQ(e)) ==>
      e < |s.events| && s.events[e] * mask == {}
    ensures s.pcs[t] == InAll(e, mask) && s.k.tasks[t].state == Blocked(AllQ(e)) ==>
      e < |s.events| && !(mask <= s.events[e])
  {
    Safety(tr, s);
    assert WatcherInv(s, t);
  }

  /** `wait_any` returns a non-empty part of what was asked for. */
  lemma WaitAnyReturnsPart(tr: Trace, s: Sys, e: nat, mask: Flags)
    requires Reaches(tr, s) && Enabled(s, Return) && s.pcs[s.k.cur] == InAny(e, mask)
    ensures s.k.tasks[s.k.cur].ptr.Mask? && {} < s.k.tasks[s.k.cur].ptr.flags <= mask
  {
    Safety(tr, s);
    assert WatcherInv(s, s.k.cur) && PcFits(s.pcs[s.k.cur], s.k.tasks[s.k.cur].state);
  }

  // ------------------------------------------------------------------ pools

  function Members(q: seq<nat>): set<nat> {
    set x | x in q
  }

  function Slots(n: nat): set<nat> {
    if n == 0 then {} else Slots(n - 1) + {n - 1}
  }

  lemma {:induction false} SlotsAre(n: nat)
    ensures |Slots(n)| == n && forall x: nat :: x in Slots(n) <==> x < n
  {
    if n > 0 {
      SlotsAre(n - 1);
    }
  }

  /** The free list and the held slots partition the pool, a held slot contains its holder's value,
      and tasks wait only when no slot is free. */
  lemma SlotsArePartitioned(tr: Trace, s: Sys, p: nat)
    requires Reaches(tr, s) && p < |s.pools|
    ensures var log := s.pools[p]; var free := Members(log.pool.free);
      && NoDup(log.pool.free) && free + log.holder.Keys == Slots(log.pool.cap) && free * log.holder.Keys == {}
      && |log.pool.nodes| == log.pool.cap
      && (forall x :: x in log.holder ==> x < log.pool.cap && log.pool.nodes[x] == log.holder[x].v)
      && forall t :: 0 <= t < |s.k.tasks| && s.k.tasks[t].state == Blocked(PoolQ(p)) ==> log.pool.free == []
  {
    Safety(tr, s);
    assert OnePoolInv(s, p);
    SlotsAre(s.pools[p].pool.cap);
    forall x | x in s.pools[p].holder
      ensures x < s.pools[p].pool.cap && s.pools[p].pool.nodes[x] == s.pools[p].holder[x].v
    {
      assert HolderInv(s, p, x);
    }
    forall t | 0 <= t < |s.k.tasks| && s.k.tasks[t].state == Blocked(PoolQ(p))
      ensures s.pools[p].pool.free == []
    {
      assert OnItsList(s.k, t);
    }
  }

  lemma {:induction false} DistinctCount(q: seq<nat>)
    requires NoDup(q)
    ensures |Members(q)| == |q|
  {
    if q == [] {
      assert Members(q) == {};
    } else {
      var rest := q[..|q| - 1];
      DistinctCount(rest);
      assert q == rest + [q[|q| - 1]];
      assert Members(q) == Members(rest) + {q[|q| - 1]};
    }
  }

  /** The slots free and the slots held add up to the capacity, which `available` relies on. */
  lemma AvailableIsRest(tr: Trace, s: Sys, p: nat)
    requires Reaches(tr, s) && p < |s.pools|
    ensures |s.pools[p].pool.free| == s.pools[p].pool.cap - |s.pools[p].holder.Keys|
  {
    SlotsArePartitioned(tr, s, p);
    PartitionCount(s.pools[p].pool.free, s.pools[p].holder.Keys, s.pools[p].pool.cap);
  }

  lemma PartitionCount(free: seq<nat>, held: set<nat>, n: nat)
    requires NoDup(free) && Members(free) + held == Slots(n) && Members(free) * held == {}
    ensures |free| + |held| == n
  {
    DistinctCount(free);
    SlotsAre(n);
    assert |Members(free) + held| == |Members(free)| + |held|;
  }

  /** A task let out of `alloc_blocking` has a slot of its own, with the value it asked to store. */
  lemma TenantsHaveTheirOwn(tr: Trace, s: Sys, t: nat, u: nat, p: nat, v: Value, w: Value)
    requires Reaches(tr, s) && t < |s.pcs| && u < |s.pcs| && |s.pcs| == |s.k.tasks|
    requires s.pcs[t] == InPool(p, v) && Runnable(s.k.tasks[t])
    ensures p < |s.pools| && s.k.tasks[t].ptr.Index?
    ensures var x := s.k.tasks[t].ptr.slot as nat;
      && x in s.pools[p].holder && s.pools[p].holder[x] == Granted(t, v)
      && x < |s.pools[p].pool.nodes| && s.pools[p].pool.nodes[x] == v
      && (u != t && s.pcs[u] == InPool(p, w) && Runnable(s.k.tasks[u]) ==> s.k.tasks[u].ptr != Index(x))
  {
    Safety(tr, s);
    assert TenantInv(s, t) && TenantInv(s, u);
    assert OnePoolInv(s, p) && HolderInv(s, p, s.k.tasks[t].ptr.slot as nat);
  }

  // ------------------------------------------------------------------ time

  /** What a tick does to a sleeping task, and that it wakes nobody else. */
  lemma TickWakesTheDue(k: Kern, t: nat)
    requires KernelInv(k) && t < |k.tasks|
    ensures var k' := SysTick(k);
      && |k'.tasks| == |k.tasks|
      && (k.tasks[t].state.Sleeping? && k'.tasks[t].state != k.tasks[t].state ==>
            k'.tasks[t].state == Ready(k.tasks[t].slice) && k'.tick >= k.tasks[t].state.deadline)
      && (k.tasks[k.cur].state.Running? && k'.tasks[t].state.Sleeping? ==> k'.tick < k'.tasks[t].state.deadline)
      && (k.tasks[t].state.Dead? ==> k'.tasks[t].state.Dead?)
  {
    WakeFromWakes(k.(tick := WrappingAdd(k.tick, 1)), 0);
  }

  /** The other steps leave a sleeping or dead task alone. */
  lemma QuietAtRest(s: Sys, op: Op, t: nat)
    requires Inv(s) && Enabled(s, op) && !op.Tick? && !op.PendSv? && t < |s.k.tasks| && AtRest(s.k.tasks[t].state)
    ensures t < |Step(s, op).k.tasks| && Step(s, op).k.tasks[t].state == s.k.tasks[t].state
  {
    StepKeeps(s, op);
  }

  /** Only a tick wakes a sleeper, and only at or after its deadline. */
  lemma SleepIsNeverEarly(tr: Trace, s: Sys, op: Op, t: nat)
    requires Reaches(tr, s) && Inv(s) && Enabled(s, op) && t < |s.k.tasks| && s.k.tasks[t].state.Sleeping?
    ensures var k' := Step(s, op).k;
      && t < |k'.tasks|
      && (k'.tasks[t].state != s.k.tasks[t].state ==>
            op.Tick? && k'.tasks[t].state == Ready(s.k.tasks[t].slice) && k'.tick >= s.k.tasks[t].state.deadline)
  {
    if op.Tick? {
      TickWakesTheDue(s.k, t);
    } else if op.PendSv? {
      SwitchMoves(s.k, op.sp, t);
    } else {
      QuietAtRest(s, op, t);
    }
  }

  /** A task that exited never runs again, nor waits for anything. */
  lemma DeadStaysDead(tr: Trace, s: Sys, op: Op, t: nat)
    requires Reaches(tr, s) && Inv(s) && Enabled(s, op) && t < |s.k.tasks| && s.k.tasks[t].state.Dead?
    ensures t < |Step(s, op).k.tasks| && Step(s, op).k.tasks[t].state.Dead?
  {
    if op.Tick? {
      TickWakesTheDue(s.k, t);
    } else if op.PendSv? {
      SwitchMoves(s.k, op.sp, t);
    } else {
      QuietAtRest(s, op, t);
    }
  }

  /** After a tick that found the current task Running nobody sleeps past its deadline. */
  lemma SleepIsNeverForgotten(tr: Trace, s: Sys, t: nat)
    requires Reaches(tr, s) && Inv(s) && s.k.tasks[s.k.cur].state.Running? && t < |s.k.tasks|
    ensures var k' := Step(s, Op.Tick).k;
      t < |k'.tasks| && (k'.tasks[t].state.Sleeping? ==> k'.tick < k'.tasks[t].state.deadline)
  {
    TickWakesTheDue(s.k, t);
  }

  /** A `sleep` that returns has reached its deadline, as long as the tick counter has not wrapped. */
  lemma SleepReturnsOnTime(tr: Trace, s: Sys, d: u64)
    requires Reaches(tr, s) && Enabled(s, Return) && s.pcs[s.k.cur] == InSleep(d) && s.uptime < TWO_64
    ensures d <= s.uptime
  {
    Safety(tr, s);
    assert SleeperInv(s, s.k.cur) && PcFits(s.pcs[s.k.cur], s.k.tasks[s.k.cur].state);
  }

  /** As long as the tick counter has not wrapped, the `n`-th completed wait of a timer returned no
      earlier than its deadline, and the timer is set to the deadline of the next one. A periodic
      timer's deadlines are its start plus whole periods. */
  lemma TimerKeepsPace(tr: Trace, s: Sys, i: nat, n: nat)
    requires Reaches(tr, s) && i < |s.timers| && n < |s.timers[i].ended| && s.uptime < TWO_64
    requires Deadline(s.timers[i], |s.timers[i].ended|) < TWO_64
    ensures Deadline(s.timers[i], n) <= s.timers[i].ended[n] <= s.uptime
    ensures s.timers[i].timer.next == Deadline(s.timers[i], |s.timers[i].ended|)
    ensures s.timers[i].timer.period.Some? ==>
              var log := s.timers[i];
              && log.timer.period.value == log.step
              && log.start + (n + 1) * log.step <= log.ended[n]
              && log.timer.next == log.start + (|log.ended| + 1) * log.step
  {
    Safety(tr, s);
    assert OneTimerInv(s, i) && OnTime(s.timers[i], n, s.uptime);
    DeadlinesRise(s.timers[i], n, |s.timers[i].ended|);
    NoWrap(Deadline(s.timers[i], |s.timers[i].ended|));
  }

  lemma DeadlinesRise(log: TimerLog, n: nat, m: nat)
    requires n <= m
    ensures Deadline(log, n) <= Deadline(log, m)
  {
    MorePeriods(n + 1, m + 1, log.step);
  }

  lemma MorePeriods(n: nat, m: nat, step: nat)
    requires n <= m
    ensures n * step <= m * step
  {
  }

  lemma NoWrap(d: nat)
    requires d < TWO_64
    ensures d % TWO_64 == d
  {
  }
}
