/** What every kernel-level effect keeps, whichever primitive it serves. */
module KernelProofs {
  import opened Types
  import opened KernelModel

  // ------------------------------------------------------------------ invariants

  ghost predicate SliceOk(t: Task) {
    match t.state
    case Ready(r) => r <= t.slice
    case Running(r) => r <= t.slice
    case Popped => false
    case _ => true
  }

  function Idle(k: Kern): int {
    |k.tasks| - 1
  }

  /** The scheduler's own invariant: the wait lists are sound, only `CURRENT` may be Running and it
      is unless PendSV is due, no quantum exceeds its time slice, and the idle task is runnable. */
  ghost predicate KernelInv(k: Kern) {
    && Started(k) && WaitInv(k) && OneRunning(k)
    && (!k.pendsv ==> k.tasks[k.cur].state.Running?)
    && (forall t :: 0 <= t < |k.tasks| ==> SliceOk(k.tasks[t]))
    && Runnable(k.tasks[Idle(k)])
  }

  /** Unless PendSV is due, no Ready task outranks the current one. */
  ghost predicate NoMissedPreemption(k: Kern) {
    Started(k) && (!k.pendsv ==> forall t :: 0 <= t < |k.tasks| && k.tasks[t].state.Ready? ==> !Outranks(k, t))
  }

  /** A task that waits for nothing but the scheduler, the clock, or nothing at all. */
  predicate AtRest(p: Phase) {
    p.Ready? || p.Sleeping? || p.Dead?
  }

  /** What every step but `tick` and PendSV keeps: the invariant, the tasks and who is current; a
      switch once due stays due; if none is due the running task's quantum is as it was; and whoever
      is Ready, asleep or dead stays so. No stack pointer changes. */
  ghost predicate Steady(k: Kern, k': Kern) {
    && KernelInv(k) && KernelInv(k')
    && |k'.tasks| == |k.tasks| && k'.cur == k.cur && k'.tick == k.tick
    && (k.pendsv ==> k'.pendsv)
    && (!k'.pendsv ==> k'.tasks[k.cur].state == k.tasks[k.cur].state)
    && (forall t :: 0 <= t < |k.tasks| && AtRest(k.tasks[t].state) ==> k'.tasks[t].state == k.tasks[t].state)
    && forall t :: 0 <= t < |k.tasks| ==>
      && k'.tasks[t].base == k.tasks[t].base && k'.tasks[t].slice == k.tasks[t].slice
      && k'.tasks[t].sp == k.tasks[t].sp
  }

  ghost predicate SamePriorities(k: Kern, k': Kern) {
    && |k'.tasks| == |k.tasks|
    && forall t :: 0 <= t < |k.tasks| ==>
      k'.tasks[t].priority == k.tasks[t].priority && k'.tasks[t].base == k.tasks[t].base
  }

  /** A steady step that also leaves every priority alone and misses no preemption. */
  ghost predicate Calm(k: Kern, k': Kern) {
    && Steady(k, k')
    && SamePriorities(k, k')
    && (NoMissedPreemption(k) ==> NoMissedPreemption(k'))
  }

  lemma CalmChain(k: Kern, k1: Kern, k2: Kern)
    requires Calm(k, k1) && Calm(k1, k2)
    ensures Calm(k, k2)
  {
  }

  lemma SteadyChain(k: Kern, k1: Kern, k2: Kern)
    requires Steady(k, k1) && Steady(k1, k2)
    ensures Steady(k, k2)
  {
  }

  lemma CalmSelf(k: Kern)
    requires KernelInv(k)
    ensures Calm(k, k)
  {
  }

  // ------------------------------------------------------------------ single effects

  lemma TriggerIsCalm(k: Kern, b: bool)
    requires KernelInv(k)
    ensures Calm(k, Pend(k, b))
  {
    SameBlockedKeepsWaitInv(k, Pend(k, b));
  }

  lemma SetPtrIsCalm(k: Kern, t: nat, p: WaitPtr)
    requires KernelInv(k) && t < |k.tasks|
    ensures Calm(k, SetPtr(k, t, p))
  {
    SameBlockedKeepsWaitInv(k, SetPtr(k, t, p));
  }

  /** Blocking the running task, which is not the idle task. */
  lemma ParkIsCalm(k: Kern, l: ListId)
    requires KernelInv(k) && !k.pendsv && k.cur != Idle(k)
    ensures Calm(k, Park(k, l))
  {
    PushKeepsWaitInv(k, l, k.cur);
    SameBlockedKeepsWaitInv(Push(k, l, k.cur), Park(k, l));
  }

  lemma ParkWithIsCalm(k: Kern, l: ListId, p: WaitPtr)
    requires KernelInv(k) && !k.pendsv && k.cur != Idle(k)
    ensures Calm(k, Park(SetPtr(k, k.cur, p), l))
  {
    SetPtrIsCalm(k, k.cur, p);
    ParkIsCalm(SetPtr(k, k.cur, p), l);
    CalmChain(k, SetPtr(k, k.cur, p), Park(SetPtr(k, k.cur, p), l));
  }

  /** Waking one waiter in the middle of a critical section: `b` collects the requests for a
      context switch until its end. */
  lemma RouseIsCalm(k: Kern, b: bool, l: ListId, i: nat, p: WaitPtr)
    requires KernelInv(Pend(k, b)) && ListOk(k, l) && i < |Q(k, l)|
    ensures Calm(Pend(k, b), Pend(RouseWith(k, l, i, p), b || Outranks(k, Q(k, l)[i])))
  {
    var k' := RouseWith(k, l, i, p);
    SameBlockedKeepsWaitInv(Pend(k, b), k);
    RouseWithKeepsWaitInv(k, l, i, p);
    SameBlockedKeepsWaitInv(k', Pend(k', b || Outranks(k, Q(k, l)[i])));
  }

  /** Without a new `wait_ptr`. */
  lemma RouseAsRouseWith(k: Kern, l: ListId, i: nat)
    requires i < |Q(k, l)| && Q(k, l)[i] < |k.tasks|
    ensures Rouse(k, l, i) == RouseWith(k, l, i, k.tasks[Q(k, l)[i]].ptr)
  {
    SetPtrSame(PopAt(k, l, i), Q(k, l)[i]);
  }

  lemma WakeBestWithIsCalm(k: Kern, l: ListId, p: WaitPtr)
    requires KernelInv(k) && ListOk(k, l) && Q(k, l) != []
    ensures Calm(k, WakeBestWith(k, l, p))
  {
    assert Pend(k, false) == k;
    RouseIsCalm(k, false, l, Best(k, l), p);
  }

  lemma WakeBestIsCalm(k: Kern, l: ListId)
    requires KernelInv(k) && ListOk(k, l) && Q(k, l) != []
    ensures Calm(k, WakeBest(k, l))
  {
    RouseAsRouseWith(k, l, Best(k, l));
    WakeBestWithIsCalm(k, l, k.tasks[BestWaiter(k, l)].ptr);
  }

  lemma {:induction false} DrainIsCalm(k: Kern, b: bool, l: ListId)
    requires KernelInv(Pend(k, b)) && WaitInv(k)
    ensures Calm(Pend(k, b), Pend(Drain(k, l).0, b || Drain(k, l).1))
    decreases |Q(k, l)|
  {
    assert ListOk(k, l);
    DrainStep(k, l);
    if Q(k, l) == [] {
      CalmSelf(Pend(k, b));
    } else {
      var i := Best(k, l);
      var k1, b1 := Rouse(k, l, i), b || Outranks(k, BestWaiter(k, l));
      RouseAsRouseWith(k, l, i);
      RouseIsCalm(k, b, l, i, k.tasks[Q(k, l)[i]].ptr);
      DrainIsCalm(k1, b1, l);
      CalmChain(Pend(k, b), Pend(k1, b1), Pend(Drain(k, l).0, b || Drain(k, l).1));
    }
  }

  /** A task after everybody blocked on `l` was woken with a full quantum. */
  function Woken(t: Task, l: ListId): Task {
    if t.state == Blocked(l) then t.(state := Ready(t.slice)) else t
  }

  /** Every waiter of the list ends up Ready with a full quantum; no one else is touched. */
  ghost predicate Drained(k: Kern, r: Kern, l: ListId) {
    && r.cur == k.cur && r.tick == k.tick && |r.tasks| == |k.tasks|
    && Q(r, l) == [] && (forall l' :: l' != l ==> Q(r, l') == Q(k, l'))
    && forall t :: 0 <= t < |k.tasks| ==> r.tasks[t] == Woken(k.tasks[t], l)
  }

  lemma {:induction false} DrainDrains(k: Kern, l: ListId)
    requires Started(k) && WaitInv(k)
    ensures Drained(k, Drain(k, l).0, l)
    decreases |Q(k, l)|
  {
    assert ListOk(k, l);
    DrainStep(k, l);
    if Q(k, l) == [] {
      forall t | 0 <= t < |k.tasks|
        ensures k.tasks[t].state != Blocked(l)
      {
        assert OnItsList(k, t);
      }
    } else {
      DrainDrains(Rouse(k, l, Best(k, l)), l);
    }
  }

  lemma YieldIsCalm(k: Kern)
    requires KernelInv(k)
    ensures Calm(k, Yield(k))
  {
    SameBlockedKeepsWaitInv(k, Yield(k));
  }

  lemma SleepIsCalm(k: Kern, d: u64)
    requires KernelInv(k) && !k.pendsv && k.cur != Idle(k)
    ensures Calm(k, SleepUntil(k, d))
  {
    SameBlockedKeepsWaitInv(k, SleepUntil(k, d));
  }

  lemma ExitIsCalm(k: Kern)
    requires KernelInv(k) && !k.pendsv && k.cur != Idle(k)
    ensures Calm(k, Exit(k))
  {
    SameBlockedKeepsWaitInv(k, Exit(k));
  }

  // ------------------------------------------------------------------ the tick and the switch

  /** `tick` keeps the invariants and every priority, wakes exactly the sleepers that are due, and
      requests the switch that a preemption or an expired quantum calls for. */
  lemma TickKeeps(k: Kern)
    requires KernelInv(k)
    ensures KernelInv(SysTick(k)) && SamePriorities(k, SysTick(k))
    ensures NoMissedPreemption(k) ==> NoMissedPreemption(SysTick(k))
  {
    var k1 := k.(tick := WrappingAdd(k.tick, 1));
    var k' := SysTick(k);
    WakeFromWakes(k1, 0);
    SameBlockedKeepsWaitInv(k, k');
    if k.tasks[k.cur].state.Running? && !HigherReady(WakeSleepers(k1)) {
      var k2 := WakeSleepers(k1);
      forall t | 0 <= t < |k.tasks| && k'.tasks[t].state.Ready?
        ensures !Outranks(k', t)
      {
        assert !Outranker(k2, t);
      }
    }
  }

  /** PendSV changes the states of the old and the new current task only, between Ready and Running. */
  lemma SwitchMoves(k: Kern, sp: int, t: nat)
    requires KernelInv(k) && t < |k.tasks| && !Runnable(k.tasks[t])
    ensures |Switch(k, sp).tasks| == |k.tasks| && Switch(k, sp).tasks[t].state == k.tasks[t].state
  {
    NextIsFirstOfTopTier(Retire(k.(pendsv := false), sp));
  }

  /** After PendSV exactly one task runs, it is the current one, and nothing Ready outranks it. */
  lemma SwitchKeeps(k: Kern, sp: int)
    requires KernelInv(k)
    ensures var k1 := Retire(k.(pendsv := false), sp); Next(k1).Some?
    ensures KernelInv(Switch(k, sp)) && SamePriorities(k, Switch(k, sp))
    ensures NoMissedPreemption(Switch(k, sp)) && !Switch(k, sp).pendsv
  {
    var k1 := Retire(k.(pendsv := false), sp);
    NextIsFirstOfTopTier(k1);
    assert Runnable(k1.tasks[Idle(k)]);
    var k' := Switch(k, sp);
    SameBlockedKeepsWaitInv(k, k');
    assert forall t :: 0 <= t < |k.tasks| && Runnable(k1.tasks[t]) ==> NoLater(k1, k'.cur, t);
  }
}
