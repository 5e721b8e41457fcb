/** What priority inheritance guarantees. */
module PriorityTheorems {
  import opened Types
  import opened KernelModel
  import opened KernelProofs
  import opened SystemModel
  import opened Runs
  import opened Priorities
  import opened Nesting

  // ------------------------------------------------------------------ runs without harm

  /** A harmless run leads to a state where every priority is the minimum that it should be. */
  lemma InheritanceIsExact(tr: Trace, s: Sys)
    requires HarmlessReaches(tr, s)
    ensures Inherited(s) && NoInversion(s)
  {
    InheritanceHoldsIff(tr, s);
    ExactIffNoInversion(tr, s);
  }

  /** Unless a switch is due, the current task runs and nothing Ready outranks it. */
  lemma PreemptionIsNeverMissed(tr: Trace, s: Sys)
    requires CoveredReaches(tr, s) && !s.k.pendsv
    ensures Started(s.k) && s.k.tasks[s.k.cur].state.Running?
    ensures forall t :: 0 <= t < |s.k.tasks| && s.k.tasks[t].state.Ready? ==>
      s.k.tasks[s.k.cur].priority <= s.k.tasks[t].priority
  {
    Safety(tr, s);
    PreemptionHoldsIff(tr, s);
    forall t | 0 <= t < |s.k.tasks| && s.k.tasks[t].state.Ready?
      ensures s.k.tasks[s.k.cur].priority <= s.k.tasks[t].priority
    {
      assert !Outranks(s.k, t);
    }
  }

  lemma RunnerCoversWaiter(s: Sys, w: nat, m: nat, o: nat)
    requires KernelInv(s.k) && NoInversion(s) && NoMissedPreemption(s.k) && !s.k.pendsv
    requires w < |s.k.tasks| && s.k.tasks[w].state == Blocked(MutexQ(m))
    requires Owns(s, o, m) && o < |s.k.tasks| && Runnable(s.k.tasks[o])
    ensures s.k.tasks[s.k.cur].priority <= s.k.tasks[w].priority
  {
    assert s.k.tasks[o].state.Ready? ==> !Outranks(s.k, o);
    assert OnItsList(s.k, w);
    var j :| 0 <= j < |Waiters(s, m)| && Waiters(s, m)[j] == w;
    assert NotOutranked(s, m, Prio(s, o)) && Prio(s, o) <= Prio(s, Waiters(s, m)[j]);
  }

  /** No unbounded inversion: while a task waits for a mutex whose owner can run, what runs has at
      least the waiter's priority. */
  lemma NoUnboundedInversion(tr: Trace, s: Sys, w: nat, m: nat, o: nat)
    requires HarmlessReaches(tr, s) && CoveredReaches(tr, s) && !s.k.pendsv
    requires w < |s.k.tasks| && s.k.tasks[w].state == Blocked(MutexQ(m))
    requires Owns(s, o, m) && o < |s.k.tasks| && Runnable(s.k.tasks[o])
    ensures Started(s.k) && s.k.tasks[s.k.cur].priority <= s.k.tasks[w].priority
  {
    Safety(tr, s);
    InheritanceHoldsIff(tr, s);
    PreemptionHoldsIff(tr, s);
    RunnerCoversWaiter(s, w, m, o);
  }

  // ------------------------------------------------------------------ one mutex at a time

  /** At every step of the run a task that locks a mutex owns none. */
  ghost predicate DisciplinedRun(s: Sys, ops: seq<Op>)
    requires Inv(s) && Legal(s, ops)
    decreases |ops|
  {
    ops == [] || (Unroll(s, ops); DisciplinedRun(s, Front(ops)) && Disciplined(Run(s, Front(ops)), Last(ops)))
  }

  ghost predicate DisciplinedReaches(tr: Trace, s: Sys) {
    Reaches(tr, s) && (BootInv(tr.spawned, tr.boot); DisciplinedRun(tr.boot, tr.ops))
  }

  lemma {:induction false} DisciplinedKeeps(s: Sys, ops: seq<Op>)
    requires Inv(s) && Legal(s, ops) && DisciplinedRun(s, ops) && ExactInv(s) && NoMissedPreemption(s.k)
    ensures ExactInv(Run(s, ops)) && NoMissedPreemption(Run(s, ops).k)
    decreases |ops|
  {
    if ops == [] {
      RunEmpty(s);
    } else {
      Unroll(s, ops);
      DisciplinedKeeps(s, Front(ops));
      ExactKept(Run(s, Front(ops)), Last(ops));
      PreemptionKept(Run(s, Front(ops)), Last(ops));
    }
  }

  /** In every disciplined run inheritance is exact and no preemption is missed. */
  lemma DisciplinedSafety(tr: Trace, s: Sys)
    requires DisciplinedReaches(tr, s)
    ensures Inv(s) && ExactInv(s) && NoMissedPreemption(s.k)
  {
    Safety(tr, s);
    BootInv(tr.spawned, tr.boot);
    BootExact(tr.spawned, tr.boot);
    DisciplinedKeeps(tr.boot, tr.ops);
  }

  lemma ExactIsLowest(s: Sys, t: nat)
    requires ExactInv(s)
    ensures forall m :: Owns(s, t, m) ==> Prio(s, t) == Lowest(s, Waiters(s, m), Base(s, t))
    ensures OwnsNone(s, t) ==> Prio(s, t) == Base(s, t)
  {
    assert BaseOk(s, t);
    forall m | Owns(s, t, m)
      ensures Prio(s, t) == Lowest(s, Waiters(s, m), Base(s, t))
    {
      assert Exact(s, t, m);
      LowestIsMinimum(s, Waiters(s, m), Base(s, t));
    }
  }

  /** One mutex at a time: the owner runs at the minimum of its base and of its waiters' priorities, a
      task that owns nothing at its base. */
  lemma OwnerIsAtLowest(tr: Trace, s: Sys, t: nat)
    requires DisciplinedReaches(tr, s)
    ensures forall m :: Owns(s, t, m) ==> Prio(s, t) == Lowest(s, Waiters(s, m), Base(s, t))
    ensures OwnsNone(s, t) ==> Prio(s, t) == Base(s, t)
  {
    DisciplinedSafety(tr, s);
    ExactIsLowest(s, t);
  }

  lemma ExactIsNoInversion(s: Sys)
    requires ExactInv(s)
    ensures NoInversion(s)
  {
    forall o, m | Owns(s, o, m)
      ensures NotOutranked(s, m, Prio(s, o))
    {
      assert Exact(s, o, m);
    }
  }

  /** With exact inheritance a disciplined step causes no inversion and misses no preemption. */
  lemma DisciplinedStepIsHarmless(s: Sys, op: Op)
    requires Inv(s) && Enabled(s, op) && Disciplined(s, op) && ExactInv(s) && NoMissedPreemption(s.k)
    ensures Harmless(s, op) && Covered(s, op)
  {
    ExactIsNoInversion(s);
    ExactKept(s, op);
    ExactIsNoInversion(Step(s, op));
    InheritanceKeptIff(s, op);
    PreemptionKept(s, op);
    PreemptionKeptIff(s, op);
  }

  lemma {:induction false} DisciplinedSteps(s: Sys, ops: seq<Op>)
    requires Inv(s) && Legal(s, ops) && DisciplinedRun(s, ops) && ExactInv(s) && NoMissedPreemption(s.k)
    ensures HarmlessRun(s, ops) && CoveredRun(s, ops)
    decreases |ops|
  {
    if ops != [] {
      Unroll(s, ops);
      DisciplinedSteps(s, Front(ops));
      DisciplinedKeeps(s, Front(ops));
      DisciplinedStepIsHarmless(Run(s, Front(ops)), Last(ops));
    }
  }

  /** Locking one mutex at a time is enough. */
  lemma DisciplinedIsHarmless(tr: Trace, s: Sys)
    requires DisciplinedReaches(tr, s)
    ensures HarmlessReaches(tr, s) && CoveredReaches(tr, s)
  {
    BootInv(tr.spawned, tr.boot);
    BootExact(tr.spawned, tr.boot);
    DisciplinedSteps(tr.boot, tr.ops);
  }

  // ------------------------------------------------------------------ arbitrary nesting

  /** However mutexes are nested, a boost is never a demotion, and it never leaks: a task that owns
      no mutex is back at its base priority. */
  lemma NoLeakedBoost(tr: Trace, s: Sys, t: nat)
    requires Reaches(tr, s) && t < |s.k.tasks|
    ensures s.k.tasks[t].priority <= s.k.tasks[t].base
    ensures OwnsNone(s, t) ==> s.k.tasks[t].priority == s.k.tasks[t].base
  {
    BootInv(tr.spawned, tr.boot);
    BootExact(tr.spawned, tr.boot);
    BaseKeeps(tr.boot, tr.ops);
    assert BaseOk(s, t);
  }
}
