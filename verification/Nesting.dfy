/** Priority inheritance with mutexes nested in any way: what always holds, and exactly which runs
    keep the rest. */
module Nesting {
  import opened Types
  import opened KernelModel
  import opened KernelProofs
  import opened SystemModel
  import opened Runs
  import opened Priorities

  // ------------------------------------------------------------------ one step

  /** No owner is outranked by a task that waits for it. */
  ghost predicate NoInversion(s: Sys) {
    forall o, m :: Owns(s, o, m) ==> NotOutranked(s, m, Prio(s, o))
  }

  ghost predicate NotOutranked(s: Sys, m: nat, p: int) {
    forall j :: 0 <= j < |Waiters(s, m)| ==> p <= Prio(s, Waiters(s, m)[j])
  }

  /** On no mutex other than `m` that the current task owns does anybody above its base wait. */
  ghost predicate OthersBelowBase(s: Sys, m: nat)
    requires Started(s.k)
  {
    forall j :: j != m && Owns(s, s.k.cur, j) ==> NotOutranked(s, j, Base(s, s.k.cur))
  }

  /** `unlock_internal` resets the priority to the base, whatever else the task owns. */
  lemma UnlockInversion(s: Sys, s': Sys, m: nat)
    requires NoInversion(s) && GaveUp(s, s', m) && QueuesApart(s)
    ensures NoInversion(s') <==> OthersBelowBase(s, m)
  {
    var c := s.k.cur;
    if OthersBelowBase(s, m) {
      forall o, j | Owns(s', o, j)
        ensures NotOutranked(s', j, Prio(s', o))
      {
        StillNotOutranked(s, s', m, o, j);
      }
    }
    if NoInversion(s') {
      forall j | j != m && Owns(s, c, j)
        ensures NotOutranked(s, j, Base(s, c))
      {
        assert Owns(s', c, j) && NotOutranked(s', j, Prio(s', c)) && Waiters(s', j) == Waiters(s, j);
        assert forall i :: 0 <= i < |Waiters(s, j)| ==> SamePrio(s, s', Waiters(s, j)[i]);
      }
    }
  }

  lemma StillNotOutranked(s: Sys, s': Sys, m: nat, o: nat, j: nat)
    requires NoInversion(s) && GaveUp(s, s', m) && QueuesApart(s) && Owns(s', o, j)
    requires j != m && Owns(s, s.k.cur, j) ==> NotOutranked(s, j, Base(s, s.k.cur))
    ensures NotOutranked(s', j, Prio(s', o))
  {
    assert forall i :: 0 <= i < |Waiters(s, j)| ==> Waiters(s, j)[i] != s.k.cur && SamePrio(s, s', Waiters(s, j)[i]);
    if j == m {
      var i: nat :| PassedOn(s, s', m, i);
      assert o == Waiters(s, m)[i] && SamePrio(s, s', o);
      assert forall n :: 0 <= n < |Waiters(s', m)| ==> Waiters(s', m)[n] == Waiters(s, m)[if n < i then n else n + 1];
    } else {
      assert Owns(s, o, j) && NotOutranked(s, j, Prio(s, o)) && Waiters(s', j) == Waiters(s, j);
      assert o != s.k.cur ==> SamePrio(s, s', o);
    }
  }

  /** `o` does not wait for a task of lower priority than the current one. */
  ghost predicate NotBehindLower(s: Sys, o: nat)
    requires Started(s.k)
  {
    forall j, p :: o in Waiters(s, j) && Owns(s, p, j) && p != o ==> Prio(s, p) <= Prio(s, s.k.cur)
  }

  /** `lock` boosts the owner only, not whoever the owner waits for. */
  lemma LockInversion(s: Sys, s': Sys, m: nat, o: nat)
    requires NoInversion(s) && Contended(s, s', m, o) && QueuesApart(s)
    ensures NoInversion(s') <==> NotBehindLower(s, o)
  {
    if NotBehindLower(s, o) {
      forall p, j | Owns(s', p, j)
        ensures NotOutranked(s', j, Prio(s', p))
      {
        LockNotOutranked(s, s', m, o, p, j);
      }
    }
    if NoInversion(s') {
      forall j, p | o in Waiters(s, j) && Owns(s, p, j) && p != o
        ensures Prio(s, p) <= Prio(s, s.k.cur)
      {
        assert Owns(s', p, j) && SamePrio(s, s', p) && NotOutranked(s', j, Prio(s', p));
        assert o in Waiters(s', j);
      }
    }
  }

  lemma LockNotOutranked(s: Sys, s': Sys, m: nat, o: nat, p: nat, j: nat)
    requires NoInversion(s) && Contended(s, s', m, o) && QueuesApart(s) && Owns(s', p, j)
    requires o in Waiters(s, j) && Owns(s, p, j) && p != o ==> Prio(s, p) <= Prio(s, s.k.cur)
    ensures NotOutranked(s', j, Prio(s', p))
  {
    assert Owns(s, p, j) && NotOutranked(s, j, Prio(s, p));
    var c, w := s.k.cur, Waiters(s, j);
    assert p != o ==> SamePrio(s, s', p);
    assert c != o ==> SamePrio(s, s', c);
    forall i | 0 <= i < |w|
      ensures Prio(s', p) <= Prio(s', w[i])
    {
      assert Prio(s, p) <= Prio(s, w[i]) && (w[i] != o ==> SamePrio(s, s', w[i]));
    }
    assert j == m ==> p == o && forall i :: 1 <= i < |Waiters(s', m)| ==> Waiters(s', m)[i] == w[i - 1];
  }

  lemma InversionFree(s: Sys, s': Sys)
    requires NoInversion(s) && (forall t :: SamePrio(s, s', t)) && (forall j :: Waiters(s', j) == Waiters(s, j))
    requires forall o, m :: Owns(s', o, m) ==> Owns(s, o, m) || Waiters(s, m) == []
    ensures NoInversion(s')
  {
    forall o, m | Owns(s', o, m)
      ensures NotOutranked(s', m, Prio(s', o))
    {
      assert SamePrio(s, s', o) && forall j :: 0 <= j < |Waiters(s, m)| ==> SamePrio(s, s', Waiters(s, m)[j]);
    }
  }

  /** The step is to queue up behind the owner of a mutex. */
  predicate Queues(s: Sys, op: Op)
    requires Started(s.k) && |s.pcs| == |s.k.tasks|
  {
    Locks(s, op) && !op.TryLock? && Subject(s, op) < |s.mutexes| && s.mutexes[Subject(s, op)].Some?
  }

  /** What a step that gives a mutex up, or queues up for one, needs so as not to cause an inversion. */
  ghost predicate Harmless(s: Sys, op: Op)
    requires Started(s.k) && |s.pcs| == |s.k.tasks|
  {
    && (Unlocks(op) ==> OthersBelowBase(s, Subject(s, op)))
    && (Queues(s, op) ==> NotBehindLower(s, s.mutexes[Subject(s, op)].value))
  }

  lemma EffectInversion(s: Sys, op: Op, s': Sys)
    requires Started(s.k) && |s.pcs| == |s.k.tasks| && Effect(s, op, s') && NoInversion(s)
    requires Unlocks(op) || Queues(s, op) ==> QueuesApart(s)
    ensures NoInversion(s') <==> Harmless(s, op)
  {
    var m := Subject(s, op);
    if Unlocks(op) {
      UnlockInversion(s, s', m);
    } else if Queues(s, op) {
      LockInversion(s, s', m, s.mutexes[m].value);
    } else {
      InversionFree(s, s');
    }
  }

  /** Exactly when a step of any primitive keeps owners from being outranked by their waiters. To give
      a mutex up, by `unlock` or inside `wait`, needs that nobody above the caller's base waits for
      another mutex of the caller; to queue up for one, by `lock` or at the end of `wait`, that its
      owner does not itself wait for a task below the caller. Everything else keeps it. */
  lemma InheritanceKeptIff(s: Sys, op: Op)
    requires Inv(s) && Enabled(s, op) && NoInversion(s)
    ensures NoInversion(Step(s, op)) <==> Harmless(s, op)
  {
    StepEffect(s, op);
    if Unlocks(op) || Queues(s, op) {
      QueuesAreApart(s);
    }
    EffectInversion(s, op, Step(s, op));
  }

  // ------------------------------------------------------------------ no boost without a reason

  /** Among those that wait for `m`, which `t` owns, somebody has at least the priority of `t`. */
  ghost predicate Asked(s: Sys, t: nat, m: nat) {
    Owns(s, t, m) && exists j :: 0 <= j < |Waiters(s, m)| && Prio(s, Waiters(s, m)[j]) <= Prio(s, t)
  }

  /** The task runs at its base priority, or somebody who waits for one of its mutexes asks for more. */
  ghost predicate Justified(s: Sys, t: nat) {
    Prio(s, t) == Base(s, t) || exists m :: Asked(s, t, m)
  }

  ghost predicate BoostInv(s: Sys) {
    forall t :: Justified(s, t)
  }

  /** Nobody asks for less than before. */
  lemma AskedStays(s: Sys, s': Sys, t: nat, m: nat)
    requires Asked(s, t, m) && Owns(s', t, m) && Prio(s', t) == Prio(s, t)
    requires Waiters(s', m) == Waiters(s, m) || exists c :: Waiters(s', m) == [c] + Waiters(s, m)
    requires forall j :: 0 <= j < |Waiters(s, m)| ==> Prio(s', Waiters(s, m)[j]) <= Prio(s, Waiters(s, m)[j])
    ensures Asked(s', t, m)
  {
    var j :| 0 <= j < |Waiters(s, m)| && Prio(s, Waiters(s, m)[j]) <= Prio(s, t);
    if Waiters(s', m) == Waiters(s, m) {
      assert Prio(s', Waiters(s', m)[j]) <= Prio(s', t);
    } else {
      assert Waiters(s', m)[j + 1] == Waiters(s, m)[j];
    }
  }

  lemma ClaimJustified(s: Sys, s': Sys, m: nat, t: nat)
    requires Claimed(s, s', m) && Justified(s, t)
    ensures Justified(s', t)
  {
    assert SamePrio(s, s', t);
    if i :| Asked(s, t, i) {
      assert forall j :: 0 <= j < |Waiters(s, i)| ==> SamePrio(s, s', Waiters(s, i)[j]);
      AskedStays(s, s', t, i);
    }
  }

  lemma ContendJustified(s: Sys, s': Sys, m: nat, o: nat, t: nat)
    requires Contended(s, s', m, o) && Justified(s, t)
    ensures Justified(s', t)
  {
    var c := s.k.cur;
    if t == o && Prio(s, c) < Prio(s, o) {
      assert SamePrio(s, s', c) && Waiters(s', m)[0] == c;
      assert Asked(s', o, m);
    } else if i :| Asked(s, t, i) {
      forall j | 0 <= j < |Waiters(s, i)|
        ensures Prio(s', Waiters(s, i)[j]) <= Prio(s, Waiters(s, i)[j])
      {
        assert Waiters(s, i)[j] != o ==> SamePrio(s, s', Waiters(s, i)[j]);
      }
      assert t != o ==> SamePrio(s, s', t);
      AskedStays(s, s', t, i);
    } else {
      assert t != o ==> SamePrio(s, s', t);
    }
  }

  lemma ReleaseJustified(s: Sys, s': Sys, m: nat, t: nat)
    requires GaveUp(s, s', m) && QueuesApart(s) && Justified(s, t)
    ensures Justified(s', t)
  {
    if t != s.k.cur {
      assert SamePrio(s, s', t);
      if i :| Asked(s, t, i) {
        assert i != m;
        assert forall j :: 0 <= j < |Waiters(s, i)| ==>
          Waiters(s, i)[j] != s.k.cur && SamePrio(s, s', Waiters(s, i)[j]);
        assert Owns(s', t, i) && Waiters(s', i) == Waiters(s, i);
        AskedStays(s, s', t, i);
      }
    }
  }

  lemma UnconcernedJustified(s: Sys, s': Sys, t: nat)
    requires Unconcerned(s, s') && Justified(s, t)
    ensures Justified(s', t)
  {
    assert SamePrio(s, s', t);
    if i :| Asked(s, t, i) {
      assert Waiters(s', i) == Waiters(s, i);
      assert forall j :: 0 <= j < |Waiters(s, i)| ==> SamePrio(s, s', Waiters(s, i)[j]);
      AskedStays(s, s', t, i);
    }
  }

  lemma EffectJustified(s: Sys, op: Op, s': Sys, t: nat)
    requires Started(s.k) && |s.pcs| == |s.k.tasks| && Effect(s, op, s') && Justified(s, t)
    requires Unlocks(op) ==> QueuesApart(s)
    ensures Justified(s', t)
  {
    var m := Subject(s, op);
    if Unlocks(op) {
      ReleaseJustified(s, s', m, t);
    } else if Locks(s, op) && Claimed(s, s', m) {
      ClaimJustified(s, s', m, t);
    } else if Locks(s, op) && !op.TryLock? {
      ContendJustified(s, s', m, s.mutexes[m].value, t);
    } else {
      UnconcernedJustified(s, s', t);
    }
  }

  /** Every step of any primitive keeps every boost justified. */
  lemma BoostKept(s: Sys, op: Op)
    requires Inv(s) && Enabled(s, op) && BoostInv(s)
    ensures BoostInv(Step(s, op))
  {
    StepEffect(s, op);
    if Unlocks(op) {
      QueuesAreApart(s);
    }
    forall t
      ensures Justified(Step(s, op), t)
    {
      EffectJustified(s, op, Step(s, op), t);
    }
  }

  // ------------------------------------------------------------------ what a priority should be

  /** The minimum of `b` and the priorities of the tasks of `q`. */
  function Lowest(s: Sys, q: seq<nat>, b: int): int {
    if q == [] then b else
    var rest := Lowest(s, q[1..], b);
    if Prio(s, q[0]) < rest then Prio(s, q[0]) else rest
  }

  lemma {:induction false} LowestIsMinimum(s: Sys, q: seq<nat>, b: int)
    ensures var p := Lowest(s, q, b);
      && p <= b && (forall j :: 0 <= j < |q| ==> p <= Prio(s, q[j]))
      && (p == b || exists j :: 0 <= j < |q| && Prio(s, q[j]) == p)
  {
    if q != [] {
      LowestIsMinimum(s, q[1..], b);
      forall j | 0 <= j < |q|
        ensures Lowest(s, q, b) <= Prio(s, q[j])
      {
        assert j > 0 ==> q[j] == q[1..][j - 1];
      }
      assert Prio(s, q[0]) >= Lowest(s, q, b);
      if Lowest(s, q, b) != b && Prio(s, q[0]) != Lowest(s, q, b) {
        var j :| 0 <= j < |q[1..]| && Prio(s, q[1..][j]) == Lowest(s, q[1..], b);
        assert q[j + 1] == q[1..][j];
      }
    }
  }

  /** The minimum of the base priority of `t` and of the priorities of all that wait for one of its
      mutexes below `n`. */
  function Due(s: Sys, t: nat, n: nat): int
    requires n <= |s.mutexes|
  {
    if n == 0 then Base(s, t)
    else if Owns(s, t, n - 1) then Lowest(s, Waiters(s, n - 1), Due(s, t, n - 1))
    else Due(s, t, n - 1)
  }

  /** Every task runs at the minimum of its base and of the priorities of all that wait for it. */
  ghost predicate Inherited(s: Sys) {
    forall t :: Prio(s, t) == Due(s, t, |s.mutexes|)
  }

  lemma {:induction false} DueIsMinimum(s: Sys, t: nat, n: nat)
    requires n <= |s.mutexes|
    ensures Due(s, t, n) <= Base(s, t)
    ensures forall m: nat :: m < n && Owns(s, t, m) ==> NotOutranked(s, m, Due(s, t, n))
    ensures Due(s, t, n) == Base(s, t) || exists m: nat, j: nat ::
      m < n && Owns(s, t, m) && j < |Waiters(s, m)| && Prio(s, Waiters(s, m)[j]) == Due(s, t, n)
  {
    if n > 0 {
      DueIsMinimum(s, t, n - 1);
      LowestIsMinimum(s, Waiters(s, n - 1), Due(s, t, n - 1));
    }
  }

  /** What `t` runs at if nobody who waits for it outranks it. */
  lemma PrioIsDue(s: Sys, t: nat)
    requires BaseOk(s, t) && Justified(s, t) && forall m :: Owns(s, t, m) ==> NotOutranked(s, m, Prio(s, t))
    ensures Prio(s, t) == Due(s, t, |s.mutexes|)
  {
    DueIsMinimum(s, t, |s.mutexes|);
    if m :| Asked(s, t, m) {
      var j :| 0 <= j < |Waiters(s, m)| && Prio(s, Waiters(s, m)[j]) <= Prio(s, t);
      assert NotOutranked(s, m, Due(s, t, |s.mutexes|));
    }
  }

  lemma DueCovers(s: Sys, t: nat, m: nat)
    requires Prio(s, t) == Due(s, t, |s.mutexes|) && Owns(s, t, m)
    ensures NotOutranked(s, m, Prio(s, t))
  {
    DueIsMinimum(s, t, |s.mutexes|);
  }

  lemma InheritedIff(s: Sys)
    requires BaseInv(s) && BoostInv(s)
    ensures Inherited(s) <==> NoInversion(s)
  {
    if NoInversion(s) {
      forall t
        ensures Prio(s, t) == Due(s, t, |s.mutexes|)
      {
        assert BaseOk(s, t) && Justified(s, t);
        PrioIsDue(s, t);
      }
    }
    if Inherited(s) {
      forall o, m | Owns(s, o, m)
        ensures NotOutranked(s, m, Prio(s, o))
      {
        DueCovers(s, o, m);
      }
    }
  }

  // ------------------------------------------------------------------ whole runs

  lemma BootExact(k0: Kern, s: Sys)
    requires Boot(k0, s)
    ensures ExactInv(s)
  {
    LaunchFinds(k0);
    forall t: nat
      ensures BaseOk(s, t)
    {
      assert t < |k0.tasks| ==> k0.tasks[t] == NewTask(k0.tasks[t].sp, k0.tasks[t].base, k0.tasks[t].slice);
    }
  }

  lemma {:induction false} BaseKeeps(s: Sys, ops: seq<Op>)
    requires Inv(s) && Legal(s, ops) && BaseInv(s)
    ensures BaseInv(Run(s, ops))
    decreases |ops|
  {
    if ops == [] {
      RunEmpty(s);
    } else {
      Unroll(s, ops);
      BaseKeeps(s, Front(ops));
      StepEffect(Run(s, Front(ops)), Last(ops));
      BaseKept(Run(s, Front(ops)), Last(ops), Run(s, ops));
    }
  }

  lemma {:induction false} BoostKeeps(s: Sys, ops: seq<Op>)
    requires Inv(s) && Legal(s, ops) && BoostInv(s)
    ensures BoostInv(Run(s, ops))
    decreases |ops|
  {
    if ops == [] {
      RunEmpty(s);
    } else {
      Unroll(s, ops);
      BoostKeeps(s, Front(ops));
      BoostKept(Run(s, Front(ops)), Last(ops));
    }
  }

  lemma BootBoost(s: Sys)
    requires BaseInv(s) && forall m :: 0 <= m < |s.mutexes| ==> s.mutexes[m] == None
    ensures BoostInv(s) && NoInversion(s)
  {
    forall t
      ensures Justified(s, t)
    {
      assert BaseOk(s, t);
    }
  }

  /** However mutexes are nested: no task is below its base, none is above it without somebody who
      waits for it and asks for that much, and one that owns no mutex is exactly at its base. */
  lemma EveryBoostIsJustified(tr: Trace, s: Sys)
    requires Reaches(tr, s)
    ensures BaseInv(s) && BoostInv(s)
  {
    BootInv(tr.spawned, tr.boot);
    BootExact(tr.spawned, tr.boot);
    BootBoost(tr.boot);
    BaseKeeps(tr.boot, tr.ops);
    BoostKeeps(tr.boot, tr.ops);
  }

  /** In every reachable state inheritance is exact, over all mutexes of every task, if and only if
      no owner is outranked by a task that waits for it. */
  lemma ExactIffNoInversion(tr: Trace, s: Sys)
    requires Reaches(tr, s)
    ensures Inherited(s) <==> NoInversion(s)
  {
    EveryBoostIsJustified(tr, s);
    InheritedIff(s);
  }

  /** No step of the run causes an inversion. */
  ghost predicate HarmlessRun(s: Sys, ops: seq<Op>)
    requires Inv(s) && Legal(s, ops)
    decreases |ops|
  {
    ops == [] || (Unroll(s, ops); HarmlessRun(s, Front(ops)) && Harmless(Run(s, Front(ops)), Last(ops)))
  }

  /** Wherever the run has come by, no owner is outranked by a task that waits for it. */
  ghost predicate NeverInverted(s: Sys, ops: seq<Op>)
    requires Inv(s) && Legal(s, ops)
    decreases |ops|
  {
    NoInversion(Run(s, ops)) && (ops != [] ==> (Unroll(s, ops); NeverInverted(s, Front(ops))))
  }

  /** No `unlock` of the run misses a preemption. */
  ghost predicate CoveredRun(s: Sys, ops: seq<Op>)
    requires Inv(s) && Legal(s, ops)
    decreases |ops|
  {
    ops == [] || (Unroll(s, ops); CoveredRun(s, Front(ops)) && Covered(Run(s, Front(ops)), Last(ops)))
  }

  /** Wherever the run has come by, no preemption was missed. */
  ghost predicate NeverMissed(s: Sys, ops: seq<Op>)
    requires Inv(s) && Legal(s, ops)
    decreases |ops|
  {
    NoMissedPreemption(Run(s, ops).k) && (ops != [] ==> (Unroll(s, ops); NeverMissed(s, Front(ops))))
  }

  lemma {:induction false} HarmlessIff(s: Sys, ops: seq<Op>)
    requires Inv(s) && Legal(s, ops) && NoInversion(s)
    ensures NeverInverted(s, ops) <==> HarmlessRun(s, ops)
    decreases |ops|
  {
    if ops == [] {
      RunEmpty(s);
    } else {
      Unroll(s, ops);
      HarmlessIff(s, Front(ops));
      if NoInversion(Run(s, Front(ops))) {
        InheritanceKeptIff(Run(s, Front(ops)), Last(ops));
      }
    }
  }

  lemma {:induction false} CoveredIff(s: Sys, ops: seq<Op>)
    requires Inv(s) && Legal(s, ops) && NoMissedPreemption(s.k)
    ensures NeverMissed(s, ops) <==> CoveredRun(s, ops)
    decreases |ops|
  {
    if ops == [] {
      RunEmpty(s);
    } else {
      Unroll(s, ops);
      CoveredIff(s, Front(ops));
      if NoMissedPreemption(Run(s, Front(ops)).k) {
        PreemptionKeptIff(Run(s, Front(ops)), Last(ops));
      }
    }
  }

  /** The run leads to `s` by harmless steps. */
  ghost predicate HarmlessReaches(tr: Trace, s: Sys) {
    Reaches(tr, s) && (BootInv(tr.spawned, tr.boot); HarmlessRun(tr.boot, tr.ops))
  }

  ghost predicate CoveredReaches(tr: Trace, s: Sys) {
    Reaches(tr, s) && (BootInv(tr.spawned, tr.boot); CoveredRun(tr.boot, tr.ops))
  }

  /** Exactly which runs never invert: those whose steps are all harmless, as each one's own state
      shows before it is taken. */
  lemma InheritanceHoldsIff(tr: Trace, s: Sys)
    requires Reaches(tr, s)
    ensures Inv(tr.boot) && Legal(tr.boot, tr.ops)
    ensures NeverInverted(tr.boot, tr.ops) <==> HarmlessReaches(tr, s)
  {
    BootInv(tr.spawned, tr.boot);
    BootExact(tr.spawned, tr.boot);
    BootBoost(tr.boot);
    HarmlessIff(tr.boot, tr.ops);
  }

  /** Exactly which runs never miss a preemption. */
  lemma PreemptionHoldsIff(tr: Trace, s: Sys)
    requires Reaches(tr, s)
    ensures Inv(tr.boot) && Legal(tr.boot, tr.ops)
    ensures NeverMissed(tr.boot, tr.ops) <==> CoveredReaches(tr, s)
  {
    BootInv(tr.spawned, tr.boot);
    CoveredIff(tr.boot, tr.ops);
  }
}
