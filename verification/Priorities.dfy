/** Priority inheritance and preemption over whole runs. */
module Priorities {
  import opened Types
  import opened Seqs
  import opened KernelModel
  import opened KernelProofs
  import opened SystemModel
  import opened Runs
  import MutexSteps
  import X = MutexModel

  function Prio(s: Sys, t: nat): int {
    if t < |s.k.tasks| then s.k.tasks[t].priority else 0
  }

  function Base(s: Sys, t: nat): int {
    if t < |s.k.tasks| then s.k.tasks[t].base else 0
  }

  function Waiters(s: Sys, m: nat): seq<nat> {
    Q(s.k, MutexQ(m))
  }

  predicate Owns(s: Sys, t: nat, m: nat) {
    m < |s.mutexes| && s.mutexes[m] == Some(t)
  }

  ghost predicate OwnsNone(s: Sys, t: nat) {
    forall m :: 0 <= m < |s.mutexes| ==> s.mutexes[m] != Some(t)
  }

  // ------------------------------------------------------------------ what a step does to the locks

  ghost predicate SamePrio(s: Sys, s': Sys, t: nat) {
    Prio(s', t) == Prio(s, t) && Base(s', t) == Base(s, t)
  }

  /** The current task took a free mutex. */
  ghost predicate Claimed(s: Sys, s': Sys, m: nat) {
    && Started(s.k) && m < |s.mutexes| && s.mutexes[m].None? && Waiters(s, m) == []
    && s'.mutexes == s.mutexes[m := Some(s.k.cur)]
    && (forall t :: SamePrio(s, s', t)) && (forall j :: Waiters(s', j) == Waiters(s, j))
  }

  /** The current task queued up behind `o`, which inherits its priority. */
  ghost predicate Contended(s: Sys, s': Sys, m: nat, o: nat) {
    && Started(s.k) && Owns(s, o, m) && s'.mutexes == s.mutexes && o < |s.k.tasks|
    && Prio(s', o) == (if Prio(s, s.k.cur) < Prio(s, o) then Prio(s, s.k.cur) else Prio(s, o))
    && Base(s', o) == Base(s, o)
    && (forall t :: t != o ==> SamePrio(s, s', t))
    && Waiters(s', m) == [s.k.cur] + Waiters(s, m) && (forall j :: j != m ==> Waiters(s', j) == Waiters(s, j))
  }

  /** The current task gave the mutex up, to `next` if there is a waiter, and is at its base again. */
  ghost predicate GaveUp(s: Sys, s': Sys, m: nat) {
    && Started(s.k) && Owns(s, s.k.cur, m)
    && Prio(s', s.k.cur) == Base(s, s.k.cur) && Base(s', s.k.cur) == Base(s, s.k.cur)
    && (forall t :: t != s.k.cur ==> SamePrio(s, s', t))
    && (forall j :: j != m ==> Waiters(s', j) == Waiters(s, j))
    && if Waiters(s, m) == [] then Waiters(s', m) == [] && s'.mutexes == s.mutexes[m := None]
       else exists i :: PassedOn(s, s', m, i)
  }

  /** The waiter at position `i` is one of the highest priority, and now the owner. */
  ghost predicate PassedOn(s: Sys, s': Sys, m: nat, i: nat) {
    && i < |Waiters(s, m)| && m < |s.mutexes|
    && (forall j :: 0 <= j < |Waiters(s, m)| ==> Prio(s, Waiters(s, m)[i]) <= Prio(s, Waiters(s, m)[j]))
    && Waiters(s', m) == Without(Waiters(s, m), i) && s'.mutexes == s.mutexes[m := Some(Waiters(s, m)[i])]
  }

  /** No mutex and no priority is concerned. */
  ghost predicate Unconcerned(s: Sys, s': Sys) {
    LocksStay(s, s') && forall t :: SamePrio(s, s', t)
  }

  /** Which mutex the step locks, tries to lock or unlocks. */
  function Subject(s: Sys, op: Op): nat
    requires Started(s.k) && |s.pcs| == |s.k.tasks|
  {
    match op
    case Lock(m) => m
    case TryLock(m) => m
    case Unlock(m) => m
    case CondWait(_, m) => m
    case Return => if s.pcs[s.k.cur].Relock? then s.pcs[s.k.cur].m else 0
    case _ => 0
  }

  predicate Locks(s: Sys, op: Op)
    requires Started(s.k) && |s.pcs| == |s.k.tasks|
  {
    op.Lock? || op.TryLock? || (op.Return? && s.pcs[s.k.cur].Relock?)
  }

  predicate Unlocks(op: Op) {
    op.Unlock? || op.CondWait?
  }

  /** Every step is one of these. */
  ghost predicate Effect(s: Sys, op: Op, s': Sys)
    requires Started(s.k) && |s.pcs| == |s.k.tasks|
  {
    var m := Subject(s, op);
    if Unlocks(op) then GaveUp(s, s', m)
    else if Locks(s, op) then
      || Claimed(s, s', m)
      || (m < |s.mutexes| && s.mutexes[m].Some?
          && if op.TryLock? then Unconcerned(s, s') else Contended(s, s', m, s.mutexes[m].value))
    else Unconcerned(s, s')
  }

  lemma LockEffect(s: Sys, m: nat)
    requires KernelInv(s.k) && PcInv(s) && MutexInv(s) && m < |s.mutexes|
    ensures var s' := LockStep(s, m);
      Claimed(s, s', m) || (s.mutexes[m].Some? && Contended(s, s', m, s.mutexes[m].value))
  {
    assert OwnerInv(s, m);
  }

  /** The mutex passed to one of its best waiters, or to nobody. */
  ghost predicate GrantDone(k: Kern, k': Kern, l: ListId, next: Option<nat>)
    requires ListOk(k, l)
  {
    && SamePriorities(k, k') && k'.cur == k.cur && (forall l' :: l' != l ==> Q(k', l') == Q(k, l'))
    && if Q(k, l) == [] then Q(k', l) == [] && next == None
       else exists b :: GrantedAt(k, k', l, next, b)
  }

  ghost predicate GrantedAt(k: Kern, k': Kern, l: ListId, next: Option<nat>, b: nat)
    requires ListOk(k, l)
  {
    && b < |Q(k, l)| && Q(k', l) == Without(Q(k, l), b) && next == Some(Q(k, l)[b])
    && forall j :: 0 <= j < |Q(k, l)| ==> k.tasks[Q(k, l)[b]].priority <= k.tasks[Q(k, l)[j]].priority
  }

  lemma GrantEffect(k: Kern, l: ListId)
    requires Started(k) && ListOk(k, l)
    ensures var r := X.Grant(k, l); GrantDone(k, r.0, l, r.1)
  {
    if Q(k, l) != [] {
      BestIndexIsBest(k.tasks, Q(k, l));
      assert GrantedAt(k, X.Grant(k, l).0, l, X.Grant(k, l).1, Best(k, l));
    }
  }

  /** Whoever is current and holds `m` releases it. */
  lemma ReleaseEffect(s: Sys, s': Sys, m: nat)
    requires Started(s.k) && ListOk(s.k, MutexQ(m)) && Owns(s, s.k.cur, m)
    requires s.k.tasks[s.k.cur].state != Blocked(MutexQ(m))
    requires var r := X.Unlock(s.k, s.k.cur, MutexQ(m)); s'.k == r.0 && s'.mutexes == s.mutexes[m := r.1]
    ensures GaveUp(s, s', m)
  {
    var k1 := X.Restore(s.k, s.k.cur);
    assert ListOk(k1, MutexQ(m));
    GrantEffect(k1, MutexQ(m));
    GrantAsGaveUp(s, k1, s', m);
  }

  lemma GrantAsGaveUp(s: Sys, k1: Kern, s': Sys, m: nat)
    requires Started(s.k) && ListOk(s.k, MutexQ(m)) && Owns(s, s.k.cur, m)
    requires s.k.tasks[s.k.cur].state != Blocked(MutexQ(m))
    requires k1 == s.k.(tasks := s.k.tasks[s.k.cur := s.k.tasks[s.k.cur].(priority := s.k.tasks[s.k.cur].base)])
    requires ListOk(k1, MutexQ(m)) && m < |s'.mutexes| && s'.mutexes == s.mutexes[m := s'.mutexes[m]]
    requires GrantDone(k1, s'.k, MutexQ(m), s'.mutexes[m])
    ensures GaveUp(s, s', m)
  {
    if Waiters(s, m) != [] {
      var b :| GrantedAt(k1, s'.k, MutexQ(m), s'.mutexes[m], b);
      assert PassedOn(s, s', m, b);
    }
  }

  lemma UnlockEffect(s: Sys, m: nat)
    requires KernelInv(s.k) && PcInv(s) && MutexInv(s) && Thread(s) && (s.k.cur, m) in s.guards
    ensures GaveUp(s, UnlockStep(s, m), m)
  {
    assert GuardInv(s, s.k.cur, m) && ListOk(s.k, MutexQ(m));
    ReleaseEffect(s, UnlockStep(s, m), m);
  }

  lemma CondWaitEffect(s: Sys, c: nat, m: nat)
    requires KernelInv(s.k) && PcInv(s) && MutexInv(s) && Thread(s) && (s.k.cur, m) in s.guards
    ensures GaveUp(s, CondWaitStep(s, c, m), m)
    ensures CondWaitStep(s, c, m).k.pendsv && Started(CondWaitStep(s, c, m).k)
  {
    assert GuardInv(s, s.k.cur, m);
    var s1, s' := s.(k := Park(s.k, CondQ(c))), CondWaitStep(s, c, m);
    MutexSteps.WaitAsParkThenUnlock(s.k, CondQ(c), MutexQ(m));
    ReleaseEffect(s1, s', m);
    GaveUpAfter(s, s1, s', m);
  }

  /** The waiter of a condition variable parks first, which does not concern the mutexes. */
  lemma GaveUpAfter(s: Sys, s1: Sys, s': Sys, m: nat)
    requires Unconcerned(s, s1) && s1.k.cur == s.k.cur && Started(s.k) && GaveUp(s1, s', m)
    ensures GaveUp(s, s', m)
  {
    assert SamePrio(s, s1, s.k.cur);
    forall t | t != s.k.cur
      ensures SamePrio(s, s', t)
    {
      assert SamePrio(s, s1, t) && SamePrio(s1, s', t);
    }
    if Waiters(s, m) != [] {
      var i: nat :| PassedOn(s1, s', m, i);
      assert Waiters(s1, m) == Waiters(s, m);
      forall j | 0 <= j < |Waiters(s, m)|
        ensures Prio(s, Waiters(s, m)[i]) <= Prio(s, Waiters(s, m)[j])
      {
        assert SamePrio(s, s1, Waiters(s, m)[i]) && SamePrio(s, s1, Waiters(s, m)[j]);
      }
      assert PassedOn(s, s', m, i);
    }
  }

  lemma LockingEffect(s: Sys, op: Op)
    requires Inv(s) && Enabled(s, op) && Locks(s, op)
    ensures Effect(s, op, Step(s, op))
  {
    match op {
      case Lock(m) => LockEffect(s, m);
      case TryLock(m) => assert OwnerInv(s, m);
      case Return =>
        assert LockerInv(s, s.k.cur);
        LockEffect(s, s.pcs[s.k.cur].m);
    }
  }

  lemma OtherEffect(s: Sys, op: Op, s': Sys)
    requires Started(s.k) && |s.pcs| == |s.k.tasks| && StepOk(s, op, s') && !Locks(s, op) && !Unlocks(op)
    ensures Effect(s, op, s')
  {
  }

  lemma StepEffect(s: Sys, op: Op)
    requires Inv(s) && Enabled(s, op)
    ensures Effect(s, op, Step(s, op))
  {
    if Locks(s, op) {
      LockingEffect(s, op);
    } else if op.Unlock? {
      UnlockEffect(s, op.m);
    } else if op.CondWait? {
      CondWaitEffect(s, op.c, op.m);
    } else {
      StepKeeps(s, op);
      OtherEffect(s, op, Step(s, op));
    }
  }

  // ------------------------------------------------------------------ arbitrary nesting

  /** No priority value exceeds its base, and a task that owns no mutex is exactly at its base. */
  ghost predicate BaseInv(s: Sys) {
    forall t :: BaseOk(s, t)
  }

  ghost predicate BaseOk(s: Sys, t: nat) {
    Prio(s, t) <= Base(s, t) && (OwnsNone(s, t) ==> Prio(s, t) == Base(s, t))
  }

  lemma BaseKept(s: Sys, op: Op, s': Sys)
    requires Started(s.k) && |s.pcs| == |s.k.tasks| && Effect(s, op, s') && BaseInv(s)
    ensures BaseInv(s')
  {
    forall t
      ensures BaseOk(s', t)
    {
      assert BaseOk(s, t);
      var same := SamePrio(s, s', t);
      if OwnsNone(s', t) && !(Unlocks(op) && t == s.k.cur) {
        forall m | 0 <= m < |s.mutexes|
          ensures s.mutexes[m] != Some(t)
        {
          assert s'.mutexes[m] != Some(t);
        }
      }
    }
  }

  // ------------------------------------------------------------------ one mutex at a time

  /** The discipline: a task locks a mutex only while it owns none. */
  ghost predicate Disciplined(s: Sys, op: Op)
    requires Started(s.k) && |s.pcs| == |s.k.tasks|
  {
    Locks(s, op) ==> OwnsNone(s, s.k.cur)
  }

  /** The owner of `m` runs at the minimum of its base and its waiters' priorities. */
  ghost predicate Exact(s: Sys, o: nat, m: nat) {
    var w := Waiters(s, m);
    && Prio(s, o) <= Base(s, o) && (forall j :: 0 <= j < |w| ==> Prio(s, o) <= Prio(s, w[j]))
    && (Prio(s, o) == Base(s, o) || exists j :: 0 <= j < |w| && Prio(s, w[j]) == Prio(s, o))
  }

  ghost predicate WaitersOwnNone(s: Sys, m: nat) {
    forall j :: 0 <= j < |Waiters(s, m)| ==> OwnsNone(s, Waiters(s, m)[j])
  }

  predicate OnlyOne(s: Sys, t: nat, m: nat, j: nat) {
    Owns(s, t, m) && Owns(s, t, j) ==> m == j
  }

  ghost predicate ExactInv(s: Sys) {
    && BaseInv(s) && (forall t, m, j :: OnlyOne(s, t, m, j)) && (forall m :: WaitersOwnNone(s, m))
    && forall o, m :: Owns(s, o, m) ==> Exact(s, o, m)
  }

  /** Nobody waits twice, and the running task does not wait. */
  ghost predicate QueuesApart(s: Sys) {
    && (forall m :: NoDup(Waiters(s, m)))
    && (forall m, j :: m != j ==> forall i :: 0 <= i < |Waiters(s, m)| ==> Waiters(s, m)[i] !in Waiters(s, j))
    && forall m :: s.k.cur !in Waiters(s, m)
  }

  lemma QueuesAreApart(s: Sys)
    requires KernelInv(s.k) && !s.k.pendsv
    ensures QueuesApart(s)
  {
    assert forall m :: ListOk(s.k, MutexQ(m));
  }

  lemma ClaimKeeps(s: Sys, s': Sys, m: nat)
    requires ExactInv(s) && QueuesApart(s) && Claimed(s, s', m) && OwnsNone(s, s.k.cur) && BaseInv(s')
    ensures ExactInv(s')
  {
    forall t, i, j
      ensures OnlyOne(s', t, i, j)
    {
      assert OnlyOne(s, t, i, j) && !Owns(s, s.k.cur, i) && !Owns(s, s.k.cur, j);
    }
    forall i
      ensures WaitersOwnNone(s', i)
    {
      assert WaitersOwnNone(s, i);
    }
    forall o, i | Owns(s', o, i)
      ensures Exact(s', o, i)
    {
      assert SamePrio(s, s', o) && forall j :: 0 <= j < |Waiters(s, i)| ==> SamePrio(s, s', Waiters(s, i)[j]);
      if i == m {
        assert BaseOk(s, o);
      } else {
        assert Owns(s, o, i);
      }
    }
  }

  lemma ContendKeeps(s: Sys, s': Sys, m: nat, o: nat)
    requires ExactInv(s) && QueuesApart(s) && Contended(s, s', m, o) && OwnsNone(s, s.k.cur) && BaseInv(s')
    ensures ExactInv(s')
  {
    var c := s.k.cur;
    assert !Owns(s, c, m);
    forall t, i, j
      ensures OnlyOne(s', t, i, j)
    {
      assert OnlyOne(s, t, i, j);
    }
    forall i
      ensures WaitersOwnNone(s', i)
    {
      assert WaitersOwnNone(s, i);
    }
    forall o', i | Owns(s', o', i)
      ensures Exact(s', o', i)
    {
      assert Exact(s, o', i) && WaitersOwnNone(s, i) && OnlyOne(s, o, m, i);
      assert forall j :: 0 <= j < |Waiters(s, i)| ==> Waiters(s, i)[j] != o && SamePrio(s, s', Waiters(s, i)[j]);
      if i == m {
        assert SamePrio(s, s', c) && Waiters(s', m)[0] == c;
        if j :| 0 <= j < |Waiters(s, m)| && Prio(s, Waiters(s, m)[j]) == Prio(s, o) {
          assert Waiters(s', m)[j + 1] == Waiters(s, m)[j];
        }
      } else {
        assert SamePrio(s, s', o');
      }
    }
  }

  lemma ReleaseKeeps(s: Sys, s': Sys, m: nat)
    requires ExactInv(s) && QueuesApart(s) && GaveUp(s, s', m) && BaseInv(s')
    ensures ExactInv(s')
  {
    var c, q := s.k.cur, Waiters(s, m);
    var i := if q == [] then 0 else var i: nat :| PassedOn(s, s', m, i); i;
    if q != [] {
      WithoutMembers(q, i);
      assert WaitersOwnNone(s, m);
    }
    forall t, a, b
      ensures OnlyOne(s', t, a, b)
    {
      assert OnlyOne(s, t, a, b) && (q != [] ==> !Owns(s, q[i], a) && !Owns(s, q[i], b));
    }
    forall a
      ensures WaitersOwnNone(s', a)
    {
      ReleasedWaiters(s, s', m, i, a);
    }
    forall o, a | Owns(s', o, a)
      ensures Exact(s', o, a)
    {
      ReleasedExact(s, s', m, i, o, a);
    }
  }

  lemma ReleasedWaiters(s: Sys, s': Sys, m: nat, i: nat, a: nat)
    requires ExactInv(s) && QueuesApart(s) && GaveUp(s, s', m) && (Waiters(s, m) != [] ==> PassedOn(s, s', m, i))
    ensures WaitersOwnNone(s', a)
  {
    assert WaitersOwnNone(s, a);
    if Waiters(s, m) != [] {
      WithoutMembers(Waiters(s, m), i);
    }
    forall j | 0 <= j < |Waiters(s', a)|
      ensures OwnsNone(s', Waiters(s', a)[j])
    {
      var w := Waiters(s', a)[j];
      assert w in Waiters(s, a);
    }
  }

  lemma ReleasedExact(s: Sys, s': Sys, m: nat, i: nat, o: nat, a: nat)
    requires ExactInv(s) && QueuesApart(s) && GaveUp(s, s', m) && (Waiters(s, m) != [] ==> PassedOn(s, s', m, i))
    requires Owns(s', o, a)
    ensures Exact(s', o, a)
  {
    var c := s.k.cur;
    assert WaitersOwnNone(s, a);
    assert forall j :: 0 <= j < |Waiters(s, a)| ==> Waiters(s, a)[j] != c && SamePrio(s, s', Waiters(s, a)[j]);
    if a == m {
      assert Waiters(s, m) != [] && o == Waiters(s, m)[i] && BaseOk(s, o);
      assert forall j :: 0 <= j < |Waiters(s', m)| ==> Waiters(s', m)[j] == Waiters(s, m)[if j < i then j else j + 1];
    } else {
      assert Owns(s, o, a) && Exact(s, o, a) && OnlyOne(s, c, m, a) && SamePrio(s, s', o);
    }
  }

  /** Exact inheritance is kept by every disciplined step. */
  lemma ExactKept(s: Sys, op: Op)
    requires Inv(s) && Enabled(s, op) && Disciplined(s, op) && ExactInv(s)
    ensures ExactInv(Step(s, op))
  {
    var s', m := Step(s, op), Subject(s, op);
    StepEffect(s, op);
    BaseKept(s, op, s');
    if Locks(s, op) || Unlocks(op) {
      QueuesAreApart(s);
      if Unlocks(op) {
        ReleaseKeeps(s, s', m);
      } else if Claimed(s, s', m) {
        ClaimKeeps(s, s', m);
      } else if !op.TryLock? {
        ContendKeeps(s, s', m, s.mutexes[m].value);
      } else {
        UnconcernedKeeps(s, s');
      }
    } else {
      UnconcernedKeeps(s, s');
    }
  }

  lemma UnconcernedKeeps(s: Sys, s': Sys)
    requires ExactInv(s) && Unconcerned(s, s') && BaseInv(s')
    ensures ExactInv(s')
  {
    forall t, i, j
      ensures OnlyOne(s', t, i, j)
    {
      assert OnlyOne(s, t, i, j);
    }
    forall i
      ensures WaitersOwnNone(s', i)
    {
      assert WaitersOwnNone(s, i) && Waiters(s', i) == Waiters(s, i);
    }
    forall o, i | Owns(s', o, i)
      ensures Exact(s', o, i)
    {
      assert Owns(s, o, i) && Exact(s, o, i) && SamePrio(s, s', o);
      assert forall j :: 0 <= j < |Waiters(s, i)| ==> SamePrio(s, s', Waiters(s, i)[j]);
    }
  }

  // ------------------------------------------------------------------ preemption

  ghost predicate SomeWaiterOutranks(s: Sys, m: nat, p: int) {
    exists j :: 0 <= j < |Waiters(s, m)| && Prio(s, Waiters(s, m)[j]) < p
  }

  ghost predicate NobodyReadyOutranks(s: Sys, p: int) {
    forall t :: 0 <= t < |s.k.tasks| && s.k.tasks[t].state.Ready? ==> p <= s.k.tasks[t].priority
  }

  /** The switch that `unlock_internal` requests. */
  lemma UnlockRequests(s: Sys, m: nat)
    requires KernelInv(s.k) && PcInv(s) && MutexInv(s) && Thread(s) && (s.k.cur, m) in s.guards
    ensures UnlockStep(s, m).k.pendsv == SomeWaiterOutranks(s, m, Base(s, s.k.cur))
  {
    assert GuardInv(s, s.k.cur, m);
    var l, k1 := MutexQ(m), X.Restore(s.k, s.k.cur);
    assert ListOk(s.k, l) && ListOk(k1, l);
    var q, c, k' := Q(s.k, l), s.k.cur, UnlockStep(s, m).k;
    if q == [] {
      assert k' == k1;
    } else {
      var b := Best(k1, l);
      BestIndexIsBest(k1.tasks, q);
      assert k'.pendsv == Outranks(k1, q[b]);
      assert forall j :: 0 <= j < |q| ==> k1.tasks[q[j]] == s.k.tasks[q[j]];
      if Outranks(k1, q[b]) {
        assert Prio(s, Waiters(s, m)[b]) < Base(s, c);
      }
      if j: nat :| j < |q| && Prio(s, Waiters(s, m)[j]) < Base(s, c) {
        assert k1.tasks[q[b]].priority <= k1.tasks[q[j]].priority;
      }
    }
  }

  /** What `unlock_internal` does to a task. */
  predicate AfterUnlock(s: Sys, k': Kern, m: nat, t: nat)
    requires Started(s.k) && |k'.tasks| == |s.k.tasks| && t < |s.k.tasks|
  {
    var a, b := s.k.tasks[t], k'.tasks[t];
    if t == s.k.cur then b == a.(priority := a.base)
    else b == a || (t in Waiters(s, m) && b == a.(state := Ready(a.slice)))
  }

  lemma UnlockTouches(s: Sys, m: nat)
    requires KernelInv(s.k) && PcInv(s) && MutexInv(s) && Thread(s) && (s.k.cur, m) in s.guards
    ensures var k' := UnlockStep(s, m).k;
      && k'.cur == s.k.cur && |k'.tasks| == |s.k.tasks|
      && forall t :: 0 <= t < |s.k.tasks| ==> AfterUnlock(s, k', m, t)
  {
    assert GuardInv(s, s.k.cur, m);
    var l, k1 := MutexQ(m), X.Restore(s.k, s.k.cur);
    assert ListOk(s.k, l) && ListOk(k1, l);
    if Q(s.k, l) != [] {
      assert BestWaiter(k1, l) in Q(s.k, l);
    }
  }

  /** Releasing a mutex misses a preemption exactly when the priority that is given up was not
      inherited from one of its own waiters and some Ready task is between it and the base. */
  lemma UnlockPreemptsIff(s: Sys, m: nat)
    requires Inv(s) && Enabled(s, Unlock(m)) && NoMissedPreemption(s.k)
    ensures NoMissedPreemption(Step(s, Unlock(m)).k)
       <==> SomeWaiterOutranks(s, m, Base(s, s.k.cur)) || NobodyReadyOutranks(s, Base(s, s.k.cur))
  {
    var k' := UnlockStep(s, m).k;
    UnlockRequests(s, m);
    UnlockTouches(s, m);
    ThreadIsRunning(s);
    UnlockPreempts(s, k', m);
  }

  lemma UnlockPreempts(s: Sys, k': Kern, m: nat)
    requires Started(s.k) && k'.cur == s.k.cur && |k'.tasks| == |s.k.tasks| && s.k.tasks[s.k.cur].state.Running?
    requires forall t :: 0 <= t < |s.k.tasks| ==> AfterUnlock(s, k', m, t)
    requires k'.pendsv == SomeWaiterOutranks(s, m, Base(s, s.k.cur))
    ensures NoMissedPreemption(k') <==> k'.pendsv || NobodyReadyOutranks(s, Base(s, s.k.cur))
  {
    var c := s.k.cur;
    assert AfterUnlock(s, k', m, c);
    if !k'.pendsv && NobodyReadyOutranks(s, Base(s, c)) {
      forall t | 0 <= t < |k'.tasks| && k'.tasks[t].state.Ready?
        ensures !Outranks(k', t)
      {
        assert AfterUnlock(s, k', m, t);
        assert t in Waiters(s, m) ==> !(Prio(s, t) < Base(s, c));
      }
    }
    if !k'.pendsv && NoMissedPreemption(k') {
      forall t | 0 <= t < |s.k.tasks| && s.k.tasks[t].state.Ready?
        ensures Base(s, c) <= s.k.tasks[t].priority
      {
        assert AfterUnlock(s, k', m, t) && !Outranks(k', t);
      }
    }
  }

  /** With exact inheritance the condition always holds. */
  lemma ExactUnlockPreempts(s: Sys, m: nat)
    requires Inv(s) && Enabled(s, Unlock(m)) && ExactInv(s) && NoMissedPreemption(s.k)
    ensures NoMissedPreemption(Step(s, Unlock(m)).k)
  {
    UnlockPreemptsIff(s, m);
    assert GuardInv(s, s.k.cur, m);
    assert Owns(s, s.k.cur, m) && Exact(s, s.k.cur, m);
    if Prio(s, s.k.cur) == Base(s, s.k.cur) {
      forall t | 0 <= t < |s.k.tasks| && s.k.tasks[t].state.Ready?
        ensures Base(s, s.k.cur) <= s.k.tasks[t].priority
      {
        assert !Outranks(s.k, t);
      }
    }
  }

  lemma LockPreempts(s: Sys, m: nat)
    requires KernelInv(s.k) && PcInv(s) && MutexInv(s) && m < |s.mutexes| && NoMissedPreemption(s.k)
    ensures NoMissedPreemption(LockStep(s, m).k)
  {
    assert OwnerInv(s, m);
  }

  lemma QuietPreempts(s: Sys, op: Op, s': Sys)
    requires Started(s.k) && |s.pcs| == |s.k.tasks| && StepOk(s, op, s') && !Inherits(s, op) && NoMissedPreemption(s.k)
    ensures NoMissedPreemption(s'.k)
  {
  }

  /** What an `unlock` needs so as not to miss a preemption. */
  ghost predicate Covered(s: Sys, op: Op)
    requires Started(s.k)
  {
    op.Unlock? ==> SomeWaiterOutranks(s, op.m, Base(s, s.k.cur)) || NobodyReadyOutranks(s, Base(s, s.k.cur))
  }

  /** Exactly when a step of any primitive misses no preemption. `unlock` needs that the switch it
      requests for its own best waiter covers whoever is above the caller's base; everything else,
      `wait` included, requests what it makes due. */
  lemma PreemptionKeptIff(s: Sys, op: Op)
    requires Inv(s) && Enabled(s, op) && NoMissedPreemption(s.k)
    ensures NoMissedPreemption(Step(s, op).k) <==> Covered(s, op)
  {
    if op.Unlock? {
      UnlockPreemptsIff(s, op.m);
    } else if op.CondWait? {
      CondWaitEffect(s, op.c, op.m);
    } else if op.Lock? {
      LockPreempts(s, op.m);
    } else if Inherits(s, op) {
      assert LockerInv(s, s.k.cur);
      LockPreempts(s, s.pcs[s.k.cur].m);
    } else {
      StepKeeps(s, op);
      QuietPreempts(s, op, Step(s, op));
    }
  }

  /** With exact inheritance no step misses a preemption. */
  lemma PreemptionKept(s: Sys, op: Op)
    requires Inv(s) && Enabled(s, op) && ExactInv(s) && NoMissedPreemption(s.k)
    ensures NoMissedPreemption(Step(s, op).k)
  {
    if op.Unlock? {
      ExactUnlockPreempts(s, op.m);
    } else {
      PreemptionKeptIff(s, op);
    }
  }
}
