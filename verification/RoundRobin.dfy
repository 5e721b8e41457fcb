/** Equal priorities take turns. */
module RoundRobin {
  import opened Types
  import opened Seqs
  import opened KernelModel
  import opened KernelProofs
  import opened SystemModel
  import opened Runs
  import opened CyclicSums

  /** `tier` is the set of the runnable tasks of minimum priority value `p`. */
  ghost predicate TopTier(k: Kern, tier: set<nat>, p: u8) {
    && (forall t :: t in tier ==> t < |k.tasks|)
    && forall t :: 0 <= t < |k.tasks| ==> InTier(k, tier, p, t)
  }

  predicate InTier(k: Kern, tier: set<nat>, p: u8, t: nat)
    requires t < |k.tasks|
  {
    && (t in tier <==> Runnable(k.tasks[t]) && k.tasks[t].priority == p)
    && (Runnable(k.tasks[t]) ==> p <= k.tasks[t].priority)
  }

  function Rem(t: Task): nat {
    match t.state
    case Ready(r) => r
    case Running(r) => r
    case _ => 0
  }

  /** The ticks a task runs before its quantum expires. */
  function Turn(rem: nat): nat {
    if rem == 0 then 1 else rem
  }

  function Weight(k: Kern, tier: set<nat>, t: nat): nat
    requires t < |k.tasks|
  {
    if t in tier then Turn(Rem(k.tasks[t])) else 0
  }

  function Weights(k: Kern, tier: set<nat>): (w: seq<nat>)
    ensures |w| == |k.tasks| && forall t :: 0 <= t < |w| ==> w[t] == Weight(k, tier, t)
  {
    seq(|k.tasks|, t requires 0 <= t < |k.tasks| => Weight(k, tier, t))
  }

  /** The ticks before `x` is selected: what is left of the running task's turn, and the turns of the
      tasks of the tier that come before `x` in the search order. */
  function Potential(k: Kern, tier: set<nat>, x: nat): nat
    requires Started(k) && x < |k.tasks|
  {
    (if k.pendsv then 0 else Weight(k, tier, k.cur)) + Along(Weights(k, tier), k.cur, Dist(|k.tasks|, k.cur, x))
  }

  /** A tick that is delivered while no switch is due. */
  predicate Counted(s: Sys, op: Op) {
    op.Tick? && !s.k.pendsv
  }

  // ------------------------------------------------------------------ the potential never rises

  /** Nobody between the current task and `x` is touched. */
  lemma AheadStays(k: Kern, k': Kern, tier: set<nat>, x: nat)
    requires Started(k) && |k'.tasks| == |k.tasks| && k'.cur == k.cur && x < |k.tasks|
    requires forall t :: 0 <= t < |k.tasks| && t != k.cur ==> Weight(k', tier, t) == Weight(k, tier, t)
    ensures var d := Dist(|k.tasks|, k.cur, x); Along(Weights(k', tier), k.cur, d) == Along(Weights(k, tier), k.cur, d)
  {
    var n, d := |k.tasks|, Dist(|k.tasks|, k.cur, x);
    forall e | 0 <= e < d
      ensures Weights(k', tier)[Visit(n, k.cur, e)] == Weights(k, tier)[Visit(n, k.cur, e)]
    {
      assert Visit(n, k.cur, e) != k.cur;
    }
    AlongSame(Weights(k, tier), Weights(k', tier), k.cur, d);
  }

  /** The other tasks of the tier are Ready, so their quanta stay. */
  lemma SteadyWeights(k: Kern, k': Kern, tier: set<nat>, p: u8)
    requires Steady(k, k') && TopTier(k, tier, p)
    ensures forall t :: 0 <= t < |k.tasks| && t != k.cur ==> Weight(k', tier, t) == Weight(k, tier, t)
  {
    forall t | 0 <= t < |k.tasks| && t != k.cur
      ensures Weight(k', tier, t) == Weight(k, tier, t)
    {
      assert InTier(k, tier, p, t);
    }
  }

  lemma SteadyPotential(k: Kern, k': Kern, tier: set<nat>, p: u8, x: nat)
    requires Steady(k, k') && TopTier(k, tier, p) && x < |k.tasks|
    ensures Potential(k', tier, x) <= Potential(k, tier, x)
  {
    SteadyWeights(k, k', tier, p);
    AheadStays(k, k', tier, x);
  }

  /** The running task is in the tier. */
  lemma RunnerInTier(k: Kern, tier: set<nat>, p: u8)
    requires KernelInv(k) && NoMissedPreemption(k) && !k.pendsv && TopTier(k, tier, p) && tier != {}
    ensures k.cur in tier && k.tasks[k.cur].priority == p
  {
    var t :| t in tier;
    assert InTier(k, tier, p, t) && InTier(k, tier, p, k.cur);
    assert k.tasks[t].state.Ready? ==> !Outranks(k, t);
  }

  lemma TickWeights(k: Kern, tier: set<nat>, p: u8)
    requires KernelInv(k) && TopTier(k, tier, p)
    ensures var k' := SysTick(k);
      && |k'.tasks| == |k.tasks| && k'.cur == k.cur && (k.pendsv ==> k'.pendsv)
      && forall t :: 0 <= t < |k.tasks| && t != k.cur ==> Weight(k', tier, t) == Weight(k, tier, t)
  {
    WakeFromWakes(k.(tick := WrappingAdd(k.tick, 1)), 0);
    forall t | 0 <= t < |k.tasks| && t != k.cur
      ensures Weight(SysTick(k), tier, t) == Weight(k, tier, t)
    {
      assert InTier(k, tier, p, t);
    }
  }

  /** A counted tick uses up one tick of the running task's turn, or ends it: with a peer that is
      Ready the expiry requests a switch. */
  lemma TickSpends(k: Kern, tier: set<nat>, p: u8, x: nat)
    requires KernelInv(k) && NoMissedPreemption(k) && !k.pendsv && TopTier(k, tier, p) && x in tier && x != k.cur
    ensures var k' := SysTick(k);
      k'.cur == k.cur && |k'.tasks| == |k.tasks| && (!k'.pendsv ==> Weight(k', tier, k.cur) < Weight(k, tier, k.cur))
  {
    RunnerInTier(k, tier, p);
    assert InTier(k, tier, p, x);
    var k1 := k.(tick := WrappingAdd(k.tick, 1));
    var k2 := WakeSleepers(k1);
    WakeFromWakes(k1, 0);
    if !HigherReady(k2) {
      assert k2.tasks[x] == k.tasks[x] && k2.tasks[x].state.Ready?;
      assert PeerReady(k2);
    }
  }

  lemma TickPotential(k: Kern, tier: set<nat>, p: u8, x: nat)
    requires KernelInv(k) && NoMissedPreemption(k) && TopTier(k, tier, p) && x in tier && x != k.cur
    ensures SysTick(k).cur == k.cur && |SysTick(k).tasks| == |k.tasks|
    ensures Potential(SysTick(k), tier, x) + (if k.pendsv then 0 else 1) <= Potential(k, tier, x)
  {
    TickWeights(k, tier, p);
    AheadStays(k, SysTick(k), tier, x);
    if !k.pendsv {
      RunnerInTier(k, tier, p);
      TickSpends(k, tier, p, x);
    }
  }

  // ------------------------------------------------------------------ the switch

  /** PendSV selects the first task of the tier after the current one. */
  lemma SwitchSelects(k: Kern, sp: int, tier: set<nat>, p: u8)
    requires KernelInv(k) && TopTier(k, tier, p) && tier != {}
    ensures var k' := Switch(k, sp);
      && |k'.tasks| == |k.tasks| && Started(k') && k'.cur in tier && !k'.pendsv
      && (forall t :: t in tier ==> Dist(|k.tasks|, k.cur, k'.cur) <= Dist(|k.tasks|, k.cur, t))
      && forall t :: 0 <= t < |k.tasks| ==> Rem(k'.tasks[t]) == Rem(k.tasks[t])
  {
    var k1 := Retire(k.(pendsv := false), sp);
    SwitchKeeps(k, sp);
    NextIsFirstOfTopTier(k1);
    var y := Next(k1).value;
    var u :| u in tier;
    assert InTier(k, tier, p, u) && InTier(k, tier, p, y);
    assert NoLater(k1, y, u);
    forall t | t in tier
      ensures Dist(|k.tasks|, k.cur, y) <= Dist(|k.tasks|, k.cur, t)
    {
      assert InTier(k, tier, p, t) && NoLater(k1, y, t);
    }
  }

  lemma DistSplits(n: nat, c: nat, y: nat, x: nat)
    requires c < n && y < n && x < n && Dist(n, c, y) < Dist(n, c, x)
    ensures Dist(n, y, x) == Dist(n, c, x) - Dist(n, c, y) - 1
    ensures Visit(n, c, Dist(n, c, y)) == y
  {
  }

  lemma VisitInverse(n: nat, c: nat, x: nat)
    requires c < n && x < n
    ensures Visit(n, c, Dist(n, c, x)) == x
  {
  }

  lemma NoneSkipped(w: seq<nat>, c: nat, y: nat)
    requires c < |w| && y < |w|
    requires forall t :: 0 <= t < |w| && w[t] != 0 ==> Dist(|w|, c, y) <= Dist(|w|, c, t)
    ensures Along(w, c, Dist(|w|, c, y)) == 0
  {
    var d := Dist(|w|, c, y);
    forall i | 0 <= i < d
      ensures w[Visit(|w|, c, i)] == 0
    {
      assert Dist(|w|, c, Visit(|w|, c, i)) == i;
    }
    AlongZero(w, c, d);
  }

  /** The way from `c` past `y`, with no weight before `y`. */
  lemma AlongPast(w: seq<nat>, c: nat, d: nat, y: nat, m: nat, e: nat)
    requires c < |w| && e == d + 1 + m <= |w| && y == Visit(|w|, c, d) && Along(w, c, d) == 0
    ensures Along(w, c, e) == w[y] + Along(w, y, m)
  {
    AlongShift(w, c, d, m);
  }

  /** The tasks skipped are not in the tier, and the one selected brings its own turn. */
  lemma SwitchPotential(k: Kern, sp: int, tier: set<nat>, p: u8, x: nat)
    requires KernelInv(k) && TopTier(k, tier, p) && x in tier && Switch(k, sp).cur != x
    ensures Started(Switch(k, sp)) && |Switch(k, sp).tasks| == |k.tasks|
    ensures Potential(Switch(k, sp), tier, x) <= Potential(k, tier, x)
  {
    var k', w, n, c := Switch(k, sp), Weights(k, tier), |k.tasks|, k.cur;
    SwitchSelects(k, sp, tier, p);
    var y := k'.cur;
    assert Weights(k', tier) == w;
    VisitInverse(n, c, y);
    VisitInverse(n, c, x);
    DistSplits(n, c, y, x);
    NoneSkipped(w, c, y);
    AlongPast(w, c, Dist(n, c, y), y, Dist(n, y, x), Dist(n, c, x));
  }

  /** `yield_now` gives way: with a peer the switch it requests selects another task of the tier, and
      what the caller keeps of its turn is a single tick. */
  lemma YieldGivesWay(k: Kern, sp: int, tier: set<nat>, p: u8, x: nat)
    requires KernelInv(k) && NoMissedPreemption(k) && !k.pendsv && TopTier(k, tier, p) && x in tier && x != k.cur
    ensures var k1 := KernelModel.Yield(k); var k' := Switch(k1, sp);
      && k1.pendsv && k'.cur in tier && k'.cur != k.cur && !k'.pendsv
      && k.cur < |k'.tasks| && Weight(k', tier, k.cur) == 1
  {
    RunnerInTier(k, tier, p);
    YieldIsCalm(k);
    var k1 := KernelModel.Yield(k);
    forall t | 0 <= t < |k.tasks|
      ensures InTier(k1, tier, p, t)
    {
      assert InTier(k, tier, p, t);
    }
    SwitchSelects(k1, sp, tier, p);
    assert Dist(|k.tasks|, k.cur, x) < Dist(|k.tasks|, k.cur, k.cur);
  }

  // ------------------------------------------------------------------ over a run

  lemma StepPotential(s: Sys, op: Op, tier: set<nat>, p: u8, x: nat)
    requires Inv(s) && Enabled(s, op) && NoMissedPreemption(s.k)
    requires TopTier(s.k, tier, p) && x in tier && x != s.k.cur && Step(s, op).k.cur != x
    ensures Started(Step(s, op).k) && |Step(s, op).k.tasks| == |s.k.tasks|
    ensures Potential(Step(s, op).k, tier, x) + (if Counted(s, op) then 1 else 0) <= Potential(s.k, tier, x)
  {
    if op.Tick? {
      TickPotential(s.k, tier, p, x);
    } else if op.PendSv? {
      SwitchPotential(s.k, op.sp, tier, p, x);
    } else {
      StepKeeps(s, op);
      QuietPotential(s, op, Step(s, op), tier, p, x);
    }
  }

  lemma QuietPotential(s: Sys, op: Op, s': Sys, tier: set<nat>, p: u8, x: nat)
    requires Started(s.k) && |s.pcs| == |s.k.tasks| && StepOk(s, op, s') && !op.Tick? && !op.PendSv?
    requires TopTier(s.k, tier, p) && x in tier
    ensures Started(s'.k) && |s'.k.tasks| == |s.k.tasks| && Potential(s'.k, tier, x) <= Potential(s.k, tier, x)
  {
    SteadyPotential(s.k, s'.k, tier, p, x);
  }

  /** All along the run the tier is the same, no preemption is missed, and `x` is not selected. */
  ghost predicate Waiting(s: Sys, ops: seq<Op>, tier: set<nat>, p: u8, x: nat)
    requires Inv(s) && Legal(s, ops)
    decreases |ops|
  {
    && TopTier(Run(s, ops).k, tier, p) && NoMissedPreemption(Run(s, ops).k) && Run(s, ops).k.cur != x
    && (ops != [] ==> (Unroll(s, ops); Waiting(s, Front(ops), tier, p, x)))
  }

  ghost function CountedTicks(s: Sys, ops: seq<Op>): nat
    requires Inv(s) && Legal(s, ops)
    decreases |ops|
  {
    if ops == [] then 0 else
    Unroll(s, ops);
    CountedTicks(s, Front(ops)) + if Counted(Run(s, Front(ops)), Last(ops)) then 1 else 0
  }

  lemma {:induction false} PotentialFalls(s: Sys, ops: seq<Op>, tier: set<nat>, p: u8, x: nat)
    requires Inv(s) && Legal(s, ops) && x in tier && Waiting(s, ops, tier, p, x)
    ensures TopTier(s.k, tier, p) && x < |s.k.tasks| && |Run(s, ops).k.tasks| == |s.k.tasks|
    ensures CountedTicks(s, ops) + Potential(Run(s, ops).k, tier, x) <= Potential(s.k, tier, x)
    decreases |ops|
  {
    if ops == [] {
      RunEmpty(s);
    } else {
      Unroll(s, ops);
      PotentialFalls(s, Front(ops), tier, p, x);
      StepPotential(Run(s, Front(ops)), Last(ops), tier, p, x);
    }
  }

  /** The time slices, at least one tick each, of the tasks of the tier other than `x` below `i`. */
  function Slices(k: Kern, tier: set<nat>, x: nat, i: nat): nat
    requires i <= |k.tasks|
  {
    if i == 0 then 0 else
    Slices(k, tier, x, i - 1) + if i - 1 in tier && i - 1 != x then Turn(k.tasks[i - 1].slice) else 0
  }

  lemma {:induction false} SlicesBound(k: Kern, tier: set<nat>, x: nat, i: nat)
    requires i <= |k.tasks| && x < |k.tasks| && forall t :: 0 <= t < |k.tasks| ==> SliceOk(k.tasks[t])
    ensures Sum(Weights(k, tier)[x := 0], i) <= Slices(k, tier, x, i)
  {
    if i > 0 {
      SlicesBound(k, tier, x, i - 1);
    }
  }

  /** No task before `x` has more than a full turn. */
  lemma PotentialBound(k: Kern, tier: set<nat>, x: nat)
    requires KernelInv(k) && x < |k.tasks| && x != k.cur
    ensures Potential(k, tier, x) <= Slices(k, tier, x, |k.tasks|)
  {
    var n, c, w := |k.tasks|, k.cur, Weights(k, tier);
    var v, d := w[x := 0], Dist(|k.tasks|, k.cur, x);
    assert Visit(n, c, n - 1) == c && d < n - 1;
    forall e | 0 <= e < d
      ensures v[Visit(n, c, e)] == w[Visit(n, c, e)]
    {
      assert Dist(n, c, Visit(n, c, e)) == e;
    }
    AlongSame(w, v, c, d);
    AlongGrows(v, c, d, n - 1);
    AlongAll(v, c);
    SlicesBound(k, tier, x, n);
  }

  /** All ticks of the run. */
  function TickCount(ops: seq<Op>): nat
    decreases |ops|
  {
    if ops == [] then 0 else TickCount(Front(ops)) + if Last(ops).Tick? then 1 else 0
  }

  /** The ticks that found a switch due, which the hardware would have taken first. */
  ghost function LateTicks(s: Sys, ops: seq<Op>): nat
    requires Inv(s) && Legal(s, ops)
    decreases |ops|
  {
    if ops == [] then 0 else
    Unroll(s, ops);
    LateTicks(s, Front(ops)) + if Last(ops).Tick? && Run(s, Front(ops)).k.pendsv then 1 else 0
  }

  lemma {:induction false} TicksSplit(s: Sys, ops: seq<Op>)
    requires Inv(s) && Legal(s, ops)
    ensures TickCount(ops) == CountedTicks(s, ops) + LateTicks(s, ops)
    decreases |ops|
  {
    if ops != [] {
      Unroll(s, ops);
      TicksSplit(s, Front(ops));
    }
  }

  /** Bounded waiting: as long as the top tier is a fixed set, a Ready task of the tier that has not
      been selected yet has seen at most the time slices of the others, at least a tick each, and the
      ticks that came while a switch was due. */
  lemma BoundedWait(s: Sys, ops: seq<Op>, tier: set<nat>, p: u8, x: nat)
    requires Inv(s) && Legal(s, ops) && x in tier && x < |s.k.tasks| && Waiting(s, ops, tier, p, x)
    ensures TickCount(ops) <= Slices(s.k, tier, x, |s.k.tasks|) + LateTicks(s, ops)
  {
    TicksSplit(s, ops);
    PotentialFalls(s, ops, tier, p, x);
    StartsWaiting(s, ops, tier, p, x);
    PotentialBound(s.k, tier, x);
  }

  lemma {:induction false} StartsWaiting(s: Sys, ops: seq<Op>, tier: set<nat>, p: u8, x: nat)
    requires Inv(s) && Legal(s, ops) && Waiting(s, ops, tier, p, x)
    ensures x != s.k.cur
    decreases |ops|
  {
    if ops == [] {
      RunEmpty(s);
    } else {
      Unroll(s, ops);
      StartsWaiting(s, Front(ops), tier, p, x);
    }
  }

  // ------------------------------------------------------------------ taking turns

  /** How many tasks of the tier are below `t`. */
  function Rank(tier: set<nat>, t: nat): nat {
    if t == 0 then 0 else Rank(tier, t - 1) + if t - 1 in tier then 1 else 0
  }

  lemma {:induction false} RankGrows(tier: set<nat>, t: nat, u: nat)
    requires t <= u
    ensures Rank(tier, t) <= Rank(tier, u)
    ensures t in tier && t < u ==> Rank(tier, t) < Rank(tier, u)
  {
    if t < u {
      RankGrows(tier, t, u - 1);
    }
  }

  lemma {:induction false} RankSkips(tier: set<nat>, t: nat, u: nat)
    requires t <= u && forall i :: t <= i < u ==> i !in tier
    ensures Rank(tier, t) == Rank(tier, u)
  {
    if t < u {
      RankSkips(tier, t, u - 1);
    }
  }

  /** A task's rank tells it from the rest of the tier. */
  lemma RankInjective(tier: set<nat>, t: nat, u: nat)
    requires t in tier && u in tier && Rank(tier, t) == Rank(tier, u)
    ensures t == u
  {
    if t < u {
      RankGrows(tier, t, u);
    } else if u < t {
      RankGrows(tier, u, t);
    }
  }

  /** The rank after a switch: the next lower one, and from the lowest back to the highest. */
  function Turned(rank: nat, size: nat): nat
    requires size > 0
  {
    if rank == 0 then size - 1 else rank - 1
  }

  /** No task of the tier comes before `y` in the search order after `c`. */
  ghost predicate Earliest(tier: set<nat>, n: nat, c: nat, y: nat)
    requires c < n && y < n
  {
    forall t :: t in tier ==> t < n && Dist(n, c, y) <= Dist(n, c, t)
  }

  lemma NoneBetween(tier: set<nat>, n: nat, c: nat, y: nat)
    requires c < n && y < n && Earliest(tier, n, c, y)
    ensures y < c ==> forall i :: y + 1 <= i < c ==> i !in tier
    ensures y >= c ==> (forall i :: 0 <= i < c ==> i !in tier) && forall i :: y + 1 <= i < n ==> i !in tier
  {
  }

  /** The first task of the tier in the search order after `c` is its successor by rank. */
  lemma NextRank(tier: set<nat>, n: nat, c: nat, y: nat)
    requires c < n && y < n && y in tier && Earliest(tier, n, c, y)
    ensures Rank(tier, n) > 0 && Rank(tier, y) == Turned(Rank(tier, c), Rank(tier, n))
  {
    RankGrows(tier, y, n);
    NoneBetween(tier, n, c, y);
    if y < c {
      RankSkips(tier, y + 1, c);
    } else {
      RankSkips(tier, 0, c);
      RankSkips(tier, y + 1, n);
    }
  }

  /** All of the tier is counted. */
  lemma {:induction false} RankCounts(tier: set<nat>, n: nat)
    ensures Rank(tier, n) == |set t | t in tier && t < n|
  {
    var low := set t | t in tier && t < n;
    if n == 0 {
      assert low == {};
    } else {
      RankCounts(tier, n - 1);
      var rest := set t | t in tier && t < n - 1;
      assert low == rest + (if n - 1 in tier then {n - 1} else {});
    }
  }

  /** The rank after `i + 1` switches from rank `r`, up to once around. */
  function Place(r: nat, size: nat, i: nat): int {
    if i < r then r - 1 - i else size + r - 1 - i
  }

  /** The tasks selected by the switches of the run, in order. */
  ghost function Selections(s: Sys, ops: seq<Op>): seq<nat>
    requires Inv(s) && Legal(s, ops)
    decreases |ops|
  {
    if ops == [] then [] else
    Unroll(s, ops);
    Selections(s, Front(ops)) + if Last(ops).PendSv? then [Run(s, ops).k.cur] else []
  }

  /** All along the run the tier is the same. */
  ghost predicate Fixed(s: Sys, ops: seq<Op>, tier: set<nat>, p: u8)
    requires Inv(s) && Legal(s, ops)
    decreases |ops|
  {
    TopTier(Run(s, ops).k, tier, p) && (ops != [] ==> (Unroll(s, ops); Fixed(s, Front(ops), tier, p)))
  }

  /** Whoever is current changes at a switch only, and then to the successor by rank. */
  lemma StepTurns(s: Sys, op: Op, tier: set<nat>, p: u8)
    requires Inv(s) && Enabled(s, op) && TopTier(s.k, tier, p) && tier != {}
    ensures var k' := Step(s, op).k;
      && |k'.tasks| == |s.k.tasks| && Started(k')
      && if op.PendSv? then k'.cur in tier && Rank(tier, |s.k.tasks|) > 0
                            && Rank(tier, k'.cur) == Turned(Rank(tier, s.k.cur), Rank(tier, |s.k.tasks|))
         else k'.cur == s.k.cur
  {
    if op.PendSv? {
      SwitchSelects(s.k, op.sp, tier, p);
      NextRank(tier, |s.k.tasks|, s.k.cur, Step(s, op).k.cur);
    } else if op.Tick? {
      TickWeights(s.k, tier, p);
    } else {
      StepKeeps(s, op);
    }
  }

  /** The selections follow each other by rank, from the task of rank `r`. */
  ghost predicate TurnsFrom(tier: set<nat>, size: nat, r: nat, sel: seq<nat>) {
    forall i :: 0 <= i < |sel| ==> sel[i] in tier && Rank(tier, sel[i]) == Place(r, size, i)
  }

  lemma TurnsOn(tier: set<nat>, size: nat, r: nat, sel: seq<nat>, c: nat, y: nat)
    requires TurnsFrom(tier, size, r, sel) && |sel| < size && r <= size && y in tier
    requires Rank(tier, c) == if sel == [] then r else Place(r, size, |sel| - 1)
    requires Rank(tier, y) == Turned(Rank(tier, c), size)
    ensures TurnsFrom(tier, size, r, sel + [y])
  {
  }

  /** Where the current task stands after the selections `sel` from `c0`. */
  ghost predicate Turning(k: Kern, tier: set<nat>, n: nat, c0: nat, sel: seq<nat>) {
    && |k.tasks| == n && TurnsFrom(tier, Rank(tier, n), Rank(tier, c0), sel)
    && k.cur == if sel == [] then c0 else sel[|sel| - 1]
  }

  lemma TurnStep(s: Sys, op: Op, tier: set<nat>, p: u8, c0: nat, sel: seq<nat>)
    requires Inv(s) && Enabled(s, op) && TopTier(s.k, tier, p) && tier != {}
    requires c0 < |s.k.tasks| && Turning(s.k, tier, |s.k.tasks|, c0, sel)
    requires |sel| + (if op.PendSv? then 1 else 0) <= Rank(tier, |s.k.tasks|)
    ensures var k' := Step(s, op).k;
      k'.cur >= 0 && Turning(k', tier, |s.k.tasks|, c0, sel + if op.PendSv? then [k'.cur] else [])
  {
    StepTurns(s, op, tier, p);
    if op.PendSv? {
      RankGrows(tier, c0, |s.k.tasks|);
      TurnsOn(tier, Rank(tier, |s.k.tasks|), Rank(tier, c0), sel, s.k.cur, Step(s, op).k.cur);
    }
  }

  lemma {:induction false} SelectionsTurn(s: Sys, ops: seq<Op>, tier: set<nat>, p: u8)
    requires Inv(s) && Legal(s, ops) && Fixed(s, ops, tier, p) && tier != {}
    requires |Selections(s, ops)| <= Rank(tier, |s.k.tasks|)
    ensures Turning(Run(s, ops).k, tier, |s.k.tasks|, s.k.cur, Selections(s, ops))
    decreases |ops|
  {
    if ops == [] {
      RunEmpty(s);
    } else {
      Unroll(s, ops);
      SelectionsTurn(s, Front(ops), tier, p);
      TurnStep(Run(s, Front(ops)), Last(ops), tier, p, s.k.cur, Selections(s, Front(ops)));
    }
  }

  /** Once around, every task of the tier has its place. */
  lemma OnceAround(tier: set<nat>, n: nat, r: nat, sel: seq<nat>)
    requires TurnsFrom(tier, |tier|, r, sel) && |sel| == |tier| == Rank(tier, n) && r <= |tier|
    requires forall t :: t in tier ==> t < n
    ensures NoDup(sel) && forall t :: t in tier <==> t in sel
  {
    forall t | t in tier
      ensures t in sel
    {
      RankGrows(tier, t, n);
      var q := Rank(tier, t);
      var i := if q < r then r - 1 - q else |tier| + r - 1 - q;
      RankInjective(tier, t, sel[i]);
    }
  }

  lemma {:induction false} StartsFixed(s: Sys, ops: seq<Op>, tier: set<nat>, p: u8)
    requires Inv(s) && Legal(s, ops) && Fixed(s, ops, tier, p)
    ensures TopTier(s.k, tier, p)
    decreases |ops|
  {
    if ops == [] {
      RunEmpty(s);
    } else {
      Unroll(s, ops);
      StartsFixed(s, Front(ops), tier, p);
    }
  }

  /** Fairness: as long as the top tier is a fixed set of `k` tasks, any `k` consecutive switches
      select each of them exactly once. */
  lemma EachTakesOneTurn(s: Sys, ops: seq<Op>, tier: set<nat>, p: u8)
    requires Inv(s) && Legal(s, ops) && Fixed(s, ops, tier, p) && tier != {}
    requires |Selections(s, ops)| == |tier|
    ensures NoDup(Selections(s, ops)) && forall t :: t in tier <==> t in Selections(s, ops)
  {
    var n, r := |s.k.tasks|, Rank(tier, s.k.cur);
    StartsFixed(s, ops, tier, p);
    RankCounts(tier, n);
    assert tier == set t | t in tier && t < n;
    SelectionsTurn(s, ops, tier, p);
    RankGrows(tier, s.k.cur, n);
    OnceAround(tier, n, r, Selections(s, ops));
  }
}
