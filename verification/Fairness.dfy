/** Bounded waiting in runs where no preemption is missed. */
module Fairness {
  import opened Types
  import opened SystemModel
  import opened Runs
  import opened Nesting
  import opened RoundRobin

  /** `x` is not the current task anywhere along the run. */
  ghost predicate NeverSelected(s: Sys, ops: seq<Op>, x: nat)
    requires Inv(s) && Legal(s, ops)
    decreases |ops|
  {
    Run(s, ops).k.cur != x && (ops != [] ==> (Unroll(s, ops); NeverSelected(s, Front(ops), x)))
  }

  lemma {:induction false} WaitsAllAlong(s: Sys, ops: seq<Op>, tier: set<nat>, p: u8, x: nat)
    requires Inv(s) && Legal(s, ops) && NeverMissed(s, ops)
    requires Fixed(s, ops, tier, p) && NeverSelected(s, ops, x)
    ensures Waiting(s, ops, tier, p, x)
    decreases |ops|
  {
    if ops != [] {
      Unroll(s, ops);
      WaitsAllAlong(s, Front(ops), tier, p, x);
    }
  }

  /** While no `unlock` misses a preemption and the top tier is a fixed set, a task of the tier that has
      not been selected has seen no more ticks than the others' time slices, at least one each, and
      those that came while a switch was due. */
  lemma RoundRobinIsBounded(tr: Trace, s: Sys, ops: seq<Op>, tier: set<nat>, p: u8, x: nat)
    requires CoveredReaches(tr, s) && Inv(s) && Legal(s, ops) && CoveredRun(s, ops)
    requires Fixed(s, ops, tier, p) && x in tier && x < |s.k.tasks| && NeverSelected(s, ops, x)
    ensures TickCount(ops) <= Slices(s.k, tier, x, |s.k.tasks|) + LateTicks(s, ops)
  {
    PreemptionHoldsIff(tr, s);
    CoveredIff(s, ops);
    WaitsAllAlong(s, ops, tier, p, x);
    BoundedWait(s, ops, tier, p, x);
  }
}
