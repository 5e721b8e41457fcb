/** What PendSV does to every task, and where a task resumes. */
module Switching {
  import opened Types
  import opened KernelModel
  import opened KernelProofs
  import opened SystemModel
  import opened Runs

  // ------------------------------------------------------------------ one switch

  /** Runnable, and no runnable task is of higher priority, nor of the same one and earlier in the cyclic
      order after the current task. */
  ghost predicate Foremost(k: Kern, t: int)
    requires Started(k)
  {
    && 0 <= t < |k.tasks| && Runnable(k.tasks[t])
    && forall u :: 0 <= u < |k.tasks| && Runnable(k.tasks[u]) ==>
      && k.tasks[t].priority <= k.tasks[u].priority
      && (k.tasks[u].priority == k.tasks[t].priority ==> Dist(|k.tasks|, k.cur, t) <= Dist(|k.tasks|, k.cur, u))
  }

  /** The outgoing task keeps what is left of its quantum, and so does the incoming one. */
  predicate Swapped(k: Kern, next: int, sp: int, t: nat, b: Task)
    requires t < |k.tasks|
  {
    var a := k.tasks[t];
    && b.sp == (if t == k.cur then sp else a.sp)
    && b == a.(sp := b.sp, state := b.state)
    && if t == next then b.state.Running? && (a.state == Ready(b.state.rem) || a.state == b.state)
       else if t == k.cur && a.state.Running? then b.state == Ready(a.state.rem)
       else b.state == a.state
  }

  /** PendSV saves the stack pointer of the task it takes the processor from, in that task and nowhere
      else, and changes no state but those of the two tasks involved. */
  lemma SwitchIsExact(k: Kern, sp: int)
    requires KernelInv(k)
    ensures var k' := Switch(k, sp);
      && Foremost(k, k'.cur) && !k'.pendsv && k'.tick == k.tick && k'.lists == k.lists && |k'.tasks| == |k.tasks|
      && forall t :: 0 <= t < |k.tasks| ==> Swapped(k, k'.cur, sp, t, k'.tasks[t])
  {
    var k1 := Retire(k.(pendsv := false), sp);
    SwitchKeeps(k, sp);
    NextIsFirstOfTopTier(k1);
    var y := Next(k1).value;
    forall u | 0 <= u < |k.tasks| && Runnable(k.tasks[u])
      ensures k.tasks[y].priority <= k.tasks[u].priority
      ensures k.tasks[u].priority == k.tasks[y].priority ==> Dist(|k.tasks|, k.cur, y) <= Dist(|k.tasks|, k.cur, u)
    {
      assert NoLater(k1, y, u);
    }
  }

  // ------------------------------------------------------------------ over a run

  lemma TickKeepsSp(k: Kern, t: nat)
    requires KernelInv(k) && t < |k.tasks|
    ensures |SysTick(k).tasks| == |k.tasks| && SysTick(k).tasks[t].sp == k.tasks[t].sp
  {
    WakeFromWakes(k.(tick := WrappingAdd(k.tick, 1)), 0);
  }

  /** Only PendSV writes a stack pointer, and only the current task's. */
  lemma SpIsWrittenBySwitch(s: Sys, op: Op, t: nat)
    requires Inv(s) && Enabled(s, op) && t < |s.k.tasks|
    ensures t < |Step(s, op).k.tasks|
    ensures Step(s, op).k.tasks[t].sp == if op.PendSv? && t == s.k.cur then op.sp else s.k.tasks[t].sp
  {
    if op.PendSv? {
      SwitchIsExact(s.k, op.sp);
      assert Swapped(s.k, Step(s, op).k.cur, op.sp, t, Step(s, op).k.tasks[t]);
    } else if op.Tick? {
      TickKeepsSp(s.k, t);
    } else {
      StepKeeps(s, op);
    }
  }

  /** The stack pointer with which `t` was switched out last, or `sp0` if it never was. */
  ghost function LastSaved(s: Sys, ops: seq<Op>, t: nat, sp0: int): int
    requires Inv(s) && Legal(s, ops)
    decreases |ops|
  {
    if ops == [] then sp0 else
    Unroll(s, ops);
    if Last(ops).PendSv? && Run(s, Front(ops)).k.cur == t then Last(ops).sp else LastSaved(s, Front(ops), t, sp0)
  }

  lemma {:induction false} SpIsLastSaved(s: Sys, ops: seq<Op>, t: nat)
    requires Inv(s) && Legal(s, ops) && t < |s.k.tasks|
    ensures t < |Run(s, ops).k.tasks| && Run(s, ops).k.tasks[t].sp == LastSaved(s, ops, t, s.k.tasks[t].sp)
    decreases |ops|
  {
    if ops == [] {
      RunEmpty(s);
    } else {
      Unroll(s, ops);
      SpIsLastSaved(s, Front(ops), t);
      SpIsWrittenBySwitch(Run(s, Front(ops)), Last(ops), t);
    }
  }

  /** The launch starts a task of highest priority, the one spawned last among those, with its whole time
      slice; nothing else differs from how it was spawned. */
  lemma LaunchIsExact(k0: Kern)
    requires Spawned(k0)
    ensures var k := Launch(k0);
      && |k.tasks| == |k0.tasks| && Started(k) && k == k0.(tasks := k.tasks, cur := k.cur)
      && forall t :: 0 <= t < |k0.tasks| ==>
        k.tasks[t] == if t == k.cur then k0.tasks[t].(state := Running(k0.tasks[t].slice)) else k0.tasks[t]
    ensures var c := Launch(k0).cur; forall t :: 0 <= t < |k0.tasks| ==>
      k0.tasks[c].priority <= k0.tasks[t].priority && (c < t ==> k0.tasks[c].priority < k0.tasks[t].priority)
  {
    LaunchFinds(k0);
    FirstReadyIsFirst(k0, |k0.tasks|);
    forall t | 0 <= t < |k0.tasks|
      ensures k0.tasks[t].state == Ready(k0.tasks[t].slice)
    {
      assert k0.tasks[t] == NewTask(k0.tasks[t].sp, k0.tasks[t].base, k0.tasks[t].slice);
    }
  }

  /** No step adds or removes a task. */
  lemma {:induction false} TasksStay(s: Sys, ops: seq<Op>)
    requires Inv(s) && Legal(s, ops)
    ensures |Run(s, ops).k.tasks| == |s.k.tasks|
    decreases |ops|
  {
    if ops == [] {
      RunEmpty(s);
    } else {
      Unroll(s, ops);
      TasksStay(s, Front(ops));
      OneStepKeepsTasks(Run(s, Front(ops)), Last(ops));
    }
  }

  lemma OneStepKeepsTasks(s: Sys, op: Op)
    requires Inv(s) && Enabled(s, op)
    ensures |Step(s, op).k.tasks| == |s.k.tasks|
  {
    if op.PendSv? {
      SwitchIsExact(s.k, op.sp);
    } else if op.Tick? {
      TickKeeps(s.k);
    } else {
      StepKeeps(s, op);
    }
  }

  /** What a task's control block holds as its stack pointer. */
  lemma SavedSince(tr: Trace, s: Sys, t: nat)
    requires Reaches(tr, s) && t < |s.k.tasks|
    ensures Inv(tr.boot) && Legal(tr.boot, tr.ops) && |s.k.tasks| == |tr.spawned.tasks|
    ensures s.k.tasks[t].sp == LastSaved(tr.boot, tr.ops, t, tr.spawned.tasks[t].sp)
  {
    BootInv(tr.spawned, tr.boot);
    LaunchIsExact(tr.spawned);
    TasksStay(tr.boot, tr.ops);
    SpIsLastSaved(tr.boot, tr.ops, t);
  }

  /** In every run every task resumes where it left off: the stack pointer that a switch hands out is
      the one with which the selected task was last switched out, or the one it was spawned with. */
  lemma ResumesWhereItLeftOff(tr: Trace, s: Sys, sp: int)
    requires Reaches(tr, s) && s.k.pendsv && Inv(s)
    ensures Inv(tr.boot) && Legal(tr.boot, tr.ops)
    ensures var k' := Step(s, PendSv(sp)).k;
      && 0 <= k'.cur < |k'.tasks| == |tr.spawned.tasks|
      && k'.tasks[k'.cur].sp == if k'.cur == s.k.cur then sp
                                else LastSaved(tr.boot, tr.ops, k'.cur, tr.spawned.tasks[k'.cur].sp)
  {
    SwitchIsExact(s.k, sp);
    var next := Step(s, PendSv(sp)).k.cur;
    SavedSince(tr, s, next);
    SpIsWrittenBySwitch(s, PendSv(sp), next);
  }
}
