/** What a tick does to every task, and that a task gets its whole time slice. */
module Quanta {
  import opened Types
  import opened KernelModel
  import opened KernelProofs
  import opened SystemModel
  import opened Runs
  import opened RoundRobin

  // ------------------------------------------------------------------ one tick

  predicate Outranked(k: Kern)
    requires Started(k)
  {
    exists t :: 0 <= t < |k.tasks| && ReadyAbove(k, t)
  }

  predicate ReadyAbove(k: Kern, t: nat)
    requires Started(k) && t < |k.tasks|
  {
    k.tasks[t].state.Ready? && k.tasks[t].priority < k.tasks[k.cur].priority
  }

  predicate HasPeer(k: Kern)
    requires Started(k)
  {
    exists t :: 0 <= t < |k.tasks| && ReadyBeside(k, t)
  }

  predicate ReadyBeside(k: Kern, t: nat)
    requires Started(k) && t < |k.tasks|
  {
    k.tasks[t].state.Ready? && k.tasks[t].priority == k.tasks[k.cur].priority
  }

  /** A sleeper whose deadline has come is Ready with a full quantum; nobody else is touched. */
  predicate WokenIfDue(a: Task, b: Task, now: u64) {
    if a.state.Sleeping? && a.state.deadline <= now then b == a.(state := Ready(a.slice)) else b == a
  }

  /** The tick found the task `c` Running with `rem` ticks left. If a Ready task is above it, the task is
      not charged and a switch is due. Otherwise it is charged one tick; with its last it is given a
      full quantum again, and a switch is due if another Ready task has the same priority. */
  predicate Charged(k: Kern, k': Kern, c: nat, rem: u8)
    requires c < |k.tasks| == |k'.tasks| && k'.cur == c
  {
    var a, b := k.tasks[c], k'.tasks[c];
    if Outranked(k') then b == a && k'.pendsv
    else if rem > 1 then b == a.(state := Running(rem - 1)) && k'.pendsv == k.pendsv
    else b == a.(state := Running(a.slice)) && k'.pendsv == (k.pendsv || HasPeer(k'))
  }

  ghost predicate Ticked(k: Kern, k': Kern)
    requires Started(k)
  {
    && k' == k.(tasks := k'.tasks, tick := k'.tick, pendsv := k'.pendsv) && |k'.tasks| == |k.tasks|
    && k'.tick == (k.tick + 1) % TWO_64
    && if k.tasks[k.cur].state.Running? then
      && (forall t :: 0 <= t < |k.tasks| && t != k.cur ==> WokenIfDue(k.tasks[t], k'.tasks[t], k'.tick))
      && Charged(k, k', k.cur, k.tasks[k.cur].state.rem)
    else k'.tasks == k.tasks && k'.pendsv == k.pendsv
  }

  /** `tick` asks for a switch. */
  predicate Asks(k: Kern, k': Kern)
    requires Started(k) && Started(k')
  {
    k.tasks[k.cur].state.Running? && (Outranked(k') || (k.tasks[k.cur].state.rem <= 1 && HasPeer(k')))
  }

  lemma TickIsExact(k: Kern)
    requires KernelInv(k)
    ensures Ticked(k, SysTick(k)) && (KernelModel.Tick(k).1 <==> Asks(k, SysTick(k)))
  {
    var k1 := k.(tick := WrappingAdd(k.tick, 1));
    if k.tasks[k.cur].state.Running? {
      var k2, k' := WakeSleepers(k1), SysTick(k);
      WakeFromWakes(k1, 0);
      assert forall t :: 0 <= t < |k.tasks| && t != k.cur ==> k'.tasks[t] == k2.tasks[t];
      assert forall t :: 0 <= t < |k.tasks| ==> ReadyAbove(k', t) == Outranker(k2, t);
      assert Outranked(k') == HigherReady(k2);
      if !HigherReady(k2) {
        assert forall t :: 0 <= t < |k.tasks| && ReadyBeside(k', t) ==> t != k.cur && k2.tasks[t].state.Ready?;
        assert HasPeer(k') == PeerReady(k2) by {
          if PeerReady(k2) {
            var t :| 0 <= t < |k.tasks| && t != k.cur && k2.tasks[t].state.Ready?
                     && k2.tasks[t].priority == k2.tasks[k.cur].priority;
            assert ReadyBeside(k', t);
          }
        }
      }
    }
  }

  // ------------------------------------------------------------------ over a run

  /** `c` runs, no switch is due, and no Ready task is above it. */
  predicate Unchallenged(k: Kern, c: nat) {
    Started(k) && k.cur == c && k.tasks[c].state.Running? && !k.pendsv && !Outranked(k)
  }

  /** All along the run `c` is unchallenged. */
  ghost predicate Undisturbed(s: Sys, ops: seq<Op>, c: nat)
    requires Inv(s) && Legal(s, ops)
    decreases |ops|
  {
    Unchallenged(Run(s, ops).k, c) && (ops != [] ==> (Unroll(s, ops); Undisturbed(s, Front(ops), c)))
  }

  /** How far `n` ticks are into a turn. */
  function Into(turn: nat, n: nat): (r: nat)
    requires turn > 0
    ensures r < turn
  {
    if n == 0 then 0 else if Into(turn, n - 1) == turn - 1 then 0 else Into(turn, n - 1) + 1
  }

  lemma {:induction false} IntoIsRemainder(turn: nat, n: nat) returns (q: nat)
    requires turn > 0
    ensures n == q * turn + Into(turn, n)
  {
    if n == 0 {
      q := 0;
    } else {
      q := IntoIsRemainder(turn, n - 1);
      if Into(turn, n) == 0 {
        assert n == q * turn + turn == (q + 1) * turn;
        q := q + 1;
      }
    }
  }

  lemma {:induction false} WholeTurns(turn: nat, d: nat)
    requires d > 0
    ensures d * turn >= turn
  {
    if d > 1 {
      WholeTurns(turn, d - 1);
      assert d * turn == (d - 1) * turn + turn;
    }
  }

  lemma RemaindersAgree(turn: nat, q: nat, r: nat, q': nat, r': nat)
    requires r < turn && q * turn + r == q' * turn + r'
    ensures q >= q'
  {
    if q < q' {
      WholeTurns(turn, q' - q);
      MoreTurns(turn, q, q' - q);
    }
  }

  lemma MoreTurns(turn: nat, q: nat, d: nat)
    ensures (q + d) * turn == q * turn + d * turn
  {
  }

  lemma IntoIsModulo(turn: nat, n: nat)
    requires turn > 0
    ensures Into(turn, n) == n % turn
  {
    var q := IntoIsRemainder(turn, n);
    var q', r' := n / turn, n % turn;
    assert n == q' * turn + r';
    RemaindersAgree(turn, q, Into(turn, n), q', r');
    RemaindersAgree(turn, q', r', q, Into(turn, n));
  }

  /** The running task has used `n` ticks of turns of `max(1, slice)` ticks each. */
  predicate Used(k: Kern, c: nat, slice: u8, n: nat) {
    && c < |k.tasks| && k.tasks[c].state.Running? && k.tasks[c].slice == slice
    && Turn(k.tasks[c].state.rem) == Turn(slice) - Into(Turn(slice), n)
  }

  lemma TickUses(k: Kern, c: nat, slice: u8, n: nat)
    requires KernelInv(k) && Unchallenged(k, c) && Used(k, c, slice, n) && Unchallenged(SysTick(k), c)
    ensures Used(SysTick(k), c, slice, n + 1)
  {
    TickIsExact(k);
  }

  lemma StepUses(s: Sys, op: Op, c: nat, slice: u8, n: nat)
    requires Inv(s) && Enabled(s, op) && Unchallenged(s.k, c) && Used(s.k, c, slice, n)
    requires Unchallenged(Step(s, op).k, c)
    ensures Used(Step(s, op).k, c, slice, n + if op.Tick? then 1 else 0)
  {
    if op.Tick? {
      TickUses(s.k, c, slice, n);
    } else {
      StepKeeps(s, op);
    }
  }

  lemma StepLeadsOn(s: Sys, op: Op, s': Sys, c: nat, slice: u8, n: nat, n': nat)
    requires Inv(s) && Enabled(s, op) && s' == Step(s, op) && Unchallenged(s.k, c) && Unchallenged(s'.k, c)
    requires Used(s.k, c, slice, n) && n' == n + if op.Tick? then 1 else 0
    ensures Used(s'.k, c, slice, n')
  {
    StepUses(s, op, c, slice, n);
  }

  lemma UndisturbedSoFar(s: Sys, ops: seq<Op>, c: nat)
    requires Inv(s) && Legal(s, ops) && Undisturbed(s, ops, c)
    ensures Unchallenged(Run(s, ops).k, c)
    ensures ops != [] ==> Legal(s, Front(ops)) && Undisturbed(s, Front(ops), c)
  {
    if ops != [] {
      Unroll(s, ops);
    }
  }

  lemma {:induction false} RunUses(s: Sys, ops: seq<Op>, c: nat, slice: u8)
    requires Inv(s) && Legal(s, ops) && Undisturbed(s, ops, c) && Used(s.k, c, slice, 0)
    ensures Used(Run(s, ops).k, c, slice, TickCount(ops))
    decreases |ops|
  {
    if ops == [] {
      RunEmpty(s);
    } else {
      UndisturbedSoFar(s, ops, c);
      UndisturbedSoFar(s, Front(ops), c);
      RunUses(s, Front(ops), c, slice);
      Unroll(s, ops);
      StepLeadsOn(Run(s, Front(ops)), Last(ops), Run(s, ops), c, slice, TickCount(Front(ops)), TickCount(ops));
    }
  }

  /** When the next tick takes the processor from `c`, which has used `n` ticks. */
  lemma NextTick(k: Kern, c: nat, slice: u8, n: nat)
    requires KernelInv(k) && Unchallenged(k, c) && Used(k, c, slice, n)
    ensures Started(SysTick(k))
    ensures SysTick(k).pendsv <==> Outranked(SysTick(k)) || ((n + 1) % Turn(slice) == 0 && HasPeer(SysTick(k)))
  {
    TickIsExact(k);
    IntoIsModulo(Turn(slice), n + 1);
  }

  /** A tick that follows `n` ticks of `c` takes the processor from it if and only if it finds a Ready
      task above it, or `n + 1` is a whole multiple of `max(1, slice)` and another Ready task has its
      priority. */
  ghost predicate Granted(s: Sys, slice: u8, n: nat)
    requires Inv(s)
  {
    var k' := Step(s, Op.Tick).k;
    Started(k') && (k'.pendsv <==> Outranked(k') || ((n + 1) % Turn(slice) == 0 && HasPeer(k')))
  }

  lemma NextTickGrants(s: Sys, c: nat, slice: u8, n: nat)
    requires Inv(s) && Unchallenged(s.k, c) && Used(s.k, c, slice, n)
    ensures Granted(s, slice, n)
  {
    NextTick(s.k, c, slice, n);
  }

  /** Every task gets its time slice. A task that starts with a full quantum and runs on undisturbed is
      taken the processor from by a tick if and only if the tick finds a Ready task above it, or is a
      whole multiple of `max(1, time_slice)` of its ticks and another Ready task has its priority. */
  lemma SliceIsGranted(tr: Trace, s: Sys, ops: seq<Op>, c: nat)
    requires Reaches(tr, s) && Inv(s) && Legal(s, ops) && Undisturbed(s, ops, c)
    requires c < |s.k.tasks| && s.k.tasks[c].state == Running(s.k.tasks[c].slice)
    ensures Granted(Run(s, ops), s.k.tasks[c].slice, TickCount(ops))
  {
    var slice := s.k.tasks[c].slice;
    RunUses(s, ops, c, slice);
    UndisturbedSoFar(s, ops, c);
    NextTickGrants(Run(s, ops), c, slice, TickCount(ops));
  }

  lemma SmallModulo(turn: nat, n: nat)
    requires turn > 0
    ensures n < turn ==> n % turn == n
  {
  }

  /** So with nobody above it, a tick does not rotate it out before its `max(1, time_slice)`-th. */
  lemma NotBeforeItsSlice(tr: Trace, s: Sys, ops: seq<Op>, c: nat)
    requires Reaches(tr, s) && Inv(s) && Legal(s, ops) && Undisturbed(s, ops, c)
    requires c < |s.k.tasks| && s.k.tasks[c].state == Running(s.k.tasks[c].slice)
    requires var k' := Step(Run(s, ops), Op.Tick).k; Started(k') && k'.pendsv && !Outranked(k')
    ensures TickCount(ops) + 1 >= Turn(s.k.tasks[c].slice)
  {
    SliceIsGranted(tr, s, ops, c);
    SmallModulo(Turn(s.k.tasks[c].slice), TickCount(ops) + 1);
  }
}
