/** The kernel's state as a value, and the effect of each scheduler helper on it.

    A task is named by its spawn index. `spawn_into` prepends to `ALL_TASKS`, so walking that
    list visits the names downwards, and the idle task, registered last, has the largest name. */
module KernelModel {
  import opened Types
  import opened Seqs

  /** `TaskState`, with the wait list named instead of linked. `Popped` is the moment between
      `wait_list_pop_highest` and `unblock`: blocked, and on no list. */
  datatype Phase =
    | Ready(rem: u8)
    | Running(rem: u8)
    | Blocked(on: ListId)
    | Popped
    | Sleeping(deadline: u64)
    | Dead

  datatype Task = Task(sp: int, state: Phase, priority: u8, base: u8, slice: u8, ptr: WaitPtr)

  /** `cur` is -1 for a null `CURRENT`. A wait list that is not in `lists` is empty. */
  datatype Kern = Kern(tasks: seq<Task>, cur: int, tick: u64, pendsv: bool, lists: map<ListId, seq<nat>>)

  predicate Runnable(t: Task) {
    t.state.Ready? || t.state.Running?
  }

  /** The wait list `l`, in link order. */
  function Q(k: Kern, l: ListId): seq<nat> {
    if l in k.lists then k.lists[l] else []
  }

  predicate Started(k: Kern) {
    0 <= k.cur < |k.tasks|
  }

  // ------------------------------------------------------------------ invariants

  /** Every wait list is free of repetition and holds exactly the tasks blocked on it. Since a
      task is blocked on one list at most, the lists are pairwise disjoint. */
  ghost predicate WaitInv(k: Kern) {
    && (forall l: ListId :: ListOk(k, l))
    && (forall t :: 0 <= t < |k.tasks| ==> OnItsList(k, t))
  }

  predicate OnItsList(k: Kern, t: nat)
    requires t < |k.tasks|
  {
    k.tasks[t].state.Blocked? ==> t in Q(k, k.tasks[t].state.on)
  }

  ghost predicate ListOk(k: Kern, l: ListId) {
    && NoDup(Q(k, l))
    && forall j :: 0 <= j < |Q(k, l)| ==> Q(k, l)[j] < |k.tasks| && k.tasks[Q(k, l)[j]].state == Blocked(l)
  }

  /** Only `CURRENT` is ever Running. */
  ghost predicate OneRunning(k: Kern) {
    && -1 <= k.cur < |k.tasks|
    && forall t :: 0 <= t < |k.tasks| && k.tasks[t].state.Running? ==> t == k.cur
  }

  // ------------------------------------------------------------------ single updates

  function SetTask(k: Kern, t: nat, task: Task): Kern
    requires t < |k.tasks|
  {
    k.(tasks := k.tasks[t := task])
  }

  function SetState(k: Kern, t: nat, p: Phase): Kern
    requires t < |k.tasks|
  {
    SetTask(k, t, k.tasks[t].(state := p))
  }

  function SetPtr(k: Kern, t: nat, p: WaitPtr): Kern
    requires t < |k.tasks|
  {
    SetTask(k, t, k.tasks[t].(ptr := p))
  }

  function SetPriority(k: Kern, t: nat, p: u8): Kern
    requires t < |k.tasks|
  {
    SetTask(k, t, k.tasks[t].(priority := p))
  }

  /** `trigger_pendsv` when `b`. */
  function Pend(k: Kern, b: bool): Kern {
    k.(pendsv := k.pendsv || b)
  }

  /** `block_and_push`. */
  function Push(k: Kern, l: ListId, t: nat): Kern
    requires t < |k.tasks|
  {
    SetState(k, t, Blocked(l)).(lists := k.lists[l := [t] + Q(k, l)])
  }

  /** The running task blocks on `l`, and the context switch is requested. */
  function Park(k: Kern, l: ListId): Kern
    requires Started(k)
  {
    Pend(Push(k, l, k.cur), true)
  }

  /** Unlink the waiter at position `i` of list `l`. */
  function PopAt(k: Kern, l: ListId, i: nat): Kern
    requires i < |Q(k, l)| && Q(k, l)[i] < |k.tasks|
  {
    SetState(k, Q(k, l)[i], Popped).(lists := k.lists[l := Without(Q(k, l), i)])
  }

  /** `unblock`, without its result. */
  function Unblock(k: Kern, t: nat): Kern
    requires t < |k.tasks|
  {
    SetState(k, t, Ready(k.tasks[t].slice))
  }

  /** The result of `unblock`: does `t` outrank the current task? */
  predicate Outranks(k: Kern, t: nat)
    requires t < |k.tasks| && Started(k)
  {
    k.tasks[t].priority < k.tasks[k.cur].priority
  }

  /** Pop the waiter at position `i` of `l` and unblock it. */
  function Rouse(k: Kern, l: ListId, i: nat): Kern
    requires i < |Q(k, l)| && Q(k, l)[i] < |k.tasks|
  {
    Unblock(PopAt(k, l, i), Q(k, l)[i])
  }

  /** The same, with `p` left in its `wait_ptr`. */
  function RouseWith(k: Kern, l: ListId, i: nat, p: WaitPtr): Kern
    requires i < |Q(k, l)| && Q(k, l)[i] < |k.tasks|
  {
    Unblock(SetPtr(PopAt(k, l, i), Q(k, l)[i], p), Q(k, l)[i])
  }

  // ------------------------------------------------------------------ wait_list_pop_highest

  /** The position of the first waiter of minimum priority value. */
  function BestIndex(tasks: seq<Task>, q: seq<nat>): (b: nat)
    requires q != [] && forall j :: 0 <= j < |q| ==> q[j] < |tasks|
    ensures b < |q|
  {
    if |q| == 1 then 0 else
    var b := BestIndex(tasks, q[..|q| - 1]);
    if tasks[q[|q| - 1]].priority < tasks[q[b]].priority then |q| - 1 else b
  }

  predicate IsBest(tasks: seq<Task>, q: seq<nat>, b: nat)
    requires forall j :: 0 <= j < |q| ==> q[j] < |tasks|
  {
    && b < |q|
    && (forall j :: 0 <= j < |q| ==> tasks[q[b]].priority <= tasks[q[j]].priority)
    && (forall j :: 0 <= j < b ==> tasks[q[b]].priority < tasks[q[j]].priority)
  }

  /** No waiter outranks the one at `BestIndex`, and those in front of it are strictly lower. */
  lemma {:induction false} BestIndexIsBest(tasks: seq<Task>, q: seq<nat>)
    requires q != [] && forall j :: 0 <= j < |q| ==> q[j] < |tasks|
    ensures IsBest(tasks, q, BestIndex(tasks, q))
  {
    if |q| > 1 {
      var p := q[..|q| - 1];
      BestIndexIsBest(tasks, p);
      assert forall j :: 0 <= j < |p| ==> p[j] == q[j];
    }
  }

  function Best(k: Kern, l: ListId): (b: nat)
    requires Q(k, l) != [] && ListOk(k, l)
    ensures b < |Q(k, l)|
  {
    BestIndex(k.tasks, Q(k, l))
  }

  /** The highest-priority waiter of `l`. */
  function BestWaiter(k: Kern, l: ListId): nat
    requires Q(k, l) != [] && ListOk(k, l)
  {
    Q(k, l)[Best(k, l)]
  }

  /** Pop the highest-priority waiter of `l`, unblock it, and request a context switch if it
      outranks the current task. */
  function WakeBest(k: Kern, l: ListId): Kern
    requires Started(k) && ListOk(k, l) && Q(k, l) != []
  {
    Pend(Rouse(k, l, Best(k, l)), Outranks(k, BestWaiter(k, l)))
  }

  /** The same, with `p` left in the waiter's `wait_ptr`. */
  function WakeBestWith(k: Kern, l: ListId, p: WaitPtr): Kern
    requires Started(k) && ListOk(k, l) && Q(k, l) != []
  {
    Pend(RouseWith(k, l, Best(k, l), p), Outranks(k, BestWaiter(k, l)))
  }

  /** Pop and unblock every waiter of `l`, highest priority first; the second result says whether
      any of them outranks the current task. */
  function Drain(k: Kern, l: ListId): (r: (Kern, bool))
    requires Started(k) && WaitInv(k)
    ensures Started(r.0)
    decreases |Q(k, l)|
  {
    if Q(k, l) == [] then (k, false) else
    assert ListOk(k, l);
    var k1 := Rouse(k, l, Best(k, l));
    RouseKeepsWaitInv(k, l, Best(k, l));
    var (k2, preempt) := Drain(k1, l);
    (k2, preempt || Outranks(k, BestWaiter(k, l)))
  }

  // ------------------------------------------------------------------ find_next

  /** The node from which the search order is counted; a null `CURRENT` starts at the list head. */
  function Origin(k: Kern): nat
    requires -1 <= k.cur < |k.tasks|
  {
    if k.cur == -1 then |k.tasks| else k.cur
  }

  /** The task visited `d` steps into the search: the list after `c`, then from the head to `c`. */
  function Visit(n: nat, c: nat, d: nat): nat
    requires d < n && c <= n
  {
    if d < c then c - 1 - d else c - 1 - d + n
  }

  /** How many tasks the search visits before `t`: the inverse of `Visit`. */
  function Dist(n: nat, c: nat, t: nat): nat
    requires t < n && c <= n
  {
    if t < c then c - 1 - t else c - 1 - t + n
  }

  /** Among the runnable tasks, `t` has minimum priority value, and of those it comes first in the
      cyclic order that starts after the current task. */
  ghost predicate IsNext(k: Kern, t: nat)
    requires -1 <= k.cur < |k.tasks|
  {
    && t < |k.tasks| && Runnable(k.tasks[t])
    && forall u :: 0 <= u < |k.tasks| && Runnable(k.tasks[u]) ==> NoLater(k, t, u)
  }

  predicate NoLater(k: Kern, t: nat, u: nat)
    requires -1 <= k.cur < |k.tasks| && t < |k.tasks| && u < |k.tasks|
  {
    || k.tasks[t].priority < k.tasks[u].priority
    || (k.tasks[t].priority == k.tasks[u].priority
        && Dist(|k.tasks|, Origin(k), t) <= Dist(|k.tasks|, Origin(k), u))
  }

  /** The best candidate among the first `d` tasks visited. */
  function BestOf(k: Kern, d: nat): (b: Option<nat>)
    requires -1 <= k.cur < |k.tasks| && d <= |k.tasks|
    ensures b.Some? ==> b.value < |k.tasks| && Runnable(k.tasks[b.value])
  {
    if d == 0 then None else
    var b := BestOf(k, d - 1);
    var t := Visit(|k.tasks|, Origin(k), d - 1);
    if Runnable(k.tasks[t]) && (b.None? || k.tasks[t].priority < k.tasks[b.value].priority) then Some(t) else b
  }

  lemma {:induction false} BestOfIsBest(k: Kern, d: nat)
    requires -1 <= k.cur < |k.tasks| && d <= |k.tasks|
    ensures var b := BestOf(k, d);
      && (b.Some? ==>
            && Dist(|k.tasks|, Origin(k), b.value) < d
            && forall e :: 0 <= e < d ==>
              var u := Visit(|k.tasks|, Origin(k), e); Runnable(k.tasks[u]) ==> NoLater(k, b.value, u))
      && (b.None? ==> forall e :: 0 <= e < d ==> !Runnable(k.tasks[Visit(|k.tasks|, Origin(k), e)]))
  {
    if d > 0 {
      BestOfIsBest(k, d - 1);
    }
  }

  function Next(k: Kern): Option<nat>
    requires -1 <= k.cur < |k.tasks|
  {
    BestOf(k, |k.tasks|)
  }

  /** `find_next` fails exactly when nothing is runnable; otherwise it returns the first task in
      cyclic order among the runnable ones of minimum priority value. */
  lemma NextIsFirstOfTopTier(k: Kern)
    requires -1 <= k.cur < |k.tasks|
    ensures Next(k).None? <==> forall u :: 0 <= u < |k.tasks| ==> !Runnable(k.tasks[u])
    ensures Next(k).Some? ==> IsNext(k, Next(k).value)
  {
    var n, c := |k.tasks|, Origin(k);
    BestOfIsBest(k, n);
    forall u | 0 <= u < n && Runnable(k.tasks[u])
      ensures Next(k).Some? && NoLater(k, Next(k).value, u)
    {
      assert Visit(n, c, Dist(n, c, u)) == u;
    }
  }

  /** There is no second such task, so any walk that finds one finds the one `Next` names. */
  lemma NextUnique(k: Kern, t: nat)
    requires -1 <= k.cur < |k.tasks| && IsNext(k, t)
    ensures Next(k) == Some(t)
  {
    NextIsFirstOfTopTier(k);
    var n, c, b := |k.tasks|, Origin(k), Next(k).value;
    assert NoLater(k, t, b) && NoLater(k, b, t);
    assert Dist(n, c, t) == Dist(n, c, b);
    assert Visit(n, c, Dist(n, c, t)) == t && Visit(n, c, Dist(n, c, b)) == b;
  }

  // ------------------------------------------------------------------ tick

  /** A task other than the current one after the sleeper scan at time `now`. */
  function WakeIfDue(t: Task, now: u64): Task {
    if t.state.Sleeping? && now >= t.state.deadline then t.(state := Ready(t.slice)) else t
  }

  function WakeSleepers(k: Kern): Kern {
    WakeFrom(k, 0)
  }

  /** The scan after it has dealt with the tasks from `i` up, which the list holds first. */
  function WakeFrom(k: Kern, i: nat): (r: Kern)
    ensures r == k.(tasks := r.tasks) && |r.tasks| == |k.tasks|
    ensures Started(k) ==> r.tasks[k.cur] == k.tasks[k.cur]
    decreases |k.tasks| - i
  {
    if i >= |k.tasks| then k else ScanStep(WakeFrom(k, i + 1), i)
  }

  /** One round of the scan. */
  function ScanStep(k: Kern, i: nat): Kern
    requires i < |k.tasks|
  {
    if i == k.cur then k else SetTask(k, i, WakeIfDue(k.tasks[i], k.tick))
  }

  /** From `i` up every task but the current one was woken if due; nothing else changed. */
  ghost predicate SleepersWoken(k: Kern, r: Kern, i: nat) {
    && r == k.(tasks := r.tasks) && |r.tasks| == |k.tasks|
    && forall t :: 0 <= t < |k.tasks| ==>
      r.tasks[t] == if t < i || t == k.cur then k.tasks[t] else WakeIfDue(k.tasks[t], k.tick)
  }

  lemma {:induction false} WakeFromWakes(k: Kern, i: nat)
    ensures SleepersWoken(k, WakeFrom(k, i), i)
    decreases |k.tasks| - i
  {
    if i < |k.tasks| {
      WakeFromWakes(k, i + 1);
    }
  }

  /** Some Ready task from `i` up, other than the current one, has a strictly higher priority. */
  predicate OutrankedFrom(k: Kern, i: nat)
    requires Started(k)
  {
    exists t :: i <= t < |k.tasks| && Outranker(k, t)
  }

  predicate Outranker(k: Kern, t: nat)
    requires Started(k) && t < |k.tasks|
  {
    t != k.cur && k.tasks[t].state.Ready? && k.tasks[t].priority < k.tasks[k.cur].priority
  }

  lemma OutrankedStep(k: Kern, i: nat)
    requires Started(k) && i < |k.tasks|
    ensures WakeFrom(k, i) == ScanStep(WakeFrom(k, i + 1), i)
    ensures OutrankedFrom(WakeFrom(k, i), i) ==
      (OutrankedFrom(WakeFrom(k, i + 1), i + 1) || Outranker(WakeFrom(k, i), i))
  {
    var a, b := WakeFrom(k, i), WakeFrom(k, i + 1);
    WakeFromWakes(k, i + 1);
    assert forall t :: i + 1 <= t < |k.tasks| ==> Outranker(a, t) == Outranker(b, t);
  }

  predicate HigherReady(k: Kern)
    requires Started(k)
  {
    OutrankedFrom(k, 0)
  }

  /** Some other Ready task has the same priority as the current one. */
  predicate PeerReady(k: Kern)
    requires Started(k)
  {
    exists t :: 0 <= t < |k.tasks| && t != k.cur && k.tasks[t].state.Ready?
                && k.tasks[t].priority == k.tasks[k.cur].priority
  }

  lemma PeerReadySame(k: Kern, k': Kern)
    requires Started(k) && k'.cur == k.cur && |k'.tasks| == |k.tasks|
    requires forall t :: 0 <= t < |k.tasks| ==> k'.tasks[t].priority == k.tasks[t].priority
    requires forall t :: 0 <= t < |k.tasks| && t != k.cur ==> k'.tasks[t].state == k.tasks[t].state
    ensures PeerReady(k') == PeerReady(k)
  {
  }

  /** The running task's quantum after one tick, and whether it expired. */
  function Quantum(rem: u8, slice: u8): (u8, bool) {
    var r := if rem > 0 then rem - 1 else 0;
    if r == 0 then (slice, true) else (r, false)
  }

  /** `tick`: the new state and the result. */
  function Tick(k: Kern): (Kern, bool)
    requires -1 <= k.cur < |k.tasks|
  {
    var k1 := k.(tick := WrappingAdd(k.tick, 1));
    if k.cur == -1 || !k.tasks[k.cur].state.Running? then (k1, false) else TickRunning(k1)
  }

  /** The rest of `tick`, once the clock was advanced and `CURRENT` is known to be Running. */
  function TickRunning(k: Kern): (Kern, bool)
    requires Started(k) && k.tasks[k.cur].state.Running?
  {
    var k2 := WakeSleepers(k);
    if HigherReady(k2) then (k2, true) else
    var (rem, expired) := Quantum(k2.tasks[k.cur].state.rem, k2.tasks[k.cur].slice);
    (SetState(k2, k.cur, Running(rem)), expired && PeerReady(k2))
  }

  /** `systick_handler`. */
  function SysTick(k: Kern): Kern
    requires -1 <= k.cur < |k.tasks|
  {
    Pend(Tick(k).0, Tick(k).1)
  }

  // ------------------------------------------------------------------ context switches

  /** The outgoing task's stack pointer is saved, and if it was Running it becomes Ready. */
  function Retire(k: Kern, sp: int): Kern
    requires Started(k)
  {
    var t := k.tasks[k.cur].(sp := sp);
    SetTask(k, k.cur, if t.state.Running? then t.(state := Ready(t.state.rem)) else t)
  }

  /** `next` becomes the current task and Running. */
  function Dispatch(k: Kern, next: nat): Kern
    requires next < |k.tasks| && k.tasks[next].state.Ready?
  {
    SetState(k, next, Running(k.tasks[next].state.rem)).(cur := next)
  }

  /** `pendsv_save_and_switch`, entered with the pending bit cleared. With nothing runnable
      `find_next` panics; no state follows and the model keeps the one before the panic. */
  function Switch(k: Kern, sp: int): Kern
    requires Started(k) && OneRunning(k)
  {
    var k1 := Retire(k.(pendsv := false), sp);
    var next := Next(k1);
    if next.None? then k1 else Dispatch(k1, next.value)
  }

  /** The first Ready task of minimum priority value below 255, in list order. */
  function FirstReady(k: Kern, d: nat): (b: Option<nat>)
    requires k.cur == -1 && d <= |k.tasks|
    ensures b.Some? ==> b.value < |k.tasks| && k.tasks[b.value].state.Ready?
  {
    if d == 0 then None else
    var b := FirstReady(k, d - 1);
    var t := |k.tasks| - d;
    if k.tasks[t].state.Ready? && k.tasks[t].priority < (if b.None? then 255 else k.tasks[b.value].priority)
    then Some(t) else b
  }

  /** No Ready task below 255 among those visited outranks it, and those visited before it are lower. */
  lemma {:induction false} FirstReadyIsFirst(k: Kern, d: nat)
    requires k.cur == -1 && d <= |k.tasks|
    ensures var b := FirstReady(k, d);
      && (b.Some? ==>
            && k.tasks[b.value].priority < 255 && |k.tasks| - d <= b.value
            && forall u :: |k.tasks| - d <= u < |k.tasks| && k.tasks[u].state.Ready? ==>
              && k.tasks[b.value].priority <= k.tasks[u].priority
              && (b.value < u ==> k.tasks[b.value].priority < k.tasks[u].priority))
      && (b.None? ==>
            forall u :: |k.tasks| - d <= u < |k.tasks| && k.tasks[u].state.Ready? ==> k.tasks[u].priority == 255)
  {
    if d > 0 {
      FirstReadyIsFirst(k, d - 1);
    }
  }

  /** `svc_first_task_sp`, when it finds a task. */
  function Launch(k: Kern): Kern
    requires k.cur == -1
  {
    var b := FirstReady(k, |k.tasks|);
    if b.None? then k else Dispatch(k, b.value)
  }

  // ------------------------------------------------------------------ task API

  /** The TCB fields that `spawn_into` writes. */
  function NewTask(sp: int, priority: u8, slice: u8): Task {
    Task(sp, Ready(slice), priority, priority, slice, NoPtr)
  }

  function Yield(k: Kern): Kern
    requires Started(k)
  {
    Pend(if k.tasks[k.cur].state.Running? then SetState(k, k.cur, Running(0)) else k, true)
  }

  function SleepUntil(k: Kern, deadline: u64): Kern
    requires Started(k)
  {
    Pend(SetState(k, k.cur, Sleeping(deadline)), true)
  }

  function Exit(k: Kern): Kern
    requires Started(k)
  {
    Pend(SetState(k, k.cur, Dead), true)
  }

  // ------------------------------------------------------------------ the list invariant is kept

  lemma PushKeepsWaitInv(k: Kern, l: ListId, t: nat)
    requires WaitInv(k) && t < |k.tasks| && Runnable(k.tasks[t])
    ensures WaitInv(Push(k, l, t))
  {
    var k' := Push(k, l, t);
    forall l'
      ensures ListOk(k', l')
    {
      assert ListOk(k, l');
    }
    forall u | 0 <= u < |k'.tasks|
      ensures OnItsList(k', u)
    {
      assert OnItsList(k, u);
      if u == t {
        assert Q(k', l)[0] == t;
      }
    }
  }

  lemma PopKeepsWaitInv(k: Kern, l: ListId, i: nat)
    requires WaitInv(k) && ListOk(k, l) && i < |Q(k, l)|
    ensures WaitInv(PopAt(k, l, i))
  {
    var k', t := PopAt(k, l, i), Q(k, l)[i];
    WithoutMembers(Q(k, l), i);
    forall l'
      ensures ListOk(k', l')
    {
      assert ListOk(k, l');
    }
    forall u | 0 <= u < |k'.tasks|
      ensures OnItsList(k', u)
    {
      assert OnItsList(k, u);
    }
  }

  /** Edits that neither block nor unblock anyone. */
  lemma SameBlockedKeepsWaitInv(k: Kern, k': Kern)
    requires WaitInv(k) && k'.lists == k.lists && |k'.tasks| == |k.tasks|
    requires forall t :: 0 <= t < |k.tasks| && (k.tasks[t].state.Blocked? || k'.tasks[t].state.Blocked?) ==>
      k'.tasks[t].state == k.tasks[t].state
    ensures WaitInv(k')
  {
    forall l
      ensures ListOk(k', l)
    {
      assert ListOk(k, l);
    }
    forall t | 0 <= t < |k'.tasks|
      ensures OnItsList(k', t)
    {
      assert OnItsList(k, t);
    }
  }

  lemma SpawnKeepsWaitInv(k: Kern, k': Kern)
    requires WaitInv(k) && k'.lists == k.lists && |k.tasks| + 1 == |k'.tasks|
    requires k.tasks == k'.tasks[..|k.tasks|] && !k'.tasks[|k.tasks|].state.Blocked?
    ensures WaitInv(k')
  {
    forall l
      ensures ListOk(k', l)
    {
      assert ListOk(k, l);
    }
    forall t | 0 <= t < |k'.tasks|
      ensures OnItsList(k', t)
    {
      if t < |k.tasks| {
        assert OnItsList(k, t) && k'.tasks[t] == k.tasks[t];
      }
    }
  }

  lemma RouseKeepsWaitInv(k: Kern, l: ListId, i: nat)
    requires WaitInv(k) && ListOk(k, l) && i < |Q(k, l)|
    ensures WaitInv(Rouse(k, l, i))
  {
    PopKeepsWaitInv(k, l, i);
    SameBlockedKeepsWaitInv(PopAt(k, l, i), Rouse(k, l, i));
  }

  /** One round of the drain. */
  lemma DrainStep(k: Kern, l: ListId)
    requires Started(k) && WaitInv(k) && ListOk(k, l)
    ensures Q(k, l) == [] ==> Drain(k, l) == (k, false)
    ensures Q(k, l) != [] ==>
              var k1 := Rouse(k, l, Best(k, l));
              && WaitInv(k1)
              && Drain(k, l).0 == Drain(k1, l).0
              && Drain(k, l).1 == (Outranks(k, BestWaiter(k, l)) || Drain(k1, l).1)
  {
    if Q(k, l) != [] {
      RouseKeepsWaitInv(k, l, Best(k, l));
    }
  }

  lemma RouseWithKeepsWaitInv(k: Kern, l: ListId, i: nat, p: WaitPtr)
    requires WaitInv(k) && ListOk(k, l) && i < |Q(k, l)|
    ensures WaitInv(RouseWith(k, l, i, p))
  {
    PopKeepsWaitInv(k, l, i);
    SameBlockedKeepsWaitInv(PopAt(k, l, i), RouseWith(k, l, i, p));
  }

  /** Writing what is already there changes nothing. */
  lemma SetPtrSame(k: Kern, t: nat)
    requires t < |k.tasks|
    ensures SetPtr(k, t, k.tasks[t].ptr) == k
  {
    assert k.tasks[t := k.tasks[t]] == k.tasks;
  }
}
