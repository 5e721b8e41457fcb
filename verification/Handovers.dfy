/** What parking a task and waking one waiter, or all, do to the kernel. */
module Handovers {
  import opened Types
  import opened KernelModel
  import opened KernelProofs

  /** Nobody on the list is of higher priority than the waiter at position `p`, and everybody in front of
      it is of lower priority. */
  predicate Foremost(k: Kern, l: ListId, p: nat) {
    && p < |Q(k, l)| && (forall j :: 0 <= j < |Q(k, l)| ==> Q(k, l)[j] < |k.tasks|)
    && (forall j :: 0 <= j < |Q(k, l)| ==> k.tasks[Q(k, l)[p]].priority <= k.tasks[Q(k, l)[j]].priority)
    && (forall j :: 0 <= j < p ==> k.tasks[Q(k, l)[p]].priority < k.tasks[Q(k, l)[j]].priority)
  }

  /** The foremost waiter, at position `p`, is Ready with a full quantum and `ptr` in its `wait_ptr`; the
      others keep their order; a switch is due if it was, or if that waiter is above the current task;
      and nothing else differs. */
  ghost predicate Handed(k: Kern, k': Kern, l: ListId, p: nat, ptr: WaitPtr)
    requires Started(k)
  {
    && Foremost(k, l, p) && |k'.tasks| == |k.tasks| && k'.cur == k.cur && k'.tick == k.tick
    && var w := Q(k, l)[p];
    && (forall t :: 0 <= t < |k.tasks| ==>
          k'.tasks[t] == if t == w then k.tasks[w].(state := Ready(k.tasks[w].slice), ptr := ptr) else k.tasks[t])
    && Q(k', l) == Q(k, l)[..p] + Q(k, l)[p + 1..] && (forall l' :: l' != l ==> Q(k', l') == Q(k, l'))
    && (k'.pendsv <==> k.pendsv || k.tasks[w].priority < k.tasks[k.cur].priority)
  }

  lemma OnlyOneForemost(k: Kern, l: ListId, p: nat, r: nat)
    requires Foremost(k, l, p) && Foremost(k, l, r)
    ensures p == r
  {
    var q := Q(k, l);
    assert k.tasks[q[p]].priority <= k.tasks[q[r]].priority && k.tasks[q[r]].priority <= k.tasks[q[p]].priority;
  }

  lemma BestIsForemost(k: Kern, l: ListId)
    requires ListOk(k, l) && Q(k, l) != []
    ensures Foremost(k, l, Best(k, l))
  {
    BestIndexIsBest(k.tasks, Q(k, l));
  }

  /** One waiter was let in, its `wait_ptr` as it was. */
  ghost predicate HandedOver(k: Kern, k': Kern, l: ListId)
    requires Started(k)
  {
    exists p: nat :: Foremost(k, l, p) && Handed(k, k', l, p, k.tasks[Q(k, l)[p]].ptr)
  }

  ghost predicate HandedWith(k: Kern, k': Kern, l: ListId, ptr: WaitPtr)
    requires Started(k)
  {
    exists p: nat :: Handed(k, k', l, p, ptr)
  }

  lemma WakeHands(k: Kern, l: ListId)
    requires Started(k) && ListOk(k, l) && Q(k, l) != []
    ensures Handed(k, WakeBest(k, l), l, Best(k, l), k.tasks[BestWaiter(k, l)].ptr) && HandedOver(k, WakeBest(k, l), l)
  {
    BestIsForemost(k, l);
  }

  lemma WakeHandsWith(k: Kern, l: ListId, ptr: WaitPtr)
    requires Started(k) && ListOk(k, l) && Q(k, l) != []
    ensures Handed(k, WakeBestWith(k, l, ptr), l, Best(k, l), ptr) && HandedWith(k, WakeBestWith(k, l, ptr), l, ptr)
  {
    BestIsForemost(k, l);
    assert Handed(k, WakeBestWith(k, l, ptr), l, Best(k, l), ptr);
  }

  /** The current task is blocked in front of all others, with `ptr` in its `wait_ptr`, and a switch is
      due; nothing else differs. */
  ghost predicate ParkedFirst(k: Kern, k': Kern, l: ListId, ptr: WaitPtr)
    requires Started(k)
  {
    && |k'.tasks| == |k.tasks| && k'.cur == k.cur && k'.tick == k.tick && k'.pendsv
    && (forall t :: 0 <= t < |k.tasks| ==>
          k'.tasks[t] == if t == k.cur then k.tasks[t].(state := Blocked(l), ptr := ptr) else k.tasks[t])
    && Q(k', l) == [k.cur] + Q(k, l) && (forall l' :: l' != l ==> Q(k', l') == Q(k, l'))
  }

  lemma ParkParksFirst(k: Kern, l: ListId)
    requires Started(k)
    ensures ParkedFirst(k, Park(k, l), l, k.tasks[k.cur].ptr)
  {
  }

  lemma ParkParksFirstWith(k: Kern, l: ListId, ptr: WaitPtr)
    requires Started(k)
    ensures ParkedFirst(k, Park(SetPtr(k, k.cur, ptr), l), l, ptr)
  {
  }

  /** Some waiter of the list is above the current task. */
  predicate SomeoneAbove(k: Kern, l: ListId)
    requires Started(k)
  {
    exists t :: 0 <= t < |k.tasks| && WaitsAbove(k, l, t)
  }

  predicate WaitsAbove(k: Kern, l: ListId, t: nat)
    requires Started(k) && t < |k.tasks|
  {
    k.tasks[t].state == Blocked(l) && k.tasks[t].priority < k.tasks[k.cur].priority
  }

  /** Everybody on the list is Ready with a full quantum, the list is empty, and a switch is due if it
      was, or if one of them is above the current task; nothing else differs. */
  ghost predicate AllHanded(k: Kern, k': Kern, l: ListId)
    requires Started(k)
  {
    && |k'.tasks| == |k.tasks| && k'.cur == k.cur && k'.tick == k.tick
    && (forall t :: 0 <= t < |k.tasks| ==>
          k'.tasks[t] == if k.tasks[t].state == Blocked(l) then k.tasks[t].(state := Ready(k.tasks[t].slice))
                         else k.tasks[t])
    && Q(k', l) == [] && (forall l' :: l' != l ==> Q(k', l') == Q(k, l'))
    && (k'.pendsv <==> k.pendsv || SomeoneAbove(k, l))
  }

  /** The drain asks for a switch if and only if somebody it wakes is above the current task. */
  lemma {:induction false} DrainAsks(k: Kern, l: ListId)
    requires Started(k) && WaitInv(k)
    ensures Drain(k, l).1 == SomeoneAbove(k, l) && Drain(k, l).0.pendsv == k.pendsv
    decreases |Q(k, l)|
  {
    assert ListOk(k, l);
    DrainStep(k, l);
    if Q(k, l) == [] {
      forall t | 0 <= t < |k.tasks|
        ensures !WaitsAbove(k, l, t)
      {
        assert OnItsList(k, t);
      }
    } else {
      DrainAsks(Rouse(k, l, Best(k, l)), l);
      OneLessAbove(k, l, Best(k, l));
    }
  }

  /** Who is above the current task and on the list: the one woken, or one that is still there. */
  lemma OneLessAbove(k: Kern, l: ListId, b: nat)
    requires Started(k) && ListOk(k, l) && b < |Q(k, l)|
    ensures SomeoneAbove(k, l) == (Outranks(k, Q(k, l)[b]) || SomeoneAbove(Rouse(k, l, b), l))
  {
    var w, k1 := Q(k, l)[b], Rouse(k, l, b);
    assert WaitsAbove(k, l, w) == Outranks(k, w) && !WaitsAbove(k1, l, w);
    forall t | 0 <= t < |k.tasks| && t != w
      ensures WaitsAbove(k1, l, t) == WaitsAbove(k, l, t)
    {
    }
  }

  lemma DrainHandsAll(k: Kern, l: ListId)
    requires Started(k) && WaitInv(k)
    ensures AllHanded(k, Pend(Drain(k, l).0, Drain(k, l).1), l)
  {
    DrainDrains(k, l);
    DrainAsks(k, l);
  }
}
