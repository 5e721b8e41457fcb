/** The scheduler on the heap: TCBs linked by `all_next` and by the wait-list link inside the
    Blocked state, walked and edited in place by the methods of `Kernel`. */
module Scheduler {
  import opened Types
  import opened Seqs
  import M = KernelModel

  datatype TaskState =
    | Uninit
    | Ready(sliceRemaining: u8)
    | Running(sliceRemaining: u8)
    | Blocked(waitNext: Tcb?)
    | Sleeping(deadline: u64)
    | Dead

  class Tcb {
    var sp: int
    var state: TaskState
    var priority: u8
    var basePriority: u8
    var timeSlice: u8
    var allNext: Tcb?
    var waitPtr: WaitPtr
    /** The spawn index, by which the value model names this task. */
    ghost var id: nat

    /** `Tcb::zeroed`. */
    constructor Zeroed()
      ensures state == Uninit && allNext == null && waitPtr == NoPtr
      ensures sp == 0 && priority == 0 && basePriority == 0 && timeSlice == 0
    {
      sp, state, priority, basePriority, timeSlice, allNext, waitPtr := 0, Uninit, 0, 0, 0, null, NoPtr;
      id := 0;
    }

    /** The fields that `spawn_into` writes. */
    method Init(sp: int, priority: u8, timeSlice: u8, allNext: Tcb?, ghost id: nat)
      modifies this
      ensures this.sp == sp && state == Ready(timeSlice) && this.priority == priority && basePriority == priority
      ensures this.timeSlice == timeSlice && waitPtr == NoPtr && this.allNext == allNext && this.id == id
    {
      this.sp, state := sp, Ready(timeSlice);
      this.priority, basePriority, this.timeSlice := priority, priority, timeSlice;
      waitPtr, this.allNext, this.id := NoPtr, allNext, id;
    }
  }

  /** The `wait_head` field of a primitive, which the list helpers receive by mutable reference. */
  class WaitHead {
    var head: Tcb?
    /** Which list of the system this is. */
    ghost const lid: ListId

    constructor (ghost l: ListId)
      ensures head == null && lid == l
    {
      head := null;
      lid := l;
    }
  }

  /** The statics `CURRENT`, `ALL_TASKS` and `TICK`, and the PendSV pending bit. */
  class Kernel {
    var current: Tcb?
    var allTasks: Tcb?
    var tick: u64
    var pendsv: bool

    /** The state as a value, all registered tasks in spawn order, and the heads in use. */
    ghost var st: M.Kern
    ghost var spawned: seq<Tcb>
    ghost var heads: map<ListId, WaitHead>

    /** The TCB holds what the value model says; links are not part of the value. */
    ghost predicate Mirrors(t: Tcb, a: M.Task)
      reads t
    {
      && t.sp == a.sp && t.priority == a.priority && t.basePriority == a.base
      && t.timeSlice == a.slice && t.waitPtr == a.ptr
      && match a.state
         case Ready(r) => t.state == Ready(r)
         case Running(r) => t.state == Running(r)
         case Blocked(_) => t.state.Blocked?
         case Popped => t.state.Blocked?
         case Sleeping(d) => t.state == Sleeping(d)
         case Dead => t.state == Dead
    }

    /** The node at position `j` of a list, or null past its end. */
    ghost function Node(q: seq<nat>, j: nat): Tcb?
      requires forall i :: 0 <= i < |q| ==> q[i] < |spawned|
      reads this`spawned
    {
      if j < |q| then spawned[q[j]] else null
    }

    /** The links from `h` spell out `q` and end in null. */
    ghost predicate Chain(h: Tcb?, q: seq<nat>)
      requires forall i :: 0 <= i < |q| ==> q[i] < |spawned|
      reads this`spawned, spawned
    {
      && h == Node(q, 0)
      && forall j :: 0 <= j < |q| ==> LinkAt(q, j)
    }

    ghost predicate LinkAt(q: seq<nat>, j: nat)
      requires forall i :: 0 <= i < |q| ==> q[i] < |spawned|
      requires j < |q|
      reads this`spawned, spawned
    {
      spawned[q[j]].state == Blocked(Node(q, j + 1))
    }

    ghost predicate AllNextAt(i: nat)
      requires i < |spawned|
      reads this`spawned, spawned
    {
      spawned[i].allNext == if i == 0 then null else spawned[i - 1]
    }

    ghost predicate TasksOk()
      reads this, spawned
    {
      && |st.tasks| == |spawned|
      && (forall i :: 0 <= i < |spawned| ==> spawned[i].id == i)
      && (forall i :: 0 <= i < |spawned| ==> AllNextAt(i))
      && (forall i :: 0 <= i < |spawned| ==> Mirrors(spawned[i], st.tasks[i]))
      && allTasks == (if spawned == [] then null else spawned[|spawned| - 1])
      && -1 <= st.cur < |spawned|
      && current == (if st.cur == -1 then null else spawned[st.cur])
      && tick == st.tick && pendsv == st.pendsv
    }

    /** Every wait list in use, as linked on the heap, is the one the value model names. */
    ghost predicate ListsOk()
      requires |st.tasks| == |spawned| && M.WaitInv(st)
      reads this, spawned, heads.Values
    {
      && (forall l :: l in heads ==> heads[l].lid == l)
      && (forall l :: l in heads ==> ListLinked(l))
      && (forall l :: l !in heads ==> M.Q(st, l) == [])
    }

    ghost predicate ListLinked(l: ListId)
      requires |st.tasks| == |spawned| && M.WaitInv(st)
      requires l in heads
      reads this, spawned, heads.Values
    {
      assert M.ListOk(st, l);
      Chain(heads[l].head, M.Q(st, l))
    }

    /** The global invariant: `st` is the heap, every list of every primitive is null-terminated,
        free of repetition, disjoint from the others and made of the tasks blocked on it, and
        only `CURRENT` may be Running. */
    ghost predicate Valid()
      reads this, spawned, heads.Values
    {
      && TasksOk()
      && M.WaitInv(st)
      && M.OneRunning(st)
      && ListsOk()
    }

    ghost predicate Knows(h: WaitHead)
      reads this
    {
      h.lid in heads && heads[h.lid] == h
    }

    /** Framing: only the value of task `e.0` changed, only the TCBs of `e.0` and `e.1` were
        written, and both still mirror their values. */
    twostate lemma TasksEdited(e: (nat, nat))
      requires old(TasksOk()) && e.0 < |spawned| && e.1 < |spawned| && spawned == old(spawned)
      requires |st.tasks| == |spawned| && st.tasks == old(st.tasks)[e.0 := st.tasks[e.0]]
      requires forall i :: 0 <= i < |spawned| && i != e.0 && i != e.1 ==> unchanged(spawned[i])
      requires Mirrors(spawned[e.0], st.tasks[e.0]) && Mirrors(spawned[e.1], st.tasks[e.1])
      requires spawned[e.0].id == e.0 && spawned[e.0].allNext == old(spawned[e.0].allNext)
      requires spawned[e.1].id == e.1 && spawned[e.1].allNext == old(spawned[e.1].allNext)
      requires allTasks == old(allTasks) && current == old(current) && tick == old(tick)
      requires st.cur == old(st.cur) && st.tick == old(st.tick) && st.pendsv == pendsv
      ensures TasksOk()
    {
      forall i | 0 <= i < |spawned|
        ensures AllNextAt(i)
      {
        assert old(AllNextAt(i));
      }
      forall i | 0 <= i < |spawned|
        ensures Mirrors(spawned[i], st.tasks[i]) && spawned[i].id == i
      {
        assert old(Mirrors(spawned[i], st.tasks[i]));
      }
    }

    /** Framing: a list whose head and whose members' states were not written is still linked. */
    twostate lemma ListUntouched(l: ListId)
      requires old(TasksOk()) && old(M.WaitInv(st)) && l in old(heads) && old(ListLinked(l))
      requires spawned == old(spawned) && heads == old(heads) && |st.tasks| == |spawned| && M.WaitInv(st)
      requires heads[l].head == old(heads[l].head) && M.Q(st, l) == old(M.Q(st, l))
      requires forall i :: 0 <= i < |spawned| && old(st.tasks[i].state) == M.Blocked(l) ==>
        spawned[i].state == old(spawned[i].state)
      ensures ListLinked(l)
    {
      assert old(M.ListOk(st, l)) && M.ListOk(st, l);
      ghost var q := M.Q(st, l);
      forall j | 0 <= j < |q|
        ensures LinkAt(q, j)
      {
        assert old(LinkAt(q, j));
      }
    }

    /** The list that `t` was just linked in front of. */
    twostate lemma ListPushed(t: nat)
      requires old(TasksOk()) && old(M.WaitInv(st))
      requires spawned == old(spawned) && heads == old(heads) && |st.tasks| == |spawned| && M.WaitInv(st)
      requires t < |spawned| && !old(st.tasks[t].state).Blocked? && st.tasks[t].state.Blocked?
      requires var l := st.tasks[t].state.on;
        && l in heads && old(ListLinked(l)) && M.Q(st, l) == [t] + old(M.Q(st, l))
        && heads[l].head == spawned[t] && spawned[t].state == Blocked(old(heads[l].head))
      requires forall i :: 0 <= i < |spawned| && i != t ==> spawned[i].state == old(spawned[i].state)
      ensures ListLinked(st.tasks[t].state.on)
    {
      ghost var l := st.tasks[t].state.on;
      assert old(M.ListOk(st, l)) && M.ListOk(st, l);
      ghost var q, q0 := M.Q(st, l), old(M.Q(st, l));
      forall j | 0 <= j < |q|
        ensures LinkAt(q, j)
      {
        if j > 0 {
          assert q[j] == q0[j - 1] && old(LinkAt(q0, j - 1));
        }
      }
    }

    /** Every list other than `l` is as it was: only the head of `l` and the state of task `w`, which
        is on no other list, were written. */
    twostate lemma OtherListsUntouched(e: (ListId, nat))
      requires old(TasksOk()) && old(M.WaitInv(st)) && old(ListsOk())
      requires spawned == old(spawned) && heads == old(heads) && |st.tasks| == |spawned| && M.WaitInv(st)
      requires e.0 in heads && e.0 in st.lists && st.lists == old(st.lists)[e.0 := st.lists[e.0]]
      requires forall h :: h in heads.Values && h != heads[e.0] ==> h.head == old(h.head)
      requires e.1 < |spawned| && (old(st.tasks[e.1].state).Blocked? ==> old(st.tasks[e.1].state).on == e.0)
      requires forall i :: 0 <= i < |spawned| && i != e.1 ==> spawned[i].state == old(spawned[i].state)
      ensures forall l' :: l' in heads && l' != e.0 ==> ListLinked(l')
      ensures forall l' :: l' !in heads && l' != e.0 ==> M.Q(st, l') == []
    {
      forall l' | l' in heads && l' != e.0
        ensures ListLinked(l')
      {
        assert heads[l'].lid == l' && heads[l'] in heads.Values;
        assert old(ListLinked(l'));
        ListUntouched(l');
      }
    }

    /** No list was edited, and no blocked task's state was written. */
    twostate lemma ListsUntouched()
      requires old(TasksOk()) && old(M.WaitInv(st)) && old(ListsOk())
      requires spawned == old(spawned) && heads == old(heads) && |st.tasks| == |spawned| && M.WaitInv(st)
      requires st.lists == old(st.lists)
      requires forall l' :: l' in heads ==> heads[l'].head == old(heads[l'].head)
      requires forall i :: 0 <= i < |spawned| && old(st.tasks[i].state).Blocked? ==>
        spawned[i].state == old(spawned[i].state)
      ensures ListsOk()
    {
      forall l' | l' in heads
        ensures ListLinked(l')
      {
        assert old(ListLinked(l'));
        ListUntouched(l');
      }
    }

    /** `t` is a registered task. */
    ghost predicate Has(t: Tcb)
      reads this`spawned, t`id
    {
      t.id < |spawned| && spawned[t.id] == t
    }

    /** `block_and_push`. */
    method BlockAndPush(h: WaitHead, tcb: Tcb)
      requires Valid() && Knows(h)
      requires Has(tcb)
      requires M.Runnable(st.tasks[tcb.id])
      modifies this`st, h`head, tcb`state
      ensures Valid()
      ensures st == M.Push(old(st), h.lid, tcb.id)
    {
      ghost var l, t := h.lid, tcb.id;
      tcb.state := Blocked(h.head);
      h.head := tcb;
      st := M.Push(st, l, t);
      M.PushKeepsWaitInv(old(st), l, t);
      TasksEdited((t, t));
      assert old(ListLinked(l));
      ListPushed(t);
      OtherListsUntouched((l, t));
    }

    /** Take the first node out of the list by moving the head to `next`. */
    method UnlinkFirst(h: WaitHead, next: Tcb?)
      requires Valid() && Knows(h) && M.Q(st, h.lid) != [] && M.ListOk(st, h.lid)
      requires next == Node(M.Q(st, h.lid), 1)
      modifies this`st, h`head
      ensures Valid()
      ensures st == M.PopAt(old(st), h.lid, 0)
    {
      ghost var l, t := h.lid, M.Q(st, h.lid)[0];
      h.head := next;
      st := M.PopAt(st, l, 0);
      M.PopKeepsWaitInv(old(st), l, 0);
      TasksEdited((t, t));
      assert old(ListLinked(l));
      ListCut((l, 0));
      OtherListsUntouched((l, t));
    }

    /** Take the node after `prev`, at position `i`, out of the list by linking `prev` to `next`. */
    method UnlinkAfter(h: WaitHead, prev: Tcb, next: Tcb?, ghost i: nat)
      requires Valid() && Knows(h) && 0 < i < |M.Q(st, h.lid)| && M.ListOk(st, h.lid)
      requires prev == spawned[M.Q(st, h.lid)[i - 1]]
      requires next == Node(M.Q(st, h.lid), i + 1)
      modifies this`st, prev`state
      ensures Valid()
      ensures st == M.PopAt(old(st), h.lid, i)
    {
      Relink(prev, next, h.lid, i);
      CutKeepsLists((h.lid, i));
    }

    /** `*wait_next = next` in the node before position `i` of list `l`. */
    method Relink(prev: Tcb, next: Tcb?, ghost l: ListId, ghost i: nat)
      requires TasksOk() && M.WaitInv(st) && 0 < i < |M.Q(st, l)| && M.ListOk(st, l)
      requires prev == spawned[M.Q(st, l)[i - 1]]
      modifies this`st, prev`state
      ensures TasksOk() && M.WaitInv(st)
      ensures st == M.PopAt(old(st), l, i) && prev.state == Blocked(next)
    {
      M.PopKeepsWaitInv(st, l, i);
      prev.state := Blocked(next);
      st := M.PopAt(st, l, i);
      TasksEdited((M.Q(old(st), l)[i], prev.id));
    }

    /** All lists after the node before position `c.1` of list `c.0` was linked past it. */
    twostate lemma CutKeepsLists(c: (ListId, nat))
      requires old(TasksOk()) && old(M.WaitInv(st)) && old(ListsOk())
      requires spawned == old(spawned) && heads == old(heads) && |st.tasks| == |spawned| && M.WaitInv(st)
      requires forall h :: h in heads.Values ==> h.head == old(h.head)
      requires c.0 in heads && old(M.ListOk(st, c.0)) && 0 < c.1 < |old(M.Q(st, c.0))|
      requires st.lists == old(st.lists)[c.0 := Without(old(M.Q(st, c.0)), c.1)]
      requires var q0 := old(M.Q(st, c.0));
        && spawned[q0[c.1 - 1]].state == Blocked(Node(q0, c.1 + 1))
        && forall t :: 0 <= t < |spawned| && t != q0[c.1 - 1] ==> spawned[t].state == old(spawned[t].state)
      ensures ListsOk()
    {
      assert old(ListLinked(c.0)) && heads[c.0] in heads.Values;
      ListCut(c);
      OtherListsUntouched((c.0, old(M.Q(st, c.0))[c.1 - 1]));
    }

    /** Take the node at position `i`, with `prev` in front of it or at the head, out of the list. */
    method Unlink(h: WaitHead, prev: Tcb?, next: Tcb?, ghost i: nat)
      requires Valid() && Knows(h) && M.ListOk(st, h.lid) && i < |M.Q(st, h.lid)|
      requires prev == if i == 0 then null else spawned[M.Q(st, h.lid)[i - 1]]
      requires next == Node(M.Q(st, h.lid), i + 1)
      modifies this`st, h`head, spawned`state
      ensures Valid()
      ensures st == M.PopAt(old(st), h.lid, i)
    {
      if prev == null {
        UnlinkFirst(h, next);
      } else {
        UnlinkAfter(h, prev, next, i);
      }
    }

    twostate lemma ListCut(c: (ListId, nat))
      requires old(TasksOk()) && old(M.WaitInv(st))
      requires spawned == old(spawned) && heads == old(heads) && |st.tasks| == |spawned| && M.WaitInv(st)
      requires var (l, i) := c;
        && l in heads && old(ListLinked(l)) && old(M.ListOk(st, l)) && i < |old(M.Q(st, l))|
        && M.Q(st, l) == Without(old(M.Q(st, l)), i)
        && var q0 := old(M.Q(st, l));
        && heads[l].head == (if i == 0 then Node(q0, 1) else old(heads[l].head))
        && (i > 0 ==> spawned[q0[i - 1]].state == Blocked(Node(q0, i + 1)))
        && forall t :: 0 <= t < |spawned| && (i == 0 || t != q0[i - 1]) ==> spawned[t].state == old(spawned[t].state)
      ensures ListLinked(c.0)
    {
      ghost var (l, i) := c;
      assert M.ListOk(st, l);
      ghost var q, q0 := M.Q(st, l), old(M.Q(st, l));
      forall j | 0 <= j < |q|
        ensures LinkAt(q, j)
      {
        if j < i {
          assert old(LinkAt(q0, j));
        } else {
          assert old(LinkAt(q0, j + 1));
        }
      }
    }

    /** The first walk of `wait_list_pop_highest`. The states read on the way are all Blocked, so
        its `unreachable!()` arms are never entered. */
    method FindBest(h: WaitHead) returns (best: Tcb, ghost b: nat)
      requires Valid() && Knows(h) && M.ListOk(st, h.lid) && M.Q(st, h.lid) != []
      ensures b == M.Best(st, h.lid) && best == spawned[M.Q(st, h.lid)[b]]
      ensures best.state == Blocked(Node(M.Q(st, h.lid), b + 1)) && (h.head == best <==> b == 0)
    {
      ghost var q := M.Q(st, h.lid);
      assert ListLinked(h.lid);
      best, b := h.head, 0;
      var bestPrio := best.priority;
      assert LinkAt(q, 0);
      var cur := best.state.waitNext;
      ghost var j := 1;
      while cur != null
        invariant 1 <= j <= |q| && cur == Node(q, j)
        invariant b < j && b == M.BestIndex(st.tasks, q[..j])
        invariant best == spawned[q[b]] && bestPrio == best.priority
        decreases |q| - j
      {
        assert q[..j + 1][..j] == q[..j] && LinkAt(q, j);
        if cur.priority < bestPrio {
          bestPrio, best, b := cur.priority, cur, j;
        }
        cur := cur.state.waitNext;
        j := j + 1;
      }
      assert q[..j] == q;
      assert LinkAt(q, b) && h.head.id == q[0] && best.id == q[b];
    }

    /** The second walk: the node in front of the one at position `b`. */
    method FindPrev(h: WaitHead, best: Tcb, ghost b: nat) returns (prev: Tcb)
      requires Valid() && Knows(h) && M.ListOk(st, h.lid) && 0 < b < |M.Q(st, h.lid)|
      requires best == spawned[M.Q(st, h.lid)[b]]
      ensures prev == spawned[M.Q(st, h.lid)[b - 1]]
    {
      ghost var q, p := M.Q(st, h.lid), 0;
      assert ListLinked(h.lid);
      prev := h.head;
      while true
        invariant 0 <= p < b && prev == spawned[q[p]]
        decreases b - p
      {
        assert LinkAt(q, p);
        var prevNext := prev.state.waitNext;
        if prevNext == best {
          assert best.id == q[b] && prevNext.id == q[p + 1];
          return;
        }
        prev, p := prevNext, p + 1;
      }
    }

    /** `wait_list_pop_highest`. */
    method PopHighest(h: WaitHead) returns (best: Tcb?)
      requires Valid() && Knows(h)
      modifies this`st, h`head, spawned`state
      ensures Valid() && M.ListOk(old(st), h.lid)
      ensures M.Q(old(st), h.lid) == [] ==> best == null && st == old(st)
      ensures M.Q(old(st), h.lid) != [] ==>
                var b := M.Best(old(st), h.lid);
                best == spawned[M.Q(old(st), h.lid)[b]] && st == M.PopAt(old(st), h.lid, b)
    {
      assert M.ListOk(st, h.lid) && ListLinked(h.lid);
      if h.head == null {
        return null;
      }
      ghost var b;
      best, b := FindBest(h);
      var bestNext := best.state.waitNext;
      if h.head == best {
        UnlinkFirst(h, bestNext);
      } else {
        var prev := FindPrev(h, best, b);
        UnlinkAfter(h, prev, bestNext, b);
      }
    }

    /** `unblock`. */
    method Unblock(t: Tcb) returns (preempt: bool)
      requires Valid() && M.Started(st) && Has(t)
      requires st.tasks[t.id].state.Popped?
      modifies this`st, t`state
      ensures Valid()
      ensures st == M.Unblock(old(st), t.id) && preempt == M.Outranks(old(st), t.id)
    {
      t.state := Ready(t.timeSlice);
      st := M.Unblock(st, t.id);
      M.SameBlockedKeepsWaitInv(old(st), st);
      TasksEdited((t.id, t.id));
      ListsUntouched();
      preempt := t.priority < current.priority;
    }

    /** `wait_list_pop_highest` followed by `unblock`, on a list that is not empty. */
    method RouseHighest(h: WaitHead) returns (t: Tcb, preempt: bool)
      requires Valid() && Knows(h) && M.Started(st) && M.ListOk(st, h.lid) && M.Q(st, h.lid) != []
      modifies this`st, h`head, spawned`state
      ensures Valid()
      ensures st == M.Rouse(old(st), h.lid, M.Best(old(st), h.lid))
      ensures Has(t) && t.id == M.BestWaiter(old(st), h.lid) && preempt == M.Outranks(old(st), t.id)
    {
      t := PopHighest(h);
      preempt := Unblock(t);
    }

    /** Whether a wait list is empty, as its head shows. */
    lemma HeadShowsEmpty(h: WaitHead)
      requires Valid() && Knows(h)
      ensures M.ListOk(st, h.lid) && (h.head == null <==> M.Q(st, h.lid) == [])
    {
      assert M.ListOk(st, h.lid) && ListLinked(h.lid);
    }

    /** `trigger_pendsv` if `b`. */
    method TriggerIf(b: bool)
      requires Valid()
      modifies this`st, this`pendsv
      ensures Valid() && st == M.Pend(old(st), b)
    {
      if b {
        TriggerPendsv();
      }
    }

    /** The running task blocks on `h`, and the context switch is requested. */
    method Park(h: WaitHead)
      requires Valid() && Knows(h) && M.Started(st) && M.Runnable(st.tasks[st.cur])
      modifies this`st, this`pendsv, h`head, current`state
      ensures Valid() && st == M.Park(old(st), h.lid)
    {
      BlockAndPush(h, current);
      TriggerPendsv();
    }

    /** The same, after `p` was left in the running task's `wait_ptr`. */
    method ParkWith(h: WaitHead, p: WaitPtr)
      requires Valid() && Knows(h) && M.Started(st) && M.Runnable(st.tasks[st.cur])
      modifies this`st, this`pendsv, h`head, current`state, current`waitPtr
      ensures Valid() && st == M.Park(M.SetPtr(old(st), old(st).cur, p), h.lid)
    {
      WritePtr(current, p);
      Park(h);
    }

    /** Pop and unblock the highest-priority waiter, and request a switch if it outranks the
        current task. */
    method WakeHighest(h: WaitHead) returns (t: Tcb)
      requires Valid() && Knows(h) && M.Started(st) && M.ListOk(st, h.lid) && M.Q(st, h.lid) != []
      modifies this`st, this`pendsv, h`head, spawned`state
      ensures Valid() && st == M.WakeBest(old(st), h.lid)
      ensures Has(t) && t.id == M.BestWaiter(old(st), h.lid)
    {
      var preempt;
      t, preempt := RouseHighest(h);
      TriggerIf(preempt);
    }

    /** The same, with `p` left in the waiter's `wait_ptr`; returns what was there. */
    method WakeHighestWith(h: WaitHead, p: WaitPtr) returns (was: WaitPtr)
      requires Valid() && Knows(h) && M.Started(st) && M.ListOk(st, h.lid) && M.Q(st, h.lid) != []
      modifies this`st, this`pendsv, h`head, spawned`state, spawned`waitPtr
      ensures Valid() && st == M.WakeBestWith(old(st), h.lid, p)
      ensures was == old(st).tasks[M.BestWaiter(old(st), h.lid)].ptr
    {
      var t := PopHighest(h);
      was := t.waitPtr;
      LeaveAndUnblock(t, p);
    }

    /** What a waiter that was popped is left with, and its release. */
    method LeaveAndUnblock(t: Tcb, p: WaitPtr)
      requires Valid() && M.Started(st) && Has(t) && st.tasks[t.id].state.Popped?
      modifies this`st, this`pendsv, t`state, t`waitPtr
      ensures Valid()
      ensures st == M.Pend(M.Unblock(M.SetPtr(old(st), t.id, p), t.id), M.Outranks(old(st), t.id))
    {
      WritePtr(t, p);
      UnblockNow(t);
    }

    /** `unblock`, and the switch it calls for. */
    method UnblockNow(t: Tcb)
      requires Valid() && M.Started(st) && Has(t) && st.tasks[t.id].state.Popped?
      modifies this`st, this`pendsv, t`state
      ensures Valid() && st == M.Pend(M.Unblock(old(st), t.id), M.Outranks(old(st), t.id))
    {
      var preempt := Unblock(t);
      TriggerIf(preempt);
    }

    /** The drain loop of `notify_all` and `call_once`. */
    method DrainAll(h: WaitHead) returns (preempt: bool)
      requires Valid() && Knows(h) && M.Started(st)
      modifies this`st, h`head, spawned`state
      ensures Valid()
      ensures st == M.Drain(old(st), h.lid).0 && preempt == M.Drain(old(st), h.lid).1
    {
      preempt := false;
      ghost var k := st;
      while h.head != null
        invariant Valid() && M.Started(st)
        invariant M.Drain(k, h.lid).0 == M.Drain(st, h.lid).0
        invariant M.Drain(k, h.lid).1 == (preempt || M.Drain(st, h.lid).1)
        decreases |M.Q(st, h.lid)|
      {
        HeadShowsEmpty(h);
        M.DrainStep(st, h.lid);
        var t, higher := RouseHighest(h);
        if higher {
          preempt := true;
        }
      }
      HeadShowsEmpty(h);
      M.DrainStep(st, h.lid);
    }

    /** `(*t).priority = p`. */
    method WritePriority(t: Tcb, p: u8)
      requires Valid() && Has(t)
      modifies this`st, t`priority
      ensures Valid() && st == M.SetPriority(old(st), t.id, p)
    {
      t.priority := p;
      st := M.SetPriority(st, t.id, p);
      M.SameBlockedKeepsWaitInv(old(st), st);
      TasksEdited((t.id, t.id));
      ListsUntouched();
    }

    /** `(*t).wait_ptr = p`, or a copy through the pointer it holds. */
    method WritePtr(t: Tcb, p: WaitPtr)
      requires Valid() && Has(t)
      modifies this`st, t`waitPtr
      ensures Valid() && st == M.SetPtr(old(st), t.id, p)
    {
      t.waitPtr := p;
      st := M.SetPtr(st, t.id, p);
      M.SameBlockedKeepsWaitInv(old(st), st);
      TasksEdited((t.id, t.id));
      ListsUntouched();
    }

    /** `port::trigger_pendsv`. */
    method TriggerPendsv()
      requires Valid()
      modifies this`st, this`pendsv
      ensures Valid() && st == M.Pend(old(st), true)
    {
      pendsv := true;
      st := M.Pend(st, true);
      M.SameBlockedKeepsWaitInv(old(st), st);
      ListsUntouched();
      assert forall i :: 0 <= i < |spawned| ==> old(AllNextAt(i)) ==> AllNextAt(i);
    }

    // ---------------------------------------------------------------- find_next and the tick

    /** `find_next`; null stands for its panic. */
    method FindNext() returns (best: Tcb?)
      requires Valid()
      ensures M.Next(st).None? ==> best == null
      ensures M.Next(st).Some? ==> best == spawned[M.Next(st).value] && M.IsNext(st, M.Next(st).value)
    {
      M.NextIsFirstOfTopTier(st);
      var start := FirstAfterCurrent();
      var bestPrio;
      best, bestPrio := PassToEnd(start);
      if current != null {
        best := PassFromHead(start, best, bestPrio);
      }
    }

    /** Pass 1 of `find_next`: from `start` to the end of the list. */
    method PassToEnd(start: Tcb?) returns (best: Tcb?, bestPrio: u8)
      requires TasksOk() && start == (if spawned == [] then null else Visited(0))
      ensures BestSoFar(best, bestPrio, SearchStart())
    {
      bestPrio, best := 255, null;
      var t := start;
      ghost var d := 0;
      while t != null
        invariant 0 <= d <= SearchStart() && t == (if d < SearchStart() then Visited(d) else null)
        invariant BestSoFar(best, bestPrio, d)
        decreases SearchStart() - d
      {
        VisitedNext(d);
        BestStep(best, bestPrio, d);
        if Improves(t, best, bestPrio) {
          bestPrio, best := t.priority, t;
        }
        t := t.allNext;
        d := d + 1;
      }
    }

    /** Pass 2 of `find_next`: from the head up to, but not including, `start`. */
    method PassFromHead(start: Tcb?, best0: Tcb?, bestPrio0: u8) returns (best: Tcb?)
      requires TasksOk() && current != null && start == Visited(0)
      requires BestSoFar(best0, bestPrio0, SearchStart())
      ensures exists p :: BestSoFar(best, p, |spawned|)
    {
      var bestPrio;
      best, bestPrio := best0, bestPrio0;
      var t := allTasks;
      ghost var d := SearchStart();
      while t != null && t != start
        invariant SearchStart() <= d <= |spawned| && t == (if d < |spawned| then Visited(d) else start)
        invariant BestSoFar(best, bestPrio, d)
        decreases |spawned| - d
      {
        VisitedNext(d);
        BestStep(best, bestPrio, d);
        if Improves(t, best, bestPrio) {
          bestPrio, best := t.priority, t;
        }
        t := t.allNext;
        d := d + 1;
      }
    }

    /** Where the search starts: the node after `CURRENT`, or the list head. */
    method FirstAfterCurrent() returns (start: Tcb?)
      requires Valid()
      ensures start == (if spawned == [] then null else Visited(0))
    {
      start := allTasks;
      if current != null {
        assert AllNextAt(st.cur);
        if current.allNext != null {
          start := current.allNext;
        }
      }
    }

    /** How many tasks the first pass visits: those after `CURRENT`, or all if there is none. */
    ghost function SearchStart(): nat
      requires TasksOk()
      reads this, spawned
    {
      if M.Origin(st) == 0 then |spawned| else M.Origin(st)
    }

    ghost function Visited(d: nat): Tcb
      requires TasksOk() && d < |spawned|
      reads this, spawned
    {
      spawned[M.Visit(|spawned|, M.Origin(st), d)]
    }

    /** Following `all_next` visits the tasks in search order, with the end of the list in between. */
    lemma VisitedNext(d: nat)
      requires TasksOk() && d < |spawned|
      ensures Visited(d).allNext ==
        if d + 1 == SearchStart() then null else if d + 1 < |spawned| then Visited(d + 1) else Visited(0)
    {
      assert AllNextAt(M.Visit(|spawned|, M.Origin(st), d));
    }

    ghost predicate BestSoFar(best: Tcb?, bestPrio: u8, d: nat)
      requires TasksOk() && d <= |spawned|
      reads this, spawned
    {
      var b := M.BestOf(st, d);
      if b.None? then best == null else best == spawned[b.value] && bestPrio == best.priority
    }

    /** The test in both loops of `find_next`. */
    predicate Improves(t: Tcb, best: Tcb?, bestPrio: u8)
      reads t
    {
      (t.state.Ready? || t.state.Running?) && (best == null || t.priority < bestPrio)
    }

    lemma BestStep(best: Tcb?, bestPrio: u8, d: nat)
      requires TasksOk() && d < |spawned| && BestSoFar(best, bestPrio, d)
      ensures var t := Visited(d);
        if Improves(t, best, bestPrio) then BestSoFar(t, t.priority, d + 1) else BestSoFar(best, bestPrio, d + 1)
    {
    }

    /** The fused pass of `tick`: wake the sleepers that are due, and report whether any Ready task
        outranks the current one. */
    method WakeScan() returns (shouldPreempt: bool)
      requires Valid() && M.Started(st)
      modifies this`st, spawned`state
      ensures Valid()
      ensures st == M.WakeSleepers(old(st)) && shouldPreempt == M.HigherReady(st)
    {
      var curPrio := current.priority;
      shouldPreempt := false;
      var t := allTasks;
      ghost var i, k := |spawned|, st;
      while t != null
        invariant 0 <= i <= |spawned| && t == (if i == 0 then null else spawned[i - 1])
        invariant Valid() && st == M.WakeFrom(k, i)
        invariant shouldPreempt == M.OutrankedFrom(st, i)
        invariant curPrio == st.tasks[st.cur].priority
        decreases i
      {
        i := i - 1;
        t, shouldPreempt := ScanRound(t, curPrio, shouldPreempt, k, i);
      }
    }

    /** The scan that had dealt with the tasks after `i` deals with task `i`. */
    method ScanRound(t: Tcb, curPrio: u8, shouldPreempt: bool, ghost k: M.Kern, ghost i: nat)
      returns (next: Tcb?, shouldPreempt': bool)
      requires Valid() && M.Started(st) && i < |spawned| && spawned[i] == t && M.Started(k) && |k.tasks| == |spawned|
      requires st == M.WakeFrom(k, i + 1) && shouldPreempt == M.OutrankedFrom(st, i + 1)
      requires curPrio == st.tasks[st.cur].priority
      modifies this`st, t`state
      ensures Valid() && st == M.WakeFrom(k, i) && M.Started(st) && shouldPreempt' == M.OutrankedFrom(st, i)
      ensures curPrio == st.tasks[st.cur].priority && next == (if i == 0 then null else spawned[i - 1])
    {
      M.OutrankedStep(k, i);
      next, shouldPreempt' := ScanOne(t, curPrio, shouldPreempt, i);
    }

    /** One round of that pass, for task `u`; the current task is skipped. */
    method ScanOne(t: Tcb, curPrio: u8, shouldPreempt: bool, ghost u: nat) returns (next: Tcb?, shouldPreempt': bool)
      requires Valid() && M.Started(st) && u < |spawned| && spawned[u] == t
      requires curPrio == st.tasks[st.cur].priority
      modifies this`st, t`state
      ensures Valid()
      ensures st == M.ScanStep(old(st), u)
      ensures shouldPreempt' == (shouldPreempt || M.Outranker(st, u))
      ensures next == (if u == 0 then null else spawned[u - 1])
    {
      assert AllNextAt(u);
      next, shouldPreempt' := t.allNext, shouldPreempt;
      if t == current {
        return;
      }
      WakeOne(t);
      if t.state.Ready? && t.priority < curPrio {
        shouldPreempt' := true;
      }
    }

    /** Wake one task if it sleeps and is due. */
    method WakeOne(t: Tcb)
      requires Valid() && Has(t)
      modifies this`st, t`state
      ensures Valid()
      ensures st == M.SetTask(old(st), t.id, M.WakeIfDue(old(st).tasks[t.id], old(st).tick))
    {
      if t.state.Sleeping? && tick >= t.state.deadline {
        WriteState(t, Ready(t.timeSlice), M.Ready(t.timeSlice));
      }
    }

    /** The rotation check of `tick`. */
    method PeerScan() returns (found: bool)
      requires Valid() && M.Started(st)
      ensures found == M.PeerReady(st)
    {
      var t := allTasks;
      ghost var i := |spawned|;
      while t != null
        invariant 0 <= i <= |spawned| && t == (if i == 0 then null else spawned[i - 1])
        invariant forall u :: i <= u < |spawned| ==>
          !(u != st.cur && st.tasks[u].state.Ready? && st.tasks[u].priority == st.tasks[st.cur].priority)
        decreases i
      {
        ghost var u := i - 1;
        assert AllNextAt(u);
        assert spawned[u].id == u && spawned[st.cur].id == st.cur;
        if t != current && t.state.Ready? && t.priority == current.priority {
          assert st.tasks[u].state.Ready?;
          return true;
        }
        t := t.allNext;
        i := u;
      }
      found := false;
    }

    /** `tick`. */
    method Tick() returns (preempt: bool)
      requires Valid()
      modifies this`st, this`tick, spawned`state
      ensures Valid()
      ensures st == M.Tick(old(st)).0 && preempt == M.Tick(old(st)).1
    {
      AdvanceClock();
      if current == null || !current.state.Running? {
        return false;
      }
      preempt := TickRunning();
    }

    /** The rest of `tick`, once `CURRENT` is known to be Running. */
    method TickRunning() returns (preempt: bool)
      requires Valid() && M.Started(st) && st.tasks[st.cur].state.Running?
      modifies this`st, spawned`state
      ensures Valid()
      ensures st == M.TickRunning(old(st)).0 && preempt == M.TickRunning(old(st)).1
    {
      var shouldPreempt := WakeScan();
      if shouldPreempt {
        return true;
      }
      preempt := ChargeTick();
    }

    /** Charge the running task, and rotate if its quantum expired and it has a peer. */
    method ChargeTick() returns (preempt: bool)
      requires Valid() && M.Started(st) && st.tasks[st.cur].state.Running?
      modifies this`st, current`state
      ensures Valid()
      ensures var q := M.Quantum(old(st).tasks[old(st).cur].state.rem, old(st).tasks[old(st).cur].slice);
        st == M.SetState(old(st), old(st).cur, M.Running(q.0)) && preempt == (q.1 && M.PeerReady(old(st)))
    {
      ghost var k := st;
      var expired := ConsumeQuantum();
      preempt := false;
      if expired {
        preempt := PeerScan();
        M.PeerReadySame(k, st);
      }
    }

    /** Charge the running task one tick. */
    method ConsumeQuantum() returns (expired: bool)
      requires Valid() && M.Started(st) && st.tasks[st.cur].state.Running?
      modifies this`st, current`state
      ensures Valid()
      ensures var q := M.Quantum(old(st).tasks[old(st).cur].state.rem, old(st).tasks[old(st).cur].slice);
        st == M.SetState(old(st), old(st).cur, M.Running(q.0)) && expired == q.1
    {
      var rem: u8 := current.state.sliceRemaining;
      if rem > 0 {
        rem := rem - 1;
      }
      expired := rem == 0;
      if expired {
        rem := current.timeSlice;
      }
      WriteState(current, Running(rem), M.Running(rem));
    }

    /** `TICK = TICK.wrapping_add(1)`. */
    method AdvanceClock()
      requires Valid()
      modifies this`st, this`tick
      ensures Valid() && st == old(st).(tick := WrappingAdd(old(st).tick, 1))
    {
      tick := WrappingAdd(tick, 1);
      st := st.(tick := WrappingAdd(st.tick, 1));
      M.SameBlockedKeepsWaitInv(old(st), st);
      ListsUntouched();
      assert forall i :: 0 <= i < |spawned| ==> old(AllNextAt(i)) ==> AllNextAt(i);
    }

    /** Write the state of a task that neither was nor becomes Blocked. */
    method WriteState(t: Tcb, s: TaskState, ghost p: M.Phase)
      requires Valid() && Has(t)
      requires !st.tasks[t.id].state.Blocked? && !p.Blocked? && !p.Popped?
      requires p.Running? ==> t.id == st.cur
      requires match p
               case Ready(r) => s == Ready(r)
               case Running(r) => s == Running(r)
               case Sleeping(d) => s == Sleeping(d)
               case Dead => s == Dead
               case _ => false
      modifies this`st, t`state
      ensures Valid() && st == M.SetState(old(st), t.id, p)
    {
      t.state := s;
      st := M.SetState(st, t.id, p);
      M.SameBlockedKeepsWaitInv(old(st), st);
      TasksEdited((t.id, t.id));
      ListsUntouched();
    }

    // ---------------------------------------------------------------- context switches

    /** PendSV: the pending bit is cleared on entry, then `pendsv_save_and_switch` runs. None stands
        for the panic of `find_next`; the `unreachable!()` after it is never reached. */
    method PendsvSaveAndSwitch(currentSp: int) returns (nextSp: Option<int>)
      requires Valid() && M.Started(st)
      modifies this`st, this`pendsv, this`current, spawned`state, spawned`sp
      ensures Valid() && st == M.Switch(old(st), currentSp)
      ensures nextSp.None? <==> M.Next(M.Retire(old(st).(pendsv := false), currentSp)).None?
      ensures nextSp.Some? ==> M.Started(st) && st.tasks[st.cur].state.Running? && nextSp.value == st.tasks[st.cur].sp
    {
      Retire(currentSp);
      var next := FindNext();
      if next == null {
        return None;
      }
      Dispatch(next);
      nextSp := Some(next.sp);
    }

    /** The hardware clears the pending bit; then the outgoing task is put away. */
    method Retire(currentSp: int)
      requires Valid() && M.Started(st)
      modifies this`st, this`pendsv, current`state, current`sp
      ensures Valid() && st == M.Retire(old(st).(pendsv := false), currentSp)
      ensures forall t :: 0 <= t < |st.tasks| ==> !st.tasks[t].state.Running?
    {
      ClearPending();
      PutAway(currentSp);
    }

    method ClearPending()
      requires Valid()
      modifies this`st, this`pendsv
      ensures Valid() && st == old(st).(pendsv := false)
    {
      pendsv := false;
      st := st.(pendsv := false);
      M.SameBlockedKeepsWaitInv(old(st), st);
      ListsUntouched();
      assert forall i :: 0 <= i < |spawned| ==> old(AllNextAt(i)) ==> AllNextAt(i);
    }

    /** Save the outgoing task's stack pointer, and move it from Running to Ready. */
    method PutAway(currentSp: int)
      requires Valid() && M.Started(st)
      modifies this`st, current`state, current`sp
      ensures Valid() && st == M.Retire(old(st), currentSp)
      ensures forall t :: 0 <= t < |st.tasks| ==> !st.tasks[t].state.Running?
    {
      SaveSp(currentSp);
      if current.state.Running? {
        WriteState(current, Ready(current.state.sliceRemaining), M.Ready(current.state.sliceRemaining));
      }
    }

    method SaveSp(currentSp: int)
      requires Valid() && M.Started(st)
      modifies this`st, current`sp
      ensures Valid() && st == M.SetTask(old(st), old(st).cur, old(st).tasks[old(st).cur].(sp := currentSp))
    {
      current.sp := currentSp;
      st := M.SetTask(st, st.cur, st.tasks[st.cur].(sp := currentSp));
      M.SameBlockedKeepsWaitInv(old(st), st);
      TasksEdited((st.cur as nat, st.cur as nat));
      ListsUntouched();
    }

    /** Make `next` the current task. */
    method Dispatch(next: Tcb)
      requires Valid() && Has(next) && st.tasks[next.id].state.Ready?
      requires forall t :: 0 <= t < |st.tasks| ==> !st.tasks[t].state.Running?
      modifies this`st, this`current, next`state
      ensures Valid() && st == M.Dispatch(old(st), next.id)
    {
      SetCurrent(next);
      WriteState(next, Running(next.state.sliceRemaining), M.Running(next.state.sliceRemaining));
    }

    /** `CURRENT = next`, while no task is Running. */
    method SetCurrent(next: Tcb)
      requires Valid() && Has(next)
      requires forall t :: 0 <= t < |st.tasks| ==> !st.tasks[t].state.Running?
      modifies this`st, this`current
      ensures Valid() && st == old(st).(cur := next.id)
    {
      current := next;
      st := st.(cur := next.id);
      M.SameBlockedKeepsWaitInv(old(st), st);
      ListsUntouched();
      assert forall i :: 0 <= i < |spawned| ==> old(AllNextAt(i)) ==> AllNextAt(i);
    }

    /** `svc_first_task_sp`. None stands for the null `best` that the source would dereference. */
    method SvcFirstTask() returns (sp: Option<int>)
      requires Valid() && st.cur == -1
      modifies this`st, this`current, spawned`state
      ensures Valid() && st == M.Launch(old(st))
      ensures sp.Some? <==> exists t :: 0 <= t < |old(st).tasks| && old(st).tasks[t].state.Ready?
                                        && old(st).tasks[t].priority < 255
      ensures sp.Some? ==> M.Started(st) && sp.value == st.tasks[st.cur].sp
    {
      var best := FindFirst();
      M.FirstReadyIsFirst(st, |st.tasks|);
      if best == null {
        return None;
      }
      Dispatch(best);
      sp := Some(best.sp);
    }

    /** The search of `svc_first_task_sp`. */
    method FindFirst() returns (best: Tcb?)
      requires Valid() && st.cur == -1
      ensures var b := M.FirstReady(st, |st.tasks|); best == if b.None? then null else spawned[b.value]
    {
      var bestPrio: u8 := 255;
      best := null;
      var t := allTasks;
      ghost var d := 0;
      while t != null
        invariant 0 <= d <= |spawned| && t == (if d == |spawned| then null else spawned[|spawned| - 1 - d])
        invariant var b := M.FirstReady(st, d);
          if b.None? then best == null && bestPrio == 255 else best == spawned[b.value] && bestPrio == best.priority
        decreases |spawned| - d
      {
        assert AllNextAt(|spawned| - 1 - d);
        if t.state.Ready? && t.priority < bestPrio {
          bestPrio, best := t.priority, t;
        }
        t := t.allNext;
        d := d + 1;
      }
    }

    // ---------------------------------------------------------------- task API and set-up

    /** The statics before any task is spawned. */
    constructor ()
      ensures Valid() && st == M.Kern([], -1, 0, false, map[])
      ensures spawned == [] && heads == map[]
    {
      current, allTasks, tick, pendsv := null, null, 0, false;
      st := M.Kern([], -1, 0, false, map[]);
      spawned, heads := [], map[];
    }

    /** A primitive comes into use. In the source it is a static and nothing is executed. */
    ghost method Register(h: WaitHead)
      requires Valid() && h.head == null && h.lid !in heads
      modifies this`heads
      ensures Valid() && Knows(h) && heads == old(heads)[h.lid := h]
    {
      heads := heads[h.lid := h];
      forall l | l in heads
        ensures ListLinked(l)
      {
        assert M.ListOk(st, l);
        if l != h.lid {
          assert old(ListLinked(l));
          ListStillLinked(l);
        }
      }
    }

    /** Framing: only links and tasks outside the list were added. */
    twostate lemma ListStillLinked(l: ListId)
      requires old(TasksOk()) && old(M.WaitInv(st)) && l in old(heads) && old(ListLinked(l))
      requires |st.tasks| == |spawned| && M.WaitInv(st) && M.Q(st, l) == M.Q(old(st), l)
      requires |old(spawned)| <= |spawned| && old(spawned) == spawned[..|old(spawned)|]
      requires l in heads && heads[l] == old(heads[l]) && heads[l].head == old(heads[l].head)
      requires forall i :: 0 <= i < |old(spawned)| ==> spawned[i].state == old(spawned[i].state)
      ensures ListLinked(l)
    {
      assert old(M.ListOk(st, l)) && M.ListOk(st, l);
      ghost var q := M.Q(st, l);
      forall j | 0 <= j < |q|
        ensures LinkAt(q, j)
      {
        assert old(LinkAt(q, j));
      }
    }

    /** The effect of `spawn_into` on the TCB and on `ALL_TASKS`. */
    method SpawnInto(tcb: Tcb, sp: int, priority: u8, timeSlice: u8)
      requires Valid() && tcb !in spawned
      modifies this`st, this`spawned, this`allTasks, tcb
      ensures Valid() && spawned == old(spawned) + [tcb]
      ensures st == old(st).(tasks := old(st).tasks + [M.NewTask(sp, priority, timeSlice)])
    {
      tcb.Init(sp, priority, timeSlice, allTasks, |spawned|);
      allTasks := tcb;
      spawned := spawned + [tcb];
      st := st.(tasks := st.tasks + [M.NewTask(sp, priority, timeSlice)]);
      M.SpawnKeepsWaitInv(old(st), st);
      TaskAdded();
      forall l | l in heads
        ensures ListLinked(l)
      {
        assert old(ListLinked(l));
        ListStillLinked(l);
      }
    }

    /** Framing: one task was put in front of `ALL_TASKS`, and the others were not written. */
    twostate lemma TaskAdded()
      requires old(TasksOk()) && |spawned| == |old(spawned)| + 1 && spawned[..|old(spawned)|] == old(spawned)
      requires |st.tasks| == |spawned| && st.tasks[..|old(spawned)|] == old(st.tasks)
      requires forall t :: t in old(spawned) ==> unchanged(t)
      requires var n := |spawned| - 1; var t := spawned[n];
        allTasks == t && t.id == n && t.allNext == old(allTasks) && Mirrors(t, st.tasks[n])
      requires current == old(current) && tick == old(tick) && pendsv == old(pendsv)
      requires st.cur == old(st.cur) && st.tick == old(st.tick) && st.pendsv == old(st.pendsv)
      ensures TasksOk()
    {
      forall i | 0 <= i < |spawned|
        ensures AllNextAt(i) && Mirrors(spawned[i], st.tasks[i]) && spawned[i].id == i
      {
        if i < |old(spawned)| {
          assert spawned[i] == old(spawned)[i] && spawned[i] in old(spawned) && st.tasks[i] == old(st.tasks)[i];
          assert old(AllNextAt(i)) && old(Mirrors(spawned[i], st.tasks[i]));
        }
      }
    }

    /** `yield_now`. */
    method YieldNow()
      requires Valid() && M.Started(st)
      modifies this`st, this`pendsv, current`state
      ensures Valid() && st == M.Yield(old(st))
    {
      if current.state.Running? {
        WriteState(current, Running(0), M.Running(0));
      }
      TriggerPendsv();
    }

    /** `sleep_until`. */
    method SleepUntil(deadline: u64)
      requires Valid() && M.Started(st) && !st.tasks[st.cur].state.Blocked?
      modifies this`st, this`pendsv, current`state
      ensures Valid() && st == M.SleepUntil(old(st), deadline)
    {
      WriteState(current, Sleeping(deadline), M.Sleeping(deadline));
      TriggerPendsv();
    }

    /** `sleep`: read the clock, then sleep until that plus the duration. */
    method Sleep(duration: u64)
      requires Valid() && M.Started(st) && !st.tasks[st.cur].state.Blocked?
      modifies this`st, this`pendsv, current`state
      ensures Valid() && st == M.SleepUntil(old(st), WrappingAdd(old(st).tick, duration))
    {
      SleepUntil(WrappingAdd(tick, duration));
    }

    /** `exit`, up to the context switch it never returns from. */
    method Exit()
      requires Valid() && M.Started(st) && !st.tasks[st.cur].state.Blocked?
      modifies this`st, this`pendsv, current`state
      ensures Valid() && st == M.Exit(old(st))
    {
      WriteState(current, Dead, M.Dead);
      TriggerPendsv();
    }

    /** `systick_handler`, without the stack canaries. */
    method SystickHandler()
      requires Valid()
      modifies this`st, this`tick, this`pendsv, spawned`state
      ensures Valid() && st == M.SysTick(old(st))
    {
      var preempt := Tick();
      if preempt {
        TriggerPendsv();
      }
    }
  }
}
