/** `EventGroup`: 32 flags, consumed by the tasks they wake. */
module EventModel {
  import opened Types
  import M = KernelModel

  /** Every task parked in the list has left the mask it waits for. */
  ghost predicate MasksParked(k: M.Kern, l: ListId)
    requires M.ListOk(k, l)
  {
    forall j :: 0 <= j < |M.Q(k, l)| ==> k.tasks[M.Q(k, l)[j]].ptr.Mask?
  }

  /** The bits that a waiter for `mask` would consume: the common ones of a `wait_any` waiter if
      there are any, the whole mask of a `wait_all` waiter if it is contained in `bits`. */
  function Match(all: bool, bits: Flags, mask: Flags): Option<Flags> {
    if all then (if mask <= bits then Some(mask) else None)
    else (if bits * mask != {} then Some(bits * mask) else None)
  }

  /** A scan of one wait list in progress: the node it stands on, the flags left, whether a woken
      task outranks the current one, and who took which flags so far. */
  datatype Scan = Scan(k: M.Kern, bits: Flags, at: nat, preempt: bool, taken: seq<(nat, Flags)>)

  ghost predicate ScanOk(s: Scan, l: ListId) {
    M.Started(s.k) && M.WaitInv(s.k) && M.ListOk(s.k, l) && MasksParked(s.k, l)
  }

  /** One round of either loop of `set`. */
  function Visit(all: bool, s: Scan, l: ListId): Scan
    requires ScanOk(s, l) && s.at < |M.Q(s.k, l)|
  {
    var t := M.Q(s.k, l)[s.at];
    match Match(all, s.bits, s.k.tasks[t].ptr.flags)
    case None => s.(at := s.at + 1)
    case Some(m) =>
      Scan(M.RouseWith(s.k, l, s.at, Mask(m)), s.bits - m, s.at, s.preempt || M.Outranks(s.k, t), s.taken + [(t, m)])
  }

  lemma VisitKeepsScanOk(all: bool, s: Scan, l: ListId)
    requires ScanOk(s, l) && s.at < |M.Q(s.k, l)|
    ensures ScanOk(Visit(all, s, l), l)
    ensures |M.Q(Visit(all, s, l).k, l)| - Visit(all, s, l).at == |M.Q(s.k, l)| - s.at - 1
  {
    var t, s' := M.Q(s.k, l)[s.at], Visit(all, s, l);
    if Match(all, s.bits, s.k.tasks[t].ptr.flags).Some? {
      M.RouseWithKeepsWaitInv(s.k, l, s.at, s'.k.tasks[t].ptr);
      assert M.ListOk(s'.k, l);
    }
  }

  /** A whole scan, from the node it stands on to the end of the list. */
  function ScanList(all: bool, s: Scan, l: ListId): Scan
    requires ScanOk(s, l)
    decreases |M.Q(s.k, l)| - s.at, 1
  {
    ScanRest(all, s, l)
  }

  /** This node, and then the rest. */
  function ScanRest(all: bool, s: Scan, l: ListId): Scan
    requires ScanOk(s, l)
    decreases |M.Q(s.k, l)| - s.at, 0
  {
    if s.at >= |M.Q(s.k, l)| then s else
    VisitKeepsScanOk(all, s, l);
    ScanList(all, Visit(all, s, l), l)
  }

  lemma ScanListUnrolls(all: bool, s: Scan, l: ListId)
    requires ScanOk(s, l)
    ensures s.at >= |M.Q(s.k, l)| ==> ScanList(all, s, l) == s
    ensures s.at < |M.Q(s.k, l)| ==>
              ScanOk(Visit(all, s, l), l) && ScanList(all, s, l) == ScanList(all, Visit(all, s, l), l)
  {
    assert ScanList(all, s, l) == ScanRest(all, s, l);
    if s.at < |M.Q(s.k, l)| {
      VisitKeepsScanOk(all, s, l);
    }
  }

  lemma {:induction false} ScanListKeepsScanOk(all: bool, s: Scan, l: ListId)
    requires ScanOk(s, l)
    ensures ScanOk(ScanList(all, s, l), l)
    decreases |M.Q(s.k, l)| - s.at
  {
    ScanListUnrolls(all, s, l);
    if s.at < |M.Q(s.k, l)| {
      VisitKeepsScanOk(all, s, l);
      ScanListKeepsScanOk(all, Visit(all, s, l), l);
    }
  }

  lemma VisitKeepsOther(all: bool, s: Scan, l: ListId, l2: ListId)
    requires ScanOk(s, l) && s.at < |M.Q(s.k, l)| && l2 != l && M.ListOk(s.k, l2) && MasksParked(s.k, l2)
    ensures var s' := Visit(all, s, l);
      M.Q(s'.k, l2) == M.Q(s.k, l2) && M.ListOk(s'.k, l2) && MasksParked(s'.k, l2)
  {
    VisitKeepsScanOk(all, s, l);
    assert M.ListOk(Visit(all, s, l).k, l2);
  }

  /** A scan of one list leaves the masks on another alone. */
  lemma {:induction false} ScanListKeepsOther(all: bool, s: Scan, l: ListId, l2: ListId)
    requires ScanOk(s, l) && l2 != l && M.ListOk(s.k, l2) && MasksParked(s.k, l2)
    ensures var r := ScanList(all, s, l); M.Q(r.k, l2) == M.Q(s.k, l2) && ScanOk(r.(at := 0), l2)
    decreases |M.Q(s.k, l)| - s.at
  {
    ScanListUnrolls(all, s, l);
    if s.at < |M.Q(s.k, l)| {
      VisitKeepsOther(all, s, l, l2);
      ScanListKeepsOther(all, Visit(all, s, l), l, l2);
    }
  }

  ghost predicate GroupOk(k: M.Kern, al: ListId, ll: ListId) {
    && M.Started(k) && M.WaitInv(k) && al != ll
    && M.ListOk(k, al) && MasksParked(k, al)
    && M.ListOk(k, ll) && MasksParked(k, ll)
  }

  /** `set` and `set_from_isr` up to the request for a context switch. */
  function Set(k: M.Kern, bits: Flags, al: ListId, ll: ListId, mask: Flags): Scan
    requires GroupOk(k, al, ll)
  {
    var s := Scan(k, bits + mask, 0, false, []);
    ScanListKeepsOther(false, s, al, ll);
    ScanList(true, ScanList(false, s, al).(at := 0), ll)
  }

  /** `wait_any` for a mask that matches: the flags left, and those handed over. */
  function WaitAny(k: M.Kern, bits: Flags, l: ListId, mask: Flags): (M.Kern, Flags)
    requires M.Started(k)
  {
    match Match(false, bits, mask)
    case Some(m) => (M.SetPtr(k, k.cur, Mask(m)), bits - m)
    case None => (M.Park(M.SetPtr(k, k.cur, Mask(mask)), l), bits)
  }

  /** `wait_all`. */
  function WaitAll(k: M.Kern, bits: Flags, l: ListId, mask: Flags): (M.Kern, Flags)
    requires M.Started(k)
  {
    match Match(true, bits, mask)
    case Some(m) => (k, bits - m)
    case None => (M.Park(M.SetPtr(k, k.cur, Mask(mask)), l), bits)
  }
}

/** The event group on the heap. */
module EventGroups {
  import opened Types
  import M = KernelModel
  import V = EventModel
  import opened Scheduler

  class EventGroup {
    var bits: Flags
    const anyHead: WaitHead
    const allHead: WaitHead

    constructor (ah: WaitHead, lh: WaitHead)
      ensures bits == {} && anyHead == ah && allHead == lh
    {
      bits, anyHead, allHead := {}, ah, lh;
    }

    ghost predicate Valid(k: Kernel)
      reads k, anyHead, allHead
    {
      k.Knows(anyHead) && k.Knows(allHead) && anyHead.lid != allHead.lid
    }

    /** `inner.bits = b`. */
    method WriteBits(k: Kernel, b: Flags)
      requires k.Valid()
      modifies this`bits
      ensures k.Valid() && bits == b
    {
      bits := b;
    }

    /** One of the two loops of `set`. A matched node is taken out of the list the cursor walks,
        its flags are consumed, and it is unblocked; `prev` then links past it. */
    method ScanList(k: Kernel, h: WaitHead, all: bool, preempt0: bool, ghost s0: V.Scan)
      returns (preempt: bool, ghost s: V.Scan)
      requires k.Valid() && k.Knows(h) && V.ScanOk(s0, h.lid)
      requires s0.k == k.st && s0.bits == bits && s0.at == 0 && s0.preempt == preempt0
      modifies this`bits, k`st, h`head, k.spawned`state, k.spawned`waitPtr
      ensures k.Valid()
      ensures s == V.ScanList(all, s0, h.lid) && s.k == k.st && s.bits == bits && s.preempt == preempt
    {
      preempt := preempt0;
      s := s0;
      ghost var goal := V.ScanList(all, s0, h.lid);
      var prev: Tcb? := null;
      var cur := FirstNode(k, h);
      while cur != null
        invariant k.Valid() && Scanning(k, h, all, s, prev, cur, preempt, goal)
        decreases |M.Q(s.k, h.lid)| - s.at
      {
        prev, cur, preempt, s := Round(k, h, all, prev, cur, preempt, s, goal);
      }
      ScanningEnds(k, h, all, s, prev, preempt, goal);
    }

    /** The scan `s` is where the loop is, and what is left of it has the outcome `goal`. */
    ghost predicate Scanning(k: Kernel, h: WaitHead, all: bool, s: V.Scan, prev: Tcb?, cur: Tcb?, preempt: bool,
                             goal: V.Scan)
      requires k.TasksOk()
      reads this`bits, k, k.spawned
    {
      && V.ScanOk(s, h.lid) && s.at <= |M.Q(s.k, h.lid)|
      && s.k == k.st && s.bits == bits && s.preempt == preempt
      && At(k, h, s.at, prev, cur)
      && V.ScanList(all, s, h.lid) == goal
    }

    lemma ScanningEnds(k: Kernel, h: WaitHead, all: bool, s: V.Scan, prev: Tcb?, preempt: bool, goal: V.Scan)
      requires k.TasksOk() && Scanning(k, h, all, s, prev, null, preempt, goal)
      ensures s == goal && s.k == k.st && s.bits == bits && s.preempt == preempt
    {
      V.ScanListUnrolls(all, s, h.lid);
    }

    /** One round of the loop. */
    method Round(k: Kernel, h: WaitHead, all: bool, prev: Tcb?, cur: Tcb, preempt: bool, ghost s: V.Scan,
            ghost goal: V.Scan)
      returns (prev': Tcb?, next: Tcb?, preempt': bool, ghost s': V.Scan)
      requires k.Valid() && k.Knows(h) && Scanning(k, h, all, s, prev, cur, preempt, goal)
      modifies this`bits, k`st, h`head, k.spawned`state, k.spawned`waitPtr
      ensures k.Valid() && Scanning(k, h, all, s', prev', next, preempt', goal)
      ensures |M.Q(s'.k, h.lid)| - s'.at < |M.Q(s.k, h.lid)| - s.at
    {
      V.VisitKeepsScanOk(all, s, h.lid);
      V.ScanListUnrolls(all, s, h.lid);
      prev', next, preempt' := ServeNode(k, h, all, prev, cur, preempt, s);
      s' := V.Visit(all, s, h.lid);
    }

    /** The cursor stands on position `i` of the list, with `prev` in front of it. */
    ghost predicate At(k: Kernel, h: WaitHead, i: nat, prev: Tcb?, cur: Tcb?)
      requires k.TasksOk() && M.ListOk(k.st, h.lid)
      reads k, k.spawned
    {
      var q := M.Q(k.st, h.lid);
      && i <= |q|
      && prev == (if i == 0 then null else k.spawned[q[i - 1]])
      && cur == k.Node(q, i)
    }

    method FirstNode(k: Kernel, h: WaitHead) returns (cur: Tcb?)
      requires k.Valid() && k.Knows(h) && M.ListOk(k.st, h.lid)
      ensures At(k, h, 0, null, cur)
    {
      assert k.ListLinked(h.lid);
      cur := h.head;
    }

    /** Visit one node and move the cursor on. */
    method ServeNode(k: Kernel, h: WaitHead, all: bool, prev: Tcb?, cur: Tcb, preempt: bool, ghost s: V.Scan)
      returns (prev': Tcb?, next: Tcb?, preempt': bool)
      requires k.Valid() && k.Knows(h) && V.ScanOk(s, h.lid) && s.at < |M.Q(s.k, h.lid)|
      requires s.k == k.st && s.bits == bits && s.preempt == preempt && At(k, h, s.at, prev, cur)
      modifies this`bits, k`st, h`head, k.spawned`state, k.spawned`waitPtr
      ensures k.Valid()
      ensures var s' := V.Visit(all, s, h.lid);
        && s'.k == k.st && s'.bits == bits && s'.preempt == preempt'
        && M.ListOk(k.st, h.lid) && At(k, h, s'.at, prev', next)
    {
      next := NextNode(k, h, cur, s.at);
      var matched := V.Match(all, bits, cur.waitPtr.flags);
      if matched.None? {
        prev', preempt' := cur, preempt;
      } else {
        preempt' := ServeMatch(k, h, all, prev, cur, next, preempt, matched.value, s);
        prev' := prev;
      }
    }

    /** The matched node is served: its flags are consumed and it leaves the list. */
    method ServeMatch(k: Kernel, h: WaitHead, all: bool, prev: Tcb?, cur: Tcb, next: Tcb?, preempt: bool, m: Flags,
            ghost s: V.Scan)
      returns (preempt': bool)
      requires k.Valid() && k.Knows(h) && V.ScanOk(s, h.lid) && s.at < |M.Q(s.k, h.lid)|
      requires s.k == k.st && s.bits == bits && s.preempt == preempt && At(k, h, s.at, prev, cur)
      requires next == k.Node(M.Q(k.st, h.lid), s.at + 1) && cur.id == M.Q(k.st, h.lid)[s.at]
      requires cur.waitPtr == k.st.tasks[cur.id].ptr && V.Match(all, bits, cur.waitPtr.flags) == Some(m)
      modifies this`bits, k`st, h`head, k.spawned`state, k.spawned`waitPtr
      ensures k.Valid() && k.st == M.RouseWith(old(k.st), h.lid, s.at, Mask(m)) && bits == old(bits) - m
      ensures preempt' == (preempt || M.Outranks(old(k.st), old(cur.id)))
      ensures M.ListOk(k.st, h.lid) && At(k, h, s.at, prev, next)
    {
      WriteBits(k, bits - m);
      var higher := TakeOut(k, h, all, prev, cur, next, m, s.at);
      preempt' := preempt || higher;
    }

    /** The link out of a node on the list; its state is Blocked, so `unreachable!()` is dead. */
    method NextNode(k: Kernel, h: WaitHead, cur: Tcb, ghost i: nat) returns (next: Tcb?)
      requires k.Valid() && k.Knows(h) && M.ListOk(k.st, h.lid)
      requires i < |M.Q(k.st, h.lid)| && cur == k.spawned[M.Q(k.st, h.lid)[i]]
      ensures next == k.Node(M.Q(k.st, h.lid), i + 1) && cur.id == M.Q(k.st, h.lid)[i]
      ensures cur.waitPtr == k.st.tasks[cur.id].ptr
    {
      assert k.ListLinked(h.lid) && k.LinkAt(M.Q(k.st, h.lid), i);
      next := cur.state.waitNext;
    }

    /** Unlink the matched node, leave it its flags, and unblock it. */
    method TakeOut(k: Kernel, h: WaitHead, all: bool, prev: Tcb?, cur: Tcb, next: Tcb?, m: Flags, ghost i: nat)
      returns (higher: bool)
      requires k.Valid() && k.Knows(h) && M.Started(k.st) && M.ListOk(k.st, h.lid) && i < |M.Q(k.st, h.lid)|
      requires At(k, h, i, prev, cur) && next == k.Node(M.Q(k.st, h.lid), i + 1) && cur.id == M.Q(k.st, h.lid)[i]
      requires all ==> cur.waitPtr == Mask(m)
      modifies k`st, h`head, k.spawned`state, k.spawned`waitPtr
      ensures k.Valid() && k.st == M.RouseWith(old(k.st), h.lid, i, Mask(m))
      ensures higher == M.Outranks(old(k.st), cur.id)
      ensures M.ListOk(k.st, h.lid) && At(k, h, i, prev, next)
    {
      Extract(k, h, all, prev, cur, next, m, i);
      higher := Release(k, h, prev, cur, next, i);
    }

    /** Unblock the node that was unlinked at position `i`. */
    method Release(k: Kernel, h: WaitHead, prev: Tcb?, cur: Tcb, next: Tcb?, ghost i: nat) returns (higher: bool)
      requires k.Valid() && k.Knows(h) && M.Started(k.st) && k.Has(cur) && k.st.tasks[cur.id].state.Popped?
      requires M.ListOk(k.st, h.lid) && At(k, h, i, prev, next)
      modifies k`st, cur`state
      ensures k.Valid() && k.st == M.Unblock(old(k.st), cur.id) && higher == M.Outranks(old(k.st), cur.id)
      ensures M.ListOk(k.st, h.lid) && At(k, h, i, prev, next)
    {
      higher := k.Unblock(cur);
      assert M.ListOk(k.st, h.lid);
    }

    /** Unlink the node and leave it its flags. A `wait_all` waiter already holds them: they are its
        whole mask. */
    method Extract(k: Kernel, h: WaitHead, all: bool, prev: Tcb?, cur: Tcb, next: Tcb?, m: Flags, ghost i: nat)
      requires k.Valid() && k.Knows(h) && M.Started(k.st) && M.ListOk(k.st, h.lid) && i < |M.Q(k.st, h.lid)|
      requires At(k, h, i, prev, cur) && next == k.Node(M.Q(k.st, h.lid), i + 1) && cur.id == M.Q(k.st, h.lid)[i]
      requires all ==> cur.waitPtr == Mask(m)
      modifies k`st, h`head, k.spawned`state, k.spawned`waitPtr
      ensures k.Valid() && k.st == M.SetPtr(M.PopAt(old(k.st), h.lid, i), cur.id, Mask(m))
      ensures M.ListOk(k.st, h.lid) && At(k, h, i, prev, next)
    {
      Cut(k, h, prev, cur, next, i);
      LeaveFlags(k, h, all, prev, cur, next, m, i);
    }

    method Cut(k: Kernel, h: WaitHead, prev: Tcb?, cur: Tcb, next: Tcb?, ghost i: nat)
      requires k.Valid() && k.Knows(h) && M.Started(k.st) && M.ListOk(k.st, h.lid) && i < |M.Q(k.st, h.lid)|
      requires At(k, h, i, prev, cur) && next == k.Node(M.Q(k.st, h.lid), i + 1) && cur.id == M.Q(k.st, h.lid)[i]
      modifies k`st, h`head, k.spawned`state
      ensures k.Valid() && k.st == M.PopAt(old(k.st), h.lid, i)
      ensures M.ListOk(k.st, h.lid) && At(k, h, i, prev, next) && cur.waitPtr == k.st.tasks[cur.id].ptr
    {
      k.Unlink(h, prev, next, i);
      assert M.ListOk(k.st, h.lid);
    }

    method LeaveFlags(k: Kernel, h: WaitHead, all: bool, prev: Tcb?, cur: Tcb, next: Tcb?, m: Flags, ghost i: nat)
      requires k.Valid() && k.Knows(h) && k.Has(cur) && M.ListOk(k.st, h.lid) && At(k, h, i, prev, next)
      requires cur.waitPtr == k.st.tasks[cur.id].ptr && (all ==> cur.waitPtr == Mask(m))
      modifies k`st, cur`waitPtr
      ensures k.Valid() && k.st == M.SetPtr(old(k.st), cur.id, Mask(m))
      ensures M.ListOk(k.st, h.lid) && At(k, h, i, prev, next)
    {
      if all {
        M.SetPtrSame(k.st, cur.id);
      } else {
        k.WritePtr(cur, Mask(m));
      }
      assert M.ListOk(k.st, h.lid);
    }

    /** The critical section that `set` and `set_from_isr` share. */
    method SetAndScan(k: Kernel, mask: Flags) returns (preempt: bool)
      requires k.Valid() && Valid(k) && V.GroupOk(k.st, anyHead.lid, allHead.lid)
      modifies this`bits, k`st, anyHead`head, allHead`head, k.spawned`state, k.spawned`waitPtr
      ensures k.Valid() && Valid(k)
      ensures var s := V.Set(old(k.st), old(bits), anyHead.lid, allHead.lid, mask);
        k.st == s.k && bits == s.bits && preempt == s.preempt
    {
      ghost var s := V.Scan(k.st, bits + mask, 0, false, []);
      V.ScanListKeepsOther(false, s, anyHead.lid, allHead.lid);
      WriteBits(k, bits + mask);
      ghost var s1;
      preempt, s1 := ScanList(k, anyHead, false, false, s);
      preempt, s1 := ScanList(k, allHead, true, preempt, V.ScanList(false, s, anyHead.lid).(at := 0));
    }

    /** `set`. */
    method Set(k: Kernel, mask: Flags) returns (newBits: Flags)
      requires k.Valid() && Valid(k) && V.GroupOk(k.st, anyHead.lid, allHead.lid)
      modifies this`bits, k`st, k`pendsv, anyHead`head, allHead`head, k.spawned`state, k.spawned`waitPtr
      ensures k.Valid() && Valid(k)
      ensures var s := V.Set(old(k.st), old(bits), anyHead.lid, allHead.lid, mask);
        k.st == M.Pend(s.k, s.preempt) && bits == s.bits && newBits == bits
    {
      var needPreempt := SetAndScan(k, mask);
      newBits := bits;
      k.TriggerIf(needPreempt);
    }

    /** `set_from_isr`: the caller raises PendSV if told to. */
    method SetFromIsr(k: Kernel, mask: Flags) returns (preempt: bool)
      requires k.Valid() && Valid(k) && V.GroupOk(k.st, anyHead.lid, allHead.lid)
      modifies this`bits, k`st, anyHead`head, allHead`head, k.spawned`state, k.spawned`waitPtr
      ensures k.Valid() && Valid(k)
      ensures var s := V.Set(old(k.st), old(bits), anyHead.lid, allHead.lid, mask);
        k.st == s.k && bits == s.bits && preempt == s.preempt
    {
      preempt := SetAndScan(k, mask);
    }

    /** `clear`. */
    method Clear(mask: Flags)
      modifies this`bits
      ensures bits == old(bits) - mask
    {
      bits := bits - mask;
    }

    /** `wait_any`, up to the point where the matched flags are in `wait_ptr` or the caller is parked. */
    method WaitAny(k: Kernel, mask: Flags) returns (mustBlock: bool)
      requires k.Valid() && Valid(k) && M.Started(k.st) && M.Runnable(k.st.tasks[k.st.cur])
      modifies this`bits, k`st, k`pendsv, anyHead`head, k.spawned`state, k.spawned`waitPtr
      ensures k.Valid() && Valid(k) && (k.st, bits) == V.WaitAny(old(k.st), old(bits), anyHead.lid, mask)
      ensures mustBlock <==> old(bits) * mask == {}
    {
      var matched := bits * mask;
      mustBlock := matched == {};
      if mustBlock {
        k.ParkWith(anyHead, Mask(mask));
      } else {
        WriteBits(k, bits - matched);
        k.WritePtr(k.current, Mask(matched));
      }
    }

    /** `wait_all`, up to the point where the flags are consumed or the caller is parked. */
    method WaitAll(k: Kernel, mask: Flags) returns (mustBlock: bool)
      requires k.Valid() && Valid(k) && M.Started(k.st) && M.Runnable(k.st.tasks[k.st.cur])
      modifies this`bits, k`st, k`pendsv, allHead`head, k.spawned`state, k.spawned`waitPtr
      ensures k.Valid() && Valid(k) && (k.st, bits) == V.WaitAll(old(k.st), old(bits), allHead.lid, mask)
      ensures mustBlock <==> !(mask <= old(bits))
    {
      mustBlock := !(mask <= bits);
      if mustBlock {
        k.ParkWith(allHead, Mask(mask));
      } else {
        WriteBits(k, bits - mask);
      }
    }
  }
}