/** Event-group steps keep the invariants. */
module EventSteps {
  import opened Types
  import opened KernelModel
  import opened KernelProofs
  import opened SystemModel
  import opened Frames
  import E = EventModel

  // ------------------------------------------------------------------ one scan

  /** The flags a task was woken with: a non-empty part of its mask, or the whole of it. */
  predicate Got(all: bool, mask: Flags, got: Flags) {
    if all then got == mask else got != {} && got <= mask
  }

  /** A task before and after the scan of list `l`. */
  predicate ScanTask(all: bool, a: Task, b: Task, l: ListId) {
    || b == a
    || (a.state == Blocked(l) && a.ptr.Mask? && b.ptr.Mask? && Got(all, a.ptr.flags, b.ptr.flags)
        && b == a.(state := Ready(a.slice), ptr := b.ptr))
  }

  /** The condition of the task at position `j` of the list does not hold. */
  predicate Unmatched(all: bool, s: E.Scan, l: ListId, j: nat) {
    j < |Q(s.k, l)| && Q(s.k, l)[j] < |s.k.tasks| && s.k.tasks[Q(s.k, l)[j]].ptr.Mask?
    && E.Match(all, s.bits, s.k.tasks[Q(s.k, l)[j]].ptr.flags).None?
  }

  /** A scan from `s` to `r`: flags only go away, the tasks of `l` wake or stay, the rest is untouched. */
  ghost predicate Scanned(all: bool, s: E.Scan, r: E.Scan, l: ListId) {
    && r.bits <= s.bits && r.k.cur == s.k.cur && |r.k.tasks| == |s.k.tasks|
    && (forall l' :: l' != l ==> Q(r.k, l') == Q(s.k, l'))
    && forall t :: 0 <= t < |s.k.tasks| ==> ScanTask(all, s.k.tasks[t], r.k.tasks[t], l)
  }

  lemma VisitScans(all: bool, s: E.Scan, l: ListId)
    requires E.ScanOk(s, l) && s.at < |Q(s.k, l)|
    requires forall j :: 0 <= j < s.at ==> Unmatched(all, s, l, j)
    ensures var s' := E.Visit(all, s, l);
      Scanned(all, s, s', l) && forall j :: 0 <= j < s'.at ==> Unmatched(all, s', l, j)
  {
    var s' := E.Visit(all, s, l);
    forall j | 0 <= j < s'.at
      ensures Unmatched(all, s', l, j)
    {
      assert j < s.at ==> Unmatched(all, s, l, j);
    }
  }

  lemma ScannedChain(all: bool, s: E.Scan, s1: E.Scan, r: E.Scan, l: ListId)
    requires Scanned(all, s, s1, l) && Scanned(all, s1, r, l)
    ensures Scanned(all, s, r, l)
  {
    forall t | 0 <= t < |s.k.tasks|
      ensures ScanTask(all, s.k.tasks[t], r.k.tasks[t], l)
    {
      assert ScanTask(all, s.k.tasks[t], s1.k.tasks[t], l) && ScanTask(all, s1.k.tasks[t], r.k.tasks[t], l);
    }
  }

  /** When the scan is over nobody is left on the list whose condition holds. */
  lemma {:induction false} ScanListScans(all: bool, s: E.Scan, l: ListId)
    requires E.ScanOk(s, l) && s.at <= |Q(s.k, l)|
    requires forall j :: 0 <= j < s.at ==> Unmatched(all, s, l, j)
    ensures var r := E.ScanList(all, s, l);
      Scanned(all, s, r, l) && forall j :: 0 <= j < |Q(r.k, l)| ==> Unmatched(all, r, l, j)
    decreases |Q(s.k, l)| - s.at
  {
    E.ScanListUnrolls(all, s, l);
    if s.at < |Q(s.k, l)| {
      var s' := E.Visit(all, s, l);
      E.VisitKeepsScanOk(all, s, l);
      VisitScans(all, s, l);
      ScanListScans(all, s', l);
      ScannedChain(all, s, s', E.ScanList(all, s, l), l);
    }
  }

  lemma {:induction false} ScanListIsCalm(all: bool, s: E.Scan, l: ListId)
    requires E.ScanOk(s, l) && KernelInv(Pend(s.k, s.preempt))
    ensures var r := E.ScanList(all, s, l); Calm(Pend(s.k, s.preempt), Pend(r.k, r.preempt))
    decreases |Q(s.k, l)| - s.at
  {
    E.ScanListUnrolls(all, s, l);
    if s.at >= |Q(s.k, l)| {
      CalmSelf(Pend(s.k, s.preempt));
    } else {
      var s', r := E.Visit(all, s, l), E.ScanList(all, s, l);
      var t := Q(s.k, l)[s.at];
      E.VisitKeepsScanOk(all, s, l);
      match E.Match(all, s.bits, s.k.tasks[t].ptr.flags) {
        case None => CalmSelf(Pend(s.k, s.preempt));
        case Some(m) => RouseIsCalm(s.k, s.preempt, l, s.at, Mask(m));
      }
      ScanListIsCalm(all, s', l);
      CalmChain(Pend(s.k, s.preempt), Pend(s'.k, s'.preempt), Pend(r.k, r.preempt));
    }
  }

  // ------------------------------------------------------------------ set

  /** What `set` did to a task: at most one of the two scans woke it. */
  predicate SetTaskTo(a: Task, b: Task, al: ListId, ll: ListId) {
    ScanTask(false, a, b, al) || ScanTask(true, a, b, ll)
  }

  /** `set` from `k`: nobody is left on either list whose condition holds. */
  ghost predicate SetDone(k: Kern, r: E.Scan, al: ListId, ll: ListId) {
    && |r.k.tasks| == |k.tasks| && r.k.cur == k.cur
    && (forall l :: l != al && l != ll ==> Q(r.k, l) == Q(k, l))
    && (forall t :: 0 <= t < |k.tasks| ==> SetTaskTo(k.tasks[t], r.k.tasks[t], al, ll))
    && (forall j :: 0 <= j < |Q(r.k, al)| ==> Unmatched(false, r, al, j))
    && (forall j :: 0 <= j < |Q(r.k, ll)| ==> Unmatched(true, r, ll, j))
  }

  lemma SetIsDone(k: Kern, bits: Flags, al: ListId, ll: ListId, mask: Flags)
    requires E.GroupOk(k, al, ll)
    ensures SetDone(k, E.Set(k, bits, al, ll, mask), al, ll)
  {
    var s := E.Scan(k, bits + mask, 0, false, []);
    var s1 := E.ScanList(false, s, al);
    var r := E.Set(k, bits, al, ll, mask);
    E.ScanListKeepsOther(false, s, al, ll);
    ScanListScans(false, s, al);
    ScanListScans(true, s1.(at := 0), ll);
    forall t | 0 <= t < |k.tasks|
      ensures SetTaskTo(k.tasks[t], r.k.tasks[t], al, ll)
    {
      assert ScanTask(false, k.tasks[t], s1.k.tasks[t], al) && ScanTask(true, s1.k.tasks[t], r.k.tasks[t], ll);
    }
    assert Q(r.k, al) == Q(s1.k, al);
    E.ScanListKeepsScanOk(false, s, al);
    forall j | 0 <= j < |Q(r.k, al)|
      ensures Unmatched(false, r, al, j)
    {
      assert Unmatched(false, s1, al, j);
      assert ScanTask(true, s1.k.tasks[Q(s1.k, al)[j]], r.k.tasks[Q(s1.k, al)[j]], ll);
    }
  }

  lemma SetIsCalm(k: Kern, bits: Flags, al: ListId, ll: ListId, mask: Flags)
    requires KernelInv(k) && E.GroupOk(k, al, ll)
    ensures var r := E.Set(k, bits, al, ll, mask); Calm(k, Pend(r.k, r.preempt))
  {
    var s := E.Scan(k, bits + mask, 0, false, []);
    var s1, r := E.ScanList(false, s, al), E.Set(k, bits, al, ll, mask);
    assert Pend(k, false) == k;
    E.ScanListKeepsOther(false, s, al, ll);
    ScanListIsCalm(false, s, al);
    ScanListIsCalm(true, s1.(at := 0), ll);
    CalmChain(k, Pend(s1.k, s1.preempt), Pend(r.k, r.preempt));
  }

  lemma SetWithin(s: Sys, s': Sys, e: nat, r: E.Scan)
    requires PcInv(s) && s'.pcs == s.pcs && s'.k.tasks == r.k.tasks && s'.k.lists == r.k.lists
    requires SetDone(s.k, r, AnyQ(e), AllQ(e))
    ensures Within(s, s', Events)
  {
    forall t | 0 <= t < |s.pcs|
      ensures PcFits(s'.pcs[t], s'.k.tasks[t].state) && (SameTask(s, s', t) || PcFamily(s.pcs[t]) == Events)
    {
      assert PcFits(s.pcs[t], s.k.tasks[t].state);
      assert SetTaskTo(s.k.tasks[t], r.k.tasks[t], AnyQ(e), AllQ(e));
    }
  }

  lemma SetWatchers(s: Sys, s': Sys, e: nat, r: E.Scan)
    requires PcInv(s) && PcInv(s') && EventInv(s) && s'.pcs == s.pcs && WaitInv(s'.k)
    requires s'.k.tasks == r.k.tasks && s'.k.lists == r.k.lists
    requires SetDone(s.k, r, AnyQ(e), AllQ(e)) && e < |s.events| && s'.events == s.events[e := r.bits]
    ensures EventInv(s')
  {
    forall t | 0 <= t < |s'.pcs|
      ensures WatcherInv(s', t)
    {
      assert WatcherInv(s, t) && PcFits(s.pcs[t], s.k.tasks[t].state) && PcFits(s'.pcs[t], s'.k.tasks[t].state);
      assert SetTaskTo(s.k.tasks[t], r.k.tasks[t], AnyQ(e), AllQ(e));
      assert OnItsList(s'.k, t);
      if r.k.tasks[t].state == Blocked(AnyQ(e)) {
        var j :| 0 <= j < |Q(r.k, AnyQ(e))| && Q(r.k, AnyQ(e))[j] == t;
        assert Unmatched(false, r, AnyQ(e), j);
      }
      if r.k.tasks[t].state == Blocked(AllQ(e)) {
        var j :| 0 <= j < |Q(r.k, AllQ(e))| && Q(r.k, AllQ(e))[j] == t;
        assert Unmatched(true, r, AllQ(e), j);
      }
    }
  }

  lemma SetSound(s: Sys, e: nat, mask: Flags)
    requires KernelInv(s.k) && PcInv(s) && EventInv(s) && e < |s.events|
    ensures Sound(s, SetStep(s, e, mask), Events)
  {
    WatchersAsk(s, e);
    var s', r := SetStep(s, e, mask), E.Set(s.k, s.events[e], AnyQ(e), AllQ(e), mask);
    SetIsDone(s.k, s.events[e], AnyQ(e), AllQ(e), mask);
    SetIsCalm(s.k, s.events[e], AnyQ(e), AllQ(e), mask);
    SetWithin(s, s', e, r);
    SetWatchers(s, s', e, r);
  }

  // ------------------------------------------------------------------ the other steps

  /** Fewer flags match nobody new. */
  lemma FewerFlags(s: Sys, s': Sys, e: nat)
    requires PcInv(s) && PcInv(s') && EventInv(s) && |s'.pcs| == |s.pcs|
    requires e < |s.events| == |s'.events| && s'.events[e] <= s.events[e]
    requires forall j :: 0 <= j < |s.events| && j != e ==> s'.events[j] == s.events[j]
    requires forall t :: 0 <= t < |s.pcs| ==> SameTask(s, s', t) || WatcherInv(s', t)
    ensures EventInv(s')
  {
    forall t | 0 <= t < |s'.pcs|
      ensures WatcherInv(s', t)
    {
      assert WatcherInv(s, t);
    }
  }

  lemma ClearSound(s: Sys, e: nat, mask: Flags)
    requires KernelInv(s.k) && PcInv(s) && EventInv(s) && e < |s.events|
    ensures Sound(s, s.(events := s.events[e := s.events[e] - mask]), Events)
  {
    var s' := s.(events := s.events[e := s.events[e] - mask]);
    NoneTouched(s, s', Events);
    FewerFlags(s, s', e);
  }

  lemma WaitAnySound(s: Sys, e: nat, mask: Flags)
    requires KernelInv(s.k) && PcInv(s) && EventInv(s) && Thread(s) && e < |s.events|
    ensures Sound(s, WaitAnyStep(s, e, mask), Events)
  {
    var s', c := WaitAnyStep(s, e, mask), s.k.cur;
    match E.Match(false, s.events[e], mask) {
      case Some(m) =>
        SetPtrIsCalm(s.k, c, Mask(m));
        forall t | 0 <= t < |s'.pcs|
          ensures PcFits(s'.pcs[t], s'.k.tasks[t].state) && (t != c ==> SameTask(s, s', t))
        {
          assert PcFits(s.pcs[t], s.k.tasks[t].state);
        }
      case None =>
        RunnerParks(s, s', AnyQ(e), Mask(mask), InAny(e, mask), Events);
    }
    FewerFlags(s, s', e);
  }

  lemma WaitAllSound(s: Sys, e: nat, mask: Flags)
    requires KernelInv(s.k) && PcInv(s) && EventInv(s) && Thread(s) && e < |s.events|
    ensures Sound(s, WaitAllStep(s, e, mask), Events)
  {
    var s', c := WaitAllStep(s, e, mask), s.k.cur;
    match E.Match(true, s.events[e], mask) {
      case Some(m) =>
        CalmSelf(s.k);
        forall t | 0 <= t < |s'.pcs|
          ensures PcFits(s'.pcs[t], s'.k.tasks[t].state) && (t != c ==> SameTask(s, s', t))
        {
          assert PcFits(s.pcs[t], s.k.tasks[t].state);
        }
      case None =>
        RunnerParks(s, s', AllQ(e), Mask(mask), InAll(e, mask), Events);
    }
    FewerFlags(s, s', e);
  }
}
