/** `set` splits the flags exactly among the tasks it wakes and the group. */
module EventBits {
  import opened Types
  import opened KernelModel
  import opened EventModel
  import E = EventModel

  function Taken(taken: seq<(nat, Flags)>): Flags {
    if taken == [] then {} else Taken(taken[..|taken| - 1]) + taken[|taken| - 1].1
  }

  ghost predicate Apart(taken: seq<(nat, Flags)>) {
    forall i, j :: 0 <= i < j < |taken| ==> taken[i].1 * taken[j].1 == {}
  }

  /** The flags `total` are split among the group and the tasks woken so far. */
  ghost predicate Split(s: Scan, total: Flags) {
    s.bits + Taken(s.taken) == total && s.bits * Taken(s.taken) == {} && Apart(s.taken)
  }

  /** The task of entry `i` was woken with those flags in its `wait_ptr`. */
  predicate Delivered(s: Scan, i: nat)
    requires i < |s.taken|
  {
    var (t, m) := s.taken[i];
    t < |s.k.tasks| && s.k.tasks[t].ptr == Mask(m) && s.k.tasks[t].state.Ready?
  }

  lemma {:induction false} TakenHolds(taken: seq<(nat, Flags)>, i: nat)
    requires i < |taken|
    ensures taken[i].1 <= Taken(taken)
  {
    if i < |taken| - 1 {
      TakenHolds(taken[..|taken| - 1], i);
    }
  }

  lemma Consume(taken: seq<(nat, Flags)>, t: nat, m: Flags, bits: Flags)
    requires Apart(taken) && bits * Taken(taken) == {} && m <= bits
    ensures Apart(taken + [(t, m)]) && Taken(taken + [(t, m)]) == Taken(taken) + m
  {
    var all := taken + [(t, m)];
    assert all[..|all| - 1] == taken;
    forall i, j | 0 <= i < j < |all|
      ensures all[i].1 * all[j].1 == {}
    {
      TakenHolds(taken, i);
    }
  }

  lemma VisitSplits(all: bool, s: Scan, l: ListId, total: Flags)
    requires ScanOk(s, l) && s.at < |Q(s.k, l)| && Split(s, total)
    ensures Split(E.Visit(all, s, l), total)
  {
    var t := Q(s.k, l)[s.at];
    var m := Match(all, s.bits, s.k.tasks[t].ptr.flags);
    if m.Some? {
      Consume(s.taken, t, m.value, s.bits);
    }
  }

  lemma VisitDelivers(all: bool, s: Scan, l: ListId)
    requires ScanOk(s, l) && s.at < |Q(s.k, l)| && forall i :: 0 <= i < |s.taken| ==> Delivered(s, i)
    ensures forall i :: 0 <= i < |E.Visit(all, s, l).taken| ==> Delivered(E.Visit(all, s, l), i)
  {
    var t, s' := Q(s.k, l)[s.at], E.Visit(all, s, l);
    var m := Match(all, s.bits, s.k.tasks[t].ptr.flags);
    forall i | 0 <= i < |s'.taken|
      ensures Delivered(s', i)
    {
      if i < |s.taken| {
        assert Delivered(s, i) && s'.taken[i] == s.taken[i];
      } else {
        assert m.Some? && s'.taken[i] == (t, m.value);
      }
    }
  }

  lemma {:induction false} ScanSplits(all: bool, s: Scan, l: ListId, total: Flags)
    requires ScanOk(s, l) && Split(s, total) && forall i :: 0 <= i < |s.taken| ==> Delivered(s, i)
    ensures var r := ScanList(all, s, l); Split(r, total) && forall i :: 0 <= i < |r.taken| ==> Delivered(r, i)
    decreases |Q(s.k, l)| - s.at
  {
    ScanListUnrolls(all, s, l);
    if s.at < |Q(s.k, l)| {
      VisitSplits(all, s, l, total);
      VisitDelivers(all, s, l);
      VisitKeepsScanOk(all, s, l);
      ScanSplits(all, E.Visit(all, s, l), l, total);
    }
  }

  /** The old flags and the mask are the disjoint union of the flags left in the group and of those
      handed to each woken task, which finds them in its `wait_ptr`. */
  lemma SetSplitsFlags(k: Kern, bits: Flags, al: ListId, ll: ListId, mask: Flags)
    requires GroupOk(k, al, ll)
    ensures var r := Set(k, bits, al, ll, mask);
      && r.bits + Taken(r.taken) == bits + mask && r.bits * Taken(r.taken) == {} && Apart(r.taken)
      && forall i :: 0 <= i < |r.taken| ==> Delivered(r, i)
  {
    var s := Scan(k, bits + mask, 0, false, []);
    ScanListKeepsOther(false, s, al, ll);
    ScanSplits(false, s, al, bits + mask);
    var s1 := ScanList(false, s, al).(at := 0);
    assert forall i :: 0 <= i < |s1.taken| ==> Delivered(s1, i) == Delivered(ScanList(false, s, al), i);
    ScanSplits(true, s1, ll, bits + mask);
  }
}
