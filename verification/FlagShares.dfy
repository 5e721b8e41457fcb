/** Who gets which flags when some are set: the scan of a linked list, from which nodes are unlinked on
    the way, serves the waiters as one pass over their masks would. */
module FlagShares {
  import opened Types
  import opened Seqs
  import opened KernelModel
  import opened SystemModel
  import E = EventModel

  // ------------------------------------------------------------------ one pass over masks

  /** What a waiter gets while `bits` are left: its whole mask or nothing, or all it has in common. */
  function Share(all: bool, bits: Flags, mask: Flags): Option<Flags> {
    if all then (if mask <= bits then Some(mask) else None)
    else if bits * mask == {} then None else Some(bits * mask)
  }

  function Less(bits: Flags, got: Option<Flags>): Flags {
    if got.None? then bits else bits - got.value
  }

  function Shares(all: bool, bits: Flags, masks: seq<Flags>): (r: seq<Option<Flags>>)
    ensures |r| == |masks|
  {
    if masks == [] then [] else
    var got := Share(all, bits, masks[0]);
    [got] + Shares(all, Less(bits, got), masks[1..])
  }

  function Remaining(all: bool, bits: Flags, masks: seq<Flags>): Flags {
    if masks == [] then bits else Remaining(all, Less(bits, Share(all, bits, masks[0])), masks[1..])
  }

  /** Those of `q` that got nothing, in order. */
  function Unserved(q: seq<nat>, got: seq<Option<Flags>>): seq<nat>
    requires |got| == |q|
  {
    if q == [] then [] else (if got[0].None? then [q[0]] else []) + Unserved(q[1..], got[1..])
  }

  // ------------------------------------------------------------------ the scan

  function MasksOf(k: Kern, q: seq<nat>): (r: seq<Flags>)
    requires forall j :: 0 <= j < |q| ==> q[j] < |k.tasks| && k.tasks[q[j]].ptr.Mask?
    ensures |r| == |q| && forall j :: 0 <= j < |q| ==> r[j] == k.tasks[q[j]].ptr.flags
  {
    seq(|q|, j requires 0 <= j < |q| => k.tasks[q[j]].ptr.flags)
  }

  /** A waiter that got something is Ready with it in its `wait_ptr`. */
  predicate Served(a: Task, b: Task, got: Option<Flags>) {
    b == if got.None? then a else a.(state := Ready(a.slice), ptr := Mask(got.value))
  }

  /** Somebody who got something is above the current task. */
  predicate ServedAbove(k: Kern, q: seq<nat>, got: seq<Option<Flags>>)
    requires Started(k) && |got| == |q| && forall j :: 0 <= j < |q| ==> q[j] < |k.tasks|
  {
    exists j :: 0 <= j < |q| && got[j].Some? && k.tasks[q[j]].priority < k.tasks[k.cur].priority
  }

  ghost predicate ScanServes(k: Kern, k': Kern, l: ListId, rest: seq<nat>, got: seq<Option<Flags>>)
    requires |got| == |rest| && forall j :: 0 <= j < |rest| ==> rest[j] < |k.tasks|
  {
    && k' == k.(tasks := k'.tasks, lists := k'.lists) && |k'.tasks| == |k.tasks|
    && (forall j :: 0 <= j < |rest| ==> Served(k.tasks[rest[j]], k'.tasks[rest[j]], got[j]))
    && (forall t :: 0 <= t < |k.tasks| && t !in rest ==> k'.tasks[t] == k.tasks[t])
    && (forall l' :: l' != l ==> Q(k', l') == Q(k, l'))
  }

  /** The nodes that the scan has still to visit. */
  ghost predicate Ahead(s: E.Scan, l: ListId, rest: seq<nat>) {
    && E.ScanOk(s, l) && s.at <= |Q(s.k, l)| && rest == Q(s.k, l)[s.at..]
    && forall j :: 0 <= j < |rest| ==> rest[j] < |s.k.tasks| && s.k.tasks[rest[j]].ptr.Mask?
  }

  /** The scan from `s` to `r` serves `rest` as the pass over its masks would. */
  ghost predicate ScanIsPass(all: bool, s: E.Scan, r: E.Scan, l: ListId, rest: seq<nat>)
    requires Ahead(s, l, rest)
  {
    var masks := MasksOf(s.k, rest);
    var got := Shares(all, s.bits, masks);
    && r.bits == Remaining(all, s.bits, masks)
    && Q(r.k, l) == Q(s.k, l)[..s.at] + Unserved(rest, got)
    && ScanServes(s.k, r.k, l, rest, got)
    && r.preempt == (s.preempt || ServedAbove(s.k, rest, got))
  }

  /** The scan moved on by one node, which got `got`. */
  ghost predicate Moved(s: E.Scan, s': E.Scan, l: ListId, rest: seq<nat>, got: Option<Flags>) {
    && Ahead(s, l, rest) && rest != [] && Ahead(s', l, rest[1..])
    && s'.bits == Less(s.bits, got) && s'.preempt == (s.preempt || (got.Some? && Outranks(s.k, rest[0])))
    && Q(s'.k, l)[..s'.at] == Q(s.k, l)[..s.at] + (if got.None? then [rest[0]] else [])
    && MovedKernel(s.k, s'.k, l, rest[0], got)
  }

  ghost predicate MovedKernel(k: Kern, k': Kern, l: ListId, t: nat, got: Option<Flags>)
    requires t < |k.tasks|
  {
    && k' == k.(tasks := k'.tasks, lists := k'.lists) && |k'.tasks| == |k.tasks|
    && (forall u :: 0 <= u < |k.tasks| && u != t ==> k'.tasks[u] == k.tasks[u])
    && Served(k.tasks[t], k'.tasks[t], got)
    && forall l' :: l' != l ==> Q(k', l') == Q(k, l')
  }

  lemma UnmatchedMoves(all: bool, s: E.Scan, l: ListId, rest: seq<nat>)
    requires Ahead(s, l, rest) && rest != [] && Share(all, s.bits, s.k.tasks[rest[0]].ptr.flags).None?
    ensures Moved(s, E.Visit(all, s, l), l, rest, None)
  {
    E.VisitKeepsScanOk(all, s, l);
    var q := Q(s.k, l);
    assert rest[0] == q[s.at] && q[..s.at + 1] == q[..s.at] + [rest[0]] && rest[1..] == q[s.at + 1..];
  }

  lemma MatchedMoves(all: bool, s: E.Scan, l: ListId, rest: seq<nat>, m: Flags)
    requires Ahead(s, l, rest) && rest != [] && Share(all, s.bits, s.k.tasks[rest[0]].ptr.flags) == Some(m)
    ensures Moved(s, E.Visit(all, s, l), l, rest, Some(m))
  {
    E.VisitKeepsScanOk(all, s, l);
    var q, s' := Q(s.k, l), E.Visit(all, s, l);
    RestIsElsewhere(s.k, l, s.at);
    RouseMoves(s.k, l, s.at, m);
    assert rest[0] == q[s.at] && s'.k == RouseWith(s.k, l, s.at, Mask(m));
    assert Q(s'.k, l)[..s.at] == q[..s.at] && Q(s'.k, l)[s.at..] == rest[1..];
  }

  lemma RouseMoves(k: Kern, l: ListId, at: nat, m: Flags)
    requires ListOk(k, l) && at < |Q(k, l)|
    ensures MovedKernel(k, RouseWith(k, l, at, Mask(m)), l, Q(k, l)[at], Some(m))
    ensures Q(RouseWith(k, l, at, Mask(m)), l) == Q(k, l)[..at] + Q(k, l)[at + 1..]
  {
  }

  /** A node is not met again. */
  lemma RestIsElsewhere(k: Kern, l: ListId, at: nat)
    requires ListOk(k, l) && at < |Q(k, l)|
    ensures NoDup(Q(k, l)[at..]) && Q(k, l)[at] !in Q(k, l)[at + 1..]
  {
  }

  lemma MasksStay(s: E.Scan, s': E.Scan, l: ListId, rest: seq<nat>, got: Option<Flags>)
    requires Moved(s, s', l, rest, got)
    ensures MasksOf(s'.k, rest[1..]) == MasksOf(s.k, rest)[1..] && NoDup(rest)
  {
    RestIsElsewhere(s.k, l, s.at);
    assert rest[0] == Q(s.k, l)[s.at] && rest[1..] == Q(s.k, l)[s.at + 1..];
    forall j | 0 <= j < |rest[1..]|
      ensures rest[1..][j] != rest[0]
    {
      assert rest[1..][j] in rest[1..];
    }
  }

  lemma OneServed(all: bool, s: E.Scan, s': E.Scan, r: E.Scan, l: ListId, rest: seq<nat>)
    requires Ahead(s, l, rest) && rest != []
    requires Moved(s, s', l, rest, Share(all, s.bits, s.k.tasks[rest[0]].ptr.flags))
    requires ScanIsPass(all, s', r, l, rest[1..])
    ensures ScanIsPass(all, s, r, l, rest)
  {
    var masks := MasksOf(s.k, rest);
    var got, got' := Shares(all, s.bits, masks), Shares(all, s'.bits, masks[1..]);
    MasksStay(s, s', l, rest, got[0]);
    assert got[1..] == got';
    FirstServed(s.k, s'.k, r.k, l, rest, got);
    AboveOrLater(s.k, s'.k, rest, got);
    UnservedUnrolls(Q(s.k, l)[..s.at], Q(s'.k, l)[..s'.at], rest, got);
  }

  lemma UnservedUnrolls(a: seq<nat>, b: seq<nat>, q: seq<nat>, got: seq<Option<Flags>>)
    requires |got| == |q| > 0 && b == a + if got[0].None? then [q[0]] else []
    ensures a + Unserved(q, got) == b + Unserved(q[1..], got[1..])
  {
  }

  lemma FirstServed(k: Kern, k1: Kern, k': Kern, l: ListId, rest: seq<nat>, got: seq<Option<Flags>>)
    requires |got| == |rest| > 0 && NoDup(rest) && forall j :: 0 <= j < |rest| ==> rest[j] < |k.tasks|
    requires MovedKernel(k, k1, l, rest[0], got[0])
    requires ScanServes(k1, k', l, rest[1..], got[1..])
    ensures ScanServes(k, k', l, rest, got)
  {
    assert rest[0] !in rest[1..];
    forall j | 0 <= j < |rest|
      ensures Served(k.tasks[rest[j]], k'.tasks[rest[j]], got[j])
    {
      if j > 0 {
        assert rest[1..][j - 1] == rest[j] && got[1..][j - 1] == got[j] && rest[j] != rest[0];
      }
    }
  }

  lemma AboveOrLater(k: Kern, k1: Kern, rest: seq<nat>, got: seq<Option<Flags>>)
    requires Started(k) && |got| == |rest| > 0 && forall j :: 0 <= j < |rest| ==> rest[j] < |k.tasks|
    requires k1.cur == k.cur && |k1.tasks| == |k.tasks|
    requires forall t :: 0 <= t < |k.tasks| ==> k1.tasks[t].priority == k.tasks[t].priority
    ensures ServedAbove(k, rest, got)
         == ((got[0].Some? && Outranks(k, rest[0])) || ServedAbove(k1, rest[1..], got[1..]))
  {
    if j :| 0 <= j < |rest| && got[j].Some? && k.tasks[rest[j]].priority < k.tasks[k.cur].priority {
      assert j > 0 ==> rest[1..][j - 1] == rest[j] && got[1..][j - 1] == got[j];
    }
    if j :| 0 <= j < |rest[1..]| && got[1..][j].Some? && k1.tasks[rest[1..][j]].priority < k1.tasks[k1.cur].priority {
      assert rest[1..][j] == rest[j + 1] && got[1..][j] == got[j + 1];
    }
  }

  lemma {:induction false} ScanListIsPass(all: bool, s: E.Scan, l: ListId, rest: seq<nat>)
    requires Ahead(s, l, rest)
    ensures ScanIsPass(all, s, E.ScanList(all, s, l), l, rest)
    decreases |rest|
  {
    E.ScanListUnrolls(all, s, l);
    if rest == [] {
      assert Q(s.k, l)[..s.at] == Q(s.k, l);
    } else {
      var s', got := E.Visit(all, s, l), Share(all, s.bits, s.k.tasks[rest[0]].ptr.flags);
      if got.None? {
        UnmatchedMoves(all, s, l, rest);
      } else {
        MatchedMoves(all, s, l, rest, got.value);
      }
      ScanListIsPass(all, s', l, rest[1..]);
      OneServed(all, s, s', E.ScanList(all, s, l), l, rest);
    }
  }

  // ------------------------------------------------------------------ set

  /** Both lists served: those of `wait_any` first, then those of `wait_all` with what is left. */
  ghost predicate BothServed(k: Kern, k': Kern, al: ListId, ll: ListId, ga: seq<Option<Flags>>,
                             gl: seq<Option<Flags>>)
    requires E.GroupOk(k, al, ll) && |ga| == |Q(k, al)| && |gl| == |Q(k, ll)|
  {
    && k' == k.(tasks := k'.tasks, lists := k'.lists, pendsv := k'.pendsv) && |k'.tasks| == |k.tasks|
    && (forall j :: 0 <= j < |ga| ==> Served(k.tasks[Q(k, al)[j]], k'.tasks[Q(k, al)[j]], ga[j]))
    && (forall j :: 0 <= j < |gl| ==> Served(k.tasks[Q(k, ll)[j]], k'.tasks[Q(k, ll)[j]], gl[j]))
    && (forall t :: 0 <= t < |k.tasks| && t !in Q(k, al) && t !in Q(k, ll) ==> k'.tasks[t] == k.tasks[t])
    && Q(k', al) == Unserved(Q(k, al), ga) && Q(k', ll) == Unserved(Q(k, ll), gl)
    && (forall l :: l != al && l != ll ==> Q(k', l) == Q(k, l))
    && (k'.pendsv <==> k.pendsv || ServedAbove(k, Q(k, al), ga) || ServedAbove(k, Q(k, ll), gl))
  }

  lemma ListsAreApart(k: Kern, al: ListId, ll: ListId)
    requires E.GroupOk(k, al, ll)
    ensures forall j :: 0 <= j < |Q(k, ll)| ==> Q(k, ll)[j] !in Q(k, al)
    ensures forall j :: 0 <= j < |Q(k, al)| ==> Q(k, al)[j] !in Q(k, ll)
  {
  }

  lemma TwoPasses(k: Kern, k1: Kern, k': Kern, al: ListId, ll: ListId, qa: seq<nat>, ql: seq<nat>,
                  ga: seq<Option<Flags>>, gl: seq<Option<Flags>>)
    requires |ga| == |qa| && |gl| == |ql|
    requires (forall j :: 0 <= j < |qa| ==> qa[j] < |k.tasks| && qa[j] !in ql)
    requires (forall j :: 0 <= j < |ql| ==> ql[j] < |k.tasks| && ql[j] !in qa)
    requires ScanServes(k, k1, al, qa, ga) && ScanServes(k1, k', ll, ql, gl)
    ensures k' == k.(tasks := k'.tasks, lists := k'.lists) && |k'.tasks| == |k.tasks|
    ensures forall j :: 0 <= j < |ga| ==> Served(k.tasks[qa[j]], k'.tasks[qa[j]], ga[j])
    ensures forall j :: 0 <= j < |gl| ==> Served(k.tasks[ql[j]], k'.tasks[ql[j]], gl[j])
    ensures forall t :: 0 <= t < |k.tasks| && t !in qa && t !in ql ==> k'.tasks[t] == k.tasks[t]
    ensures forall l :: l != al && l != ll ==> Q(k', l) == Q(k, l)
  {
  }

  lemma SecondScan(k: Kern, k1: Kern, k': Kern, al: ListId, ll: ListId, ga: seq<Option<Flags>>,
                   gl: seq<Option<Flags>>, asked: bool)
    requires E.GroupOk(k, al, ll) && |ga| == |Q(k, al)| && |gl| == |Q(k, ll)|
    requires ScanServes(k, k1, al, Q(k, al), ga) && Q(k1, al) == Unserved(Q(k, al), ga)
    requires ScanServes(k1, k', ll, Q(k, ll), gl) && Q(k', ll) == Unserved(Q(k, ll), gl)
    requires asked == (ServedAbove(k, Q(k, al), ga) || ServedAbove(k, Q(k, ll), gl))
    ensures BothServed(k, Pend(k', asked), al, ll, ga, gl)
  {
    ListsAreApart(k, al, ll);
    TwoPasses(k, k1, k', al, ll, Q(k, al), Q(k, ll), ga, gl);
  }

  lemma FromStart(all: bool, s: E.Scan, r: E.Scan, l: ListId, q: seq<nat>)
    requires Ahead(s, l, q) && s.at == 0 && ScanIsPass(all, s, r, l, q)
    ensures Q(r.k, l) == Unserved(q, Shares(all, s.bits, MasksOf(s.k, q)))
  {
  }

  lemma AboveAsBefore(k: Kern, k1: Kern, q: seq<nat>, got: seq<Option<Flags>>)
    requires Started(k) && |got| == |q| && forall j :: 0 <= j < |q| ==> q[j] < |k.tasks|
    requires k1.cur == k.cur && |k1.tasks| == |k.tasks|
    requires forall t :: 0 <= t < |k.tasks| ==> k1.tasks[t].priority == k.tasks[t].priority
    ensures ServedAbove(k1, q, got) == ServedAbove(k, q, got)
  {
  }

  lemma PrioritiesStay(k: Kern, k1: Kern, l: ListId, q: seq<nat>, got: seq<Option<Flags>>)
    requires |got| == |q| && (forall j :: 0 <= j < |q| ==> q[j] < |k.tasks|) && ScanServes(k, k1, l, q, got)
    ensures forall t :: 0 <= t < |k.tasks| ==> k1.tasks[t].priority == k.tasks[t].priority
  {
    forall t | 0 <= t < |k.tasks|
      ensures k1.tasks[t].priority == k.tasks[t].priority
    {
      if t in q {
        var j :| 0 <= j < |q| && q[j] == t;
        assert Served(k.tasks[q[j]], k1.tasks[q[j]], got[j]);
      }
    }
  }

  /** The first scan leaves the other list as it was. */
  lemma FirstScan(k: Kern, total: Flags, al: ListId, ll: ListId)
    requires E.GroupOk(k, al, ll)
    ensures var s, qa, ql := E.Scan(k, total, 0, false, []), Q(k, al), Q(k, ll);
      && E.ScanOk(s, al) && Ahead(s, al, qa) && E.ScanOk(E.ScanList(false, s, al).(at := 0), ll)
      && var s1 := E.ScanList(false, s, al).(at := 0);
      && ScanIsPass(false, s, s1, al, qa) && Ahead(s1, ll, ql)
      && (forall j :: 0 <= j < |ql| ==> ql[j] < |k.tasks| && k.tasks[ql[j]].ptr.Mask?)
      && MasksOf(s1.k, ql) == MasksOf(k, ql)
  {
    var s, qa, ql := E.Scan(k, total, 0, false, []), Q(k, al), Q(k, ll);
    assert qa == Q(k, al)[0..] && ql == Q(k, ll)[0..];
    ScanListIsPass(false, s, al, qa);
    E.ScanListKeepsOther(false, s, al, ll);
    ListsAreApart(k, al, ll);
    var s1 := E.ScanList(false, s, al).(at := 0);
    assert MasksOf(s1.k, ql) == MasksOf(k, ql);
  }

  /** `set` serves the waiters of `wait_any` in list order, each with all that its mask has in common
      with what is left, and then those of `wait_all` in list order, each with its whole mask or nothing.
      Nobody else is touched, and a switch is requested if and only if somebody served is above the
      current task. */
  lemma SetServes(k: Kern, bits: Flags, al: ListId, ll: ListId, mask: Flags)
    requires E.GroupOk(k, al, ll)
    ensures forall j :: 0 <= j < |Q(k, al)| ==> Q(k, al)[j] < |k.tasks| && k.tasks[Q(k, al)[j]].ptr.Mask?
    ensures forall j :: 0 <= j < |Q(k, ll)| ==> Q(k, ll)[j] < |k.tasks| && k.tasks[Q(k, ll)[j]].ptr.Mask?
    ensures var r, ma, ml := E.Set(k, bits, al, ll, mask), MasksOf(k, Q(k, al)), MasksOf(k, Q(k, ll));
      var left := Remaining(false, bits + mask, ma);
      && r.bits == Remaining(true, left, ml)
      && r.preempt == (ServedAbove(k, Q(k, al), Shares(false, bits + mask, ma))
                       || ServedAbove(k, Q(k, ll), Shares(true, left, ml)))
      && BothServed(k, Pend(r.k, r.preempt), al, ll, Shares(false, bits + mask, ma), Shares(true, left, ml))
  {
    var s, qa, ql := E.Scan(k, bits + mask, 0, false, []), Q(k, al), Q(k, ll);
    FirstScan(k, bits + mask, al, ll);
    var s1 := E.ScanList(false, s, al).(at := 0);
    var ga, gl := Shares(false, bits + mask, MasksOf(k, qa)), Shares(true, s1.bits, MasksOf(k, ql));
    ScanListIsPass(true, s1, ll, ql);
    PrioritiesStay(k, s1.k, al, qa, ga);
    AboveAsBefore(k, s1.k, ql, gl);
    var r := E.Set(k, bits, al, ll, mask);
    FromStart(false, s, s1, al, qa);
    FromStart(true, s1, r, ll, ql);
    SecondScan(k, s1.k, r.k, al, ll, ga, gl, r.preempt);
  }

  lemma SetOutcome(s: Sys, e: nat, mask: Flags)
    requires Inv(s) && Enabled(s, SetFlags(e, mask))
    ensures E.GroupOk(s.k, AnyQ(e), AllQ(e))
    ensures forall j :: 0 <= j < |Q(s.k, AnyQ(e))| ==> s.k.tasks[Q(s.k, AnyQ(e))[j]].ptr.Mask?
    ensures forall j :: 0 <= j < |Q(s.k, AllQ(e))| ==> s.k.tasks[Q(s.k, AllQ(e))[j]].ptr.Mask?
    ensures var s', total := Step(s, SetFlags(e, mask)), s.events[e] + mask;
      var ma, ml := MasksOf(s.k, Q(s.k, AnyQ(e))), MasksOf(s.k, Q(s.k, AllQ(e)));
      var left := Remaining(false, total, ma);
      && s' == s.(k := s'.k, events := s.events[e := Remaining(true, left, ml)])
      && BothServed(s.k, s'.k, AnyQ(e), AllQ(e), Shares(false, total, ma), Shares(true, left, ml))
  {
    WatchersAsk(s, e);
    SetServes(s.k, s.events[e], AnyQ(e), AllQ(e), mask);
  }
}
