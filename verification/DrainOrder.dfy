/** The order in which `notify_all` and `call_once` wake their waiters. */
module DrainOrder {
  import opened Types
  import opened Seqs
  import opened KernelModel

  predicate Known(tasks: seq<Task>, q: seq<nat>) {
    forall j :: 0 <= j < |q| ==> q[j] < |tasks|
  }

  /** Popping the best waiter of `q` again and again. */
  function Order(tasks: seq<Task>, q: seq<nat>): (r: seq<nat>)
    requires Known(tasks, q)
    decreases |q|
  {
    if q == [] then [] else
    var b := BestIndex(tasks, q);
    [q[b]] + Order(tasks, Without(q, b))
  }

  function Position(q: seq<nat>, x: nat): (i: nat)
    requires x in q
    ensures i < |q| && q[i] == x
  {
    if q[0] == x then 0 else 1 + Position(q[1..], x)
  }

  /** `x` goes before `y`: by priority, and among equals by place in the list. */
  predicate Before(tasks: seq<Task>, q: seq<nat>, x: nat, y: nat)
    requires Known(tasks, q) && x in q && y in q
  {
    || tasks[x].priority < tasks[y].priority
    || (tasks[x].priority == tasks[y].priority && Position(q, x) < Position(q, y))
  }

  /** `r` has the elements of `q`, each in its place by that order; there is only one such sequence. */
  ghost predicate StableSort(tasks: seq<Task>, q: seq<nat>, r: seq<nat>)
    requires Known(tasks, q)
  {
    && |r| == |q| && (forall x :: x in r <==> x in q)
    && forall i, j :: 0 <= i < j < |r| ==> Before(tasks, q, r[i], r[j])
  }

  lemma {:induction false} PositionUnique(q: seq<nat>, i: nat)
    requires NoDup(q) && i < |q|
    ensures Position(q, q[i]) == i
  {
    if i > 0 {
      PositionUnique(q[1..], i - 1);
    }
  }

  /** Taking an element out keeps the order of the rest. */
  lemma PositionWithout(q: seq<nat>, b: nat, x: nat, y: nat)
    requires NoDup(q) && b < |q| && NoDup(Without(q, b)) && x in Without(q, b) && y in Without(q, b) && x in q && y in q
    ensures Position(Without(q, b), x) < Position(Without(q, b), y) ==> Position(q, x) < Position(q, y)
  {
    var i, j := Position(Without(q, b), x), Position(Without(q, b), y);
    PositionUnique(q, if i < b then i else i + 1);
    PositionUnique(q, if j < b then j else j + 1);
  }

  lemma Asymmetric(tasks: seq<Task>, q: seq<nat>, x: nat, y: nat)
    requires Known(tasks, q) && x in q && y in q && Before(tasks, q, x, y)
    ensures !Before(tasks, q, y, x)
  {
  }

  lemma OneWay(tasks: seq<Task>, q: seq<nat>, x: nat, y: nat)
    requires Known(tasks, q) && x in q && y in q
    ensures !(Before(tasks, q, x, y) && Before(tasks, q, y, x))
  {
  }

  lemma OrderDistinct(tasks: seq<Task>, q: seq<nat>, r: seq<nat>)
    requires Known(tasks, q) && StableSort(tasks, q, r)
    ensures NoDup(r) && forall j :: 0 <= j < |r| ==> r[j] in q
  {
    forall i, j | 0 <= i < j < |r|
      ensures r[i] != r[j]
    {
      assert Before(tasks, q, r[i], r[j]);
      Asymmetric(tasks, q, r[i], r[j]);
    }
  }

  lemma BestBefore(tasks: seq<Task>, q: seq<nat>, y: nat)
    requires Known(tasks, q) && NoDup(q) && q != [] && y in q && y != q[BestIndex(tasks, q)]
    ensures Before(tasks, q, q[BestIndex(tasks, q)], y)
  {
    BestIndexIsBest(tasks, q);
    PositionUnique(q, BestIndex(tasks, q));
    assert tasks[q[BestIndex(tasks, q)]].priority <= tasks[q[Position(q, y)]].priority;
  }

  ghost predicate IsRest(q: seq<nat>, b: nat, rest: seq<nat>)
    requires b < |q|
  {
    NoDup(rest) && |rest| == |q| - 1 && forall x :: x in rest <==> x in q && x != q[b]
  }

  lemma SameMembers(q: seq<nat>, b: nat, rest: seq<nat>)
    requires b < |q| && IsRest(q, b, rest)
    ensures forall x :: x in [q[b]] + rest <==> x in q
  {
  }

  lemma Later(x: nat, rest: seq<nat>, j: nat)
    requires 0 < j <= |rest|
    ensures ([x] + rest)[j] == rest[j - 1] && rest[j - 1] in rest
  {
  }

  /** The best waiter in front of a stable sort of the rest. */
  lemma BestFirst(tasks: seq<Task>, q: seq<nat>, p: seq<nat>, rest: seq<nat>)
    requires Known(tasks, q) && NoDup(q) && q != [] && p == Without(q, BestIndex(tasks, q)) && Known(tasks, p)
    requires IsRest(q, BestIndex(tasks, q), p) && IsRest(q, BestIndex(tasks, q), rest) && StableSort(tasks, p, rest)
    ensures StableSort(tasks, q, [q[BestIndex(tasks, q)]] + rest)
  {
    var b := BestIndex(tasks, q);
    var r := [q[b]] + rest;
    SameMembers(q, b, rest);
    forall i, j | 0 <= i < j < |r|
      ensures Before(tasks, q, r[i], r[j])
    {
      Later(q[b], rest, j);
      if i == 0 {
        BestBefore(tasks, q, r[j]);
      } else {
        Later(q[b], rest, i);
        assert Before(tasks, p, rest[i - 1], rest[j - 1]);
        PositionWithout(q, b, r[i], r[j]);
      }
    }
  }

  lemma {:induction false} OrderIsStableSort(tasks: seq<Task>, q: seq<nat>)
    requires Known(tasks, q) && NoDup(q)
    ensures StableSort(tasks, q, Order(tasks, q))
    decreases |q|
  {
    if q != [] {
      var p := Without(q, BestIndex(tasks, q));
      WithoutMembers(q, BestIndex(tasks, q));
      OrderIsStableSort(tasks, p);
      OrderDistinct(tasks, p, Order(tasks, p));
      BestFirst(tasks, q, p, Order(tasks, p));
    }
  }

  /** What comes next in `r` is not among what `r'` starts with. */
  lemma NotEarlier(tasks: seq<Task>, q: seq<nat>, r: seq<nat>, r': seq<nat>, i: nat, a: nat)
    requires Known(tasks, q) && StableSort(tasks, q, r) && i < |r| && a < |r'| && r'[a] == r[i]
    requires i <= |r'| && r[..i] == r'[..i]
    ensures a >= i
  {
    OrderDistinct(tasks, q, r);
    assert forall e :: 0 <= e < i ==> r[..i][e] == r[e] && r'[..i][e] == r'[e];
  }

  /** Two stable sorts that agree so far agree on the next element. */
  lemma NextSame(tasks: seq<Task>, q: seq<nat>, r: seq<nat>, r': seq<nat>, i: nat)
    requires Known(tasks, q) && StableSort(tasks, q, r) && StableSort(tasks, q, r')
    requires i < |r| && r[..i] == r'[..i]
    ensures r[i] == r'[i]
  {
    var x, y := r[i], r'[i];
    assert x in r && y in r';
    var a :| 0 <= a < |r'| && r'[a] == x;
    var c :| 0 <= c < |r| && r[c] == y;
    NotEarlier(tasks, q, r, r', i, a);
    NotEarlier(tasks, q, r', r, i, c);
    assert c > i ==> Before(tasks, q, x, y);
    assert a > i ==> Before(tasks, q, y, x);
    OneWay(tasks, q, x, y);
  }

  lemma {:induction false} StableSortsAgree(tasks: seq<Task>, q: seq<nat>, r: seq<nat>, r': seq<nat>, i: nat)
    requires Known(tasks, q) && StableSort(tasks, q, r) && StableSort(tasks, q, r') && i <= |r|
    ensures r[..i] == r'[..i]
  {
    if i > 0 {
      StableSortsAgree(tasks, q, r, r', i - 1);
      NextSame(tasks, q, r, r', i - 1);
      assert r[..i] == r[..i - 1] + [r[i - 1]] && r'[..i] == r'[..i - 1] + [r'[i - 1]];
    }
  }

  /** There is only one stable sort. */
  lemma StableSortUnique(tasks: seq<Task>, q: seq<nat>, r: seq<nat>, r': seq<nat>)
    requires Known(tasks, q) && StableSort(tasks, q, r) && StableSort(tasks, q, r')
    ensures r == r'
  {
    StableSortsAgree(tasks, q, r, r', |r|);
    assert r == r[..|r|] && r' == r'[..|r|];
  }

  // ------------------------------------------------------------------ the drain follows it

  /** Pop and unblock the tasks named, in this order. */
  function RouseAll(k: Kern, l: ListId, order: seq<nat>): Kern
    requires WaitInv(k) && NoDup(order) && forall j :: 0 <= j < |order| ==> order[j] in Q(k, l)
    decreases |order|
  {
    if order == [] then k else
    var i := Position(Q(k, l), order[0]);
    RouseStep(k, l, order);
    RouseAll(Rouse(k, l, i), l, order[1..])
  }

  lemma RouseStep(k: Kern, l: ListId, order: seq<nat>)
    requires WaitInv(k) && NoDup(order) && order != [] && forall j :: 0 <= j < |order| ==> order[j] in Q(k, l)
    ensures ListOk(k, l)
    ensures var k1 := Rouse(k, l, Position(Q(k, l), order[0]));
      WaitInv(k1) && NoDup(order[1..]) && forall j :: 0 <= j < |order| - 1 ==> order[1..][j] in Q(k1, l)
  {
    assert ListOk(k, l);
    RouseKeepsWaitInv(k, l, Position(Q(k, l), order[0]));
    WithoutMembers(Q(k, l), Position(Q(k, l), order[0]));
  }

  lemma {:induction false} OrderSame(tasks: seq<Task>, tasks': seq<Task>, q: seq<nat>)
    requires Known(tasks, q) && |tasks'| == |tasks|
    requires forall t :: 0 <= t < |tasks| ==> tasks'[t].priority == tasks[t].priority
    ensures Order(tasks', q) == Order(tasks, q)
    decreases |q|
  {
    if q != [] {
      BestSame(tasks, tasks', q);
      OrderSame(tasks, tasks', Without(q, BestIndex(tasks, q)));
    }
  }

  lemma {:induction false} BestSame(tasks: seq<Task>, tasks': seq<Task>, q: seq<nat>)
    requires Known(tasks, q) && q != [] && |tasks'| == |tasks|
    requires forall t :: 0 <= t < |tasks| ==> tasks'[t].priority == tasks[t].priority
    ensures BestIndex(tasks', q) == BestIndex(tasks, q)
  {
    if |q| > 1 {
      BestSame(tasks, tasks', q[..|q| - 1]);
    }
  }

  ghost predicate Follows(k: Kern, l: ListId, order: seq<nat>)
    requires Started(k) && WaitInv(k)
  {
    && NoDup(order) && (forall j :: 0 <= j < |order| ==> order[j] in Q(k, l))
    && Drain(k, l).0 == RouseAll(k, l, order)
  }

  /** One round. */
  lemma FollowsOn(k: Kern, l: ListId, order: seq<nat>)
    requires Started(k) && WaitInv(k) && ListOk(k, l) && order != [] && NoDup(order) && Q(k, l) != []
    requires (forall j :: 0 <= j < |order| ==> order[j] in Q(k, l)) && order[0] == BestWaiter(k, l)
    requires WaitInv(Rouse(k, l, Best(k, l))) && Follows(Rouse(k, l, Best(k, l)), l, order[1..])
    ensures Follows(k, l, order)
  {
    DrainStep(k, l);
    PositionUnique(Q(k, l), Best(k, l));
    RouseStep(k, l, order);
  }

  lemma OrderTail(k: Kern, l: ListId)
    requires WaitInv(k) && ListOk(k, l) && Q(k, l) != []
    ensures var k1 := Rouse(k, l, Best(k, l));
      && WaitInv(k1) && ListOk(k1, l) && Known(k1.tasks, Q(k1, l))
      && Order(k.tasks, Q(k, l)) == [BestWaiter(k, l)] + Order(k1.tasks, Q(k1, l))
      && Order(k.tasks, Q(k, l))[1..] == Order(k1.tasks, Q(k1, l))
  {
    RouseKeepsWaitInv(k, l, Best(k, l));
    assert ListOk(Rouse(k, l, Best(k, l)), l);
    var k1 := Rouse(k, l, Best(k, l));
    OrderSame(k.tasks, k1.tasks, Without(Q(k, l), Best(k, l)));
  }

  lemma OrderMembers(tasks: seq<Task>, q: seq<nat>)
    requires Known(tasks, q) && NoDup(q)
    ensures NoDup(Order(tasks, q)) && forall j :: 0 <= j < |Order(tasks, q)| ==> Order(tasks, q)[j] in q
  {
    OrderIsStableSort(tasks, q);
    OrderDistinct(tasks, q, Order(tasks, q));
  }

  lemma {:induction false} DrainFollows(k: Kern, l: ListId)
    requires Started(k) && WaitInv(k) && ListOk(k, l)
    ensures Follows(k, l, Order(k.tasks, Q(k, l)))
    decreases |Q(k, l)|
  {
    var order := Order(k.tasks, Q(k, l));
    OrderMembers(k.tasks, Q(k, l));
    if Q(k, l) != [] {
      var k1 := Rouse(k, l, Best(k, l));
      OrderTail(k, l);
      DrainFollows(k1, l);
      FollowsOn(k, l, order);
    }
  }

  /** Draining a list pops and wakes its tasks one by one in the stable sort of the list by priority. */
  lemma DrainIsStableSort(k: Kern, l: ListId, order: seq<nat>)
    requires Started(k) && WaitInv(k) && ListOk(k, l) && StableSort(k.tasks, Q(k, l), order)
    ensures Follows(k, l, order)
  {
    OrderIsStableSort(k.tasks, Q(k, l));
    StableSortUnique(k.tasks, Q(k, l), order, Order(k.tasks, Q(k, l)));
    DrainFollows(k, l);
  }
}
