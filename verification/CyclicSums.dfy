/** Sums of weights along the search order of `find_next`. */
module CyclicSums {
  import opened KernelModel

  /** The weights of the first `d` tasks visited from `c`. */
  function Along(w: seq<nat>, c: nat, d: nat): nat
    requires c <= |w| && d <= |w|
  {
    if d == 0 then 0 else Along(w, c, d - 1) + w[Visit(|w|, c, d - 1)]
  }

  /** The weights of the tasks below `i`. */
  function Sum(w: seq<nat>, i: nat): nat
    requires i <= |w|
  {
    if i == 0 then 0 else Sum(w, i - 1) + w[i - 1]
  }

  lemma {:induction false} AlongSplit(w: seq<nat>, c: nat, d: nat)
    requires c <= |w| && d <= |w|
    ensures Along(w, c, d) ==
      if d <= c then Sum(w, c) - Sum(w, c - d) else Sum(w, c) + Sum(w, |w|) - Sum(w, c - d + |w|)
  {
    if d > 0 {
      AlongSplit(w, c, d - 1);
    }
  }

  /** Once around the cycle every task is visited once. */
  lemma AlongAll(w: seq<nat>, c: nat)
    requires c <= |w|
    ensures Along(w, c, |w|) == Sum(w, |w|)
  {
    AlongSplit(w, c, |w|);
  }

  lemma {:induction false} AlongSame(w: seq<nat>, v: seq<nat>, c: nat, d: nat)
    requires |v| == |w| && c <= |w| && d <= |w|
    requires forall e :: 0 <= e < d ==> v[Visit(|w|, c, e)] == w[Visit(|w|, c, e)]
    ensures Along(v, c, d) == Along(w, c, d)
  {
    if d > 0 {
      AlongSame(w, v, c, d - 1);
    }
  }

  lemma {:induction false} AlongGrows(w: seq<nat>, c: nat, d: nat, d2: nat)
    requires c <= |w| && d <= d2 <= |w|
    ensures Along(w, c, d) <= Along(w, c, d2)
  {
    if d < d2 {
      AlongGrows(w, c, d, d2 - 1);
    }
  }

  /** A walk that stops at `y` and goes on from there. */
  lemma {:induction false} AlongShift(w: seq<nat>, c: nat, d: nat, m: nat)
    requires c <= |w| && d + 1 + m <= |w|
    ensures Along(w, c, d + 1 + m) == Along(w, c, d + 1) + Along(w, Visit(|w|, c, d), m)
  {
    if m > 0 {
      AlongShift(w, c, d, m - 1);
      assert Visit(|w|, Visit(|w|, c, d), m - 1) == Visit(|w|, c, d + m);
    }
  }

  lemma {:induction false} AlongZero(w: seq<nat>, c: nat, d: nat)
    requires c <= |w| && d <= |w| && forall e :: 0 <= e < d ==> w[Visit(|w|, c, e)] == 0
    ensures Along(w, c, d) == 0
  {
    if d > 0 {
      AlongZero(w, c, d - 1);
    }
  }
}
