/** Once-cell steps keep the invariants. */
module OnceSteps {
  import opened Types
  import opened KernelModel
  import opened KernelProofs
  import opened SystemModel
  import opened Frames
  import O = OnceModel

  lemma OnceInvKept(s: Sys, s': Sys, o: nat)
    requires PcInv(s) && PcInv(s') && OnceInv(s) && o < |s.onces| == |s'.onces| && |s'.pcs| == |s.pcs|
    requires forall j :: 0 <= j < |s.onces| && j != o ==>
      s'.onces[j] == s.onces[j] && Q(s'.k, OnceQ(j)) == Q(s.k, OnceQ(j))
    requires forall t :: 0 <= t < |s.pcs| && s'.pcs[t] != InOnce(o) ==>
      s'.pcs[t] == s.pcs[t] && (Runnable(s'.k.tasks[t]) ==> Runnable(s.k.tasks[t]))
    requires forall t :: 0 <= t < |s.pcs| && s'.pcs[t] == InOnce(o) ==> CallerInv(s', t)
    requires OneOnceInv(s', o)
    ensures OnceInv(s')
  {
    forall j | 0 <= j < |s'.onces|
      ensures OneOnceInv(s', j)
    {
      assert OneOnceInv(s, j);
    }
    forall t | 0 <= t < |s'.pcs|
      ensures CallerInv(s', t)
    {
      assert CallerInv(s, t);
    }
  }

  lemma BeginSound(s: Sys, o: nat)
    requires KernelInv(s.k) && PcInv(s) && OnceInv(s) && Thread(s) && o < |s.onces|
    ensures Sound(s, BeginStep(s, o), OnceCells)
  {
    var s' := BeginStep(s, o);
    assert OneOnceInv(s, o);
    if s.onces[o].state == O.InProgress {
      SetPtrSame(s.k, s.k.cur);
      RunnerParks(s, s', OnceQ(o), s.k.tasks[s.k.cur].ptr, InOnce(o), OnceCells);
    } else {
      NoneTouched(s, s', OnceCells);
    }
    forall t | 0 <= t < |s.pcs| && s'.pcs[t] == InOnce(o)
      ensures CallerInv(s', t)
    {
      assert CallerInv(s, t);
    }
    OnceInvKept(s, s', o);
  }

  lemma FinishSound(s: Sys, o: nat)
    requires KernelInv(s.k) && PcInv(s) && OnceInv(s) && Thread(s) && o < |s.onces|
    requires s.onces[o].runner == Some(s.k.cur)
    ensures Sound(s, FinishStep(s, o), OnceCells)
  {
    var s' := FinishStep(s, o);
    assert OneOnceInv(s, o);
    forall t | 0 <= t < |s.pcs| && s.k.tasks[t].state == Blocked(OnceQ(o))
      ensures s.pcs[t] == InOnce(o)
    {
      assert PcFits(s.pcs[t], s.k.tasks[t].state);
    }
    WaitersDrain(s, s', OnceQ(o), OnceCells);
    forall t | 0 <= t < |s.pcs| && s'.pcs[t] == InOnce(o)
      ensures CallerInv(s', t)
    {
      assert CallerInv(s, t);
    }
    OnceInvKept(s, s', o);
  }
}
