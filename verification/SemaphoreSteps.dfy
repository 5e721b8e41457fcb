/** Semaphore steps keep the invariants. */
module SemaphoreSteps {
  import opened Types
  import opened KernelModel
  import opened KernelProofs
  import opened SystemModel
  import opened Frames

  lemma SemInvKept(s: Sys, s': Sys, i: nat)
    requires PcInv(s) && PcInv(s') && SemInv(s) && i < |s.sems| == |s'.sems| && |s'.pcs| == |s.pcs|
    requires forall t :: 0 <= t < |s.pcs| && s'.pcs[t] != s.pcs[t] ==> s'.pcs[t] == InSem(i)
    requires forall j :: 0 <= j < |s.sems| && j != i ==> s'.sems[j] == s.sems[j] && Q(s'.k, SemQ(j)) == Q(s.k, SemQ(j))
    requires OneSemInv(s', i)
    ensures SemInv(s')
  {
    forall j | 0 <= j < |s'.sems|
      ensures OneSemInv(s', j)
    {
      assert OneSemInv(s, j);
    }
    forall t | 0 <= t < |s'.pcs|
      ensures TakerInv(s', t)
    {
      assert TakerInv(s, t);
    }
  }

  lemma TakeSound(s: Sys, i: nat)
    requires KernelInv(s.k) && PcInv(s) && SemInv(s) && Thread(s) && i < |s.sems|
    ensures Sound(s, TakeStep(s, i), Semaphores)
  {
    var s' := TakeStep(s, i);
    assert OneSemInv(s, i);
    if s.sems[i].sem.count > 0 {
      NoneTouched(s, s', Semaphores);
    } else {
      SetPtrSame(s.k, s.k.cur);
      RunnerParks(s, s', SemQ(i), s.k.tasks[s.k.cur].ptr, InSem(i), Semaphores);
    }
    SemInvKept(s, s', i);
  }

  lemma TryTakeSound(s: Sys, i: nat)
    requires KernelInv(s.k) && PcInv(s) && SemInv(s) && i < |s.sems|
    ensures Sound(s, TryTakeStep(s, i), Semaphores)
  {
    var s' := TryTakeStep(s, i);
    assert OneSemInv(s, i);
    NoneTouched(s, s', Semaphores);
    SemInvKept(s, s', i);
  }

  lemma GiveSound(s: Sys, i: nat)
    requires KernelInv(s.k) && PcInv(s) && SemInv(s) && i < |s.sems|
    ensures Sound(s, GiveStep(s, i), Semaphores)
  {
    var s', l := GiveStep(s, i), SemQ(i);
    assert OneSemInv(s, i) && ListOk(s.k, l);
    if Q(s.k, l) == [] {
      NoneTouched(s, s', Semaphores);
    } else {
      RouseAsRouseWith(s.k, l, Best(s.k, l));
      WaiterWakes(s, s', l, s.k.tasks[BestWaiter(s.k, l)].ptr, Semaphores);
    }
    SemInvKept(s, s', i);
  }
}
