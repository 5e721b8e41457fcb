/** `Condvar`: a wait list whose entries release a mutex in the same critical section. */
module CondvarModel {
  import opened Types
  import M = KernelModel
  import MutexModel

  /** The critical section of `wait`, held by `owner` of the mutex with list `ml`. */
  function Wait(k: M.Kern, cl: ListId, owner: nat, ml: ListId): (M.Kern, Option<nat>)
    requires M.Started(k) && M.WaitInv(k) && M.Runnable(k.tasks[k.cur]) && owner < |k.tasks|
  {
    var k1 := M.Push(k, cl, k.cur);
    M.PushKeepsWaitInv(k, cl, k.cur);
    assert M.ListOk(k1, ml);
    var (k2, next) := MutexModel.Unlock(k1, owner, ml);
    (M.Pend(k2, true), next)
  }

  function NotifyOne(k: M.Kern, cl: ListId): M.Kern
    requires M.Started(k) && M.ListOk(k, cl)
  {
    if M.Q(k, cl) == [] then k else M.WakeBest(k, cl)
  }

  function NotifyAll(k: M.Kern, cl: ListId): M.Kern
    requires M.Started(k) && M.WaitInv(k)
  {
    M.Pend(M.Drain(k, cl).0, M.Drain(k, cl).1)
  }
}

/** The condition variable on the heap. */
module Condvars {
  import M = KernelModel
  import V = CondvarModel
  import opened Scheduler
  import MV = MutexModel
  import Mutexes

  class Condvar {
    const waitHead: WaitHead

    constructor (h: WaitHead)
      ensures waitHead == h
    {
      waitHead := h;
    }

    /** `wait`, up to the context switch; the caller re-locks `m` when it runs again. */
    method Wait(k: Kernel, m: Mutexes.Mutex)
      requires k.Valid() && k.Knows(waitHead) && m.Valid(k) && m.owner != null
      requires M.Started(k.st) && M.Runnable(k.st.tasks[k.st.cur])
      modifies m`owner, k`st, k`pendsv, waitHead`head, m.waitHead`head, k.spawned`state, k.spawned`priority
      ensures k.Valid() && m.Valid(k)
      ensures (k.st, m.Owner()) == V.Wait(old(k.st), waitHead.lid, old(m.Owner()).value, m.waitHead.lid)
    {
      M.PushKeepsWaitInv(k.st, waitHead.lid, k.st.cur);
      k.BlockAndPush(waitHead, k.current);
      Release(k, m);
    }

    /** The rest of that critical section, with the caller already on the list. */
    method Release(k: Kernel, m: Mutexes.Mutex)
      requires k.Valid() && k.Knows(waitHead) && m.Valid(k) && m.owner != null && M.Started(k.st)
      modifies m`owner, k`st, k`pendsv, m.waitHead`head, k.spawned`state, k.spawned`priority
      ensures k.Valid() && m.Valid(k) && M.ListOk(old(k.st), m.waitHead.lid)
      ensures var (k1, next) := MV.Unlock(old(k.st), old(m.Owner()).value, m.waitHead.lid);
        k.st == M.Pend(k1, true) && m.Owner() == next
    {
      m.UnlockInternal(k);
      k.TriggerPendsv();
    }

    /** `notify_one`. */
    method NotifyOne(k: Kernel)
      requires k.Valid() && k.Knows(waitHead) && M.Started(k.st)
      modifies k`st, k`pendsv, waitHead`head, k.spawned`state
      ensures k.Valid() && M.ListOk(old(k.st), waitHead.lid)
      ensures k.st == V.NotifyOne(old(k.st), waitHead.lid)
    {
      k.HeadShowsEmpty(waitHead);
      if waitHead.head == null {
        return;
      }
      var t := k.WakeHighest(waitHead);
    }

    /** `notify_all`. */
    method NotifyAll(k: Kernel)
      requires k.Valid() && k.Knows(waitHead) && M.Started(k.st)
      modifies k`st, k`pendsv, waitHead`head, k.spawned`state
      ensures k.Valid() && k.st == V.NotifyAll(old(k.st), waitHead.lid)
    {
      var preempt := k.DrainAll(waitHead);
      k.TriggerIf(preempt);
    }
  }
}
