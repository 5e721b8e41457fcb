/** `Semaphore`: a counter with direct hand-off of a given token to a waiter. */
module SemaphoreModel {
  import opened Types
  import M = KernelModel

  datatype Sem = Sem(count: u8, max: u8)

  function Take(k: M.Kern, s: Sem, l: ListId): (M.Kern, Sem)
    requires M.Started(k)
  {
    if s.count > 0 then (k, s.(count := s.count - 1)) else (M.Park(k, l), s)
  }

  function TryTake(s: Sem): (Sem, bool) {
    if s.count > 0 then (s.(count := s.count - 1), true) else (s, false)
  }

  function Give(k: M.Kern, s: Sem, l: ListId): (M.Kern, Sem)
    requires M.Started(k) && M.ListOk(k, l)
  {
    if M.Q(k, l) != [] then (M.WakeBest(k, l), s)
    else if s.count < s.max then (k, s.(count := s.count + 1))
    else (k, s)
  }
}

/** The semaphore on the heap. */
module Semaphores {
  import opened Types
  import M = KernelModel
  import V = SemaphoreModel
  import opened Scheduler

  class Semaphore {
    var count: u8
    const max: u8
    const waitHead: WaitHead

    constructor (initial: u8, max: u8, h: WaitHead)
      ensures View() == V.Sem(initial, max) && waitHead == h
    {
      count, this.max, waitHead := initial, max, h;
    }

    ghost function View(): V.Sem
      reads this
    {
      V.Sem(count, max)
    }

    /** `take`, up to the point where the caller has its token or is blocked. */
    method Take(k: Kernel) returns (mustBlock: bool)
      requires k.Valid() && k.Knows(waitHead) && M.Started(k.st) && M.Runnable(k.st.tasks[k.st.cur])
      modifies this`count, k`st, k`pendsv, waitHead`head, k.spawned`state
      ensures k.Valid()
      ensures (k.st, View()) == V.Take(old(k.st), old(View()), waitHead.lid)
      ensures mustBlock <==> old(count) == 0
    {
      if count > 0 {
        count := count - 1;
        return false;
      }
      k.Park(waitHead);
      mustBlock := true;
    }

    /** `try_take`. */
    method TryTake() returns (taken: bool)
      modifies this`count
      ensures (View(), taken) == V.TryTake(old(View()))
    {
      taken := count > 0;
      if taken {
        count := count - 1;
      }
    }

    /** `give`. */
    method Give(k: Kernel)
      requires k.Valid() && k.Knows(waitHead) && M.Started(k.st)
      modifies this`count, k`st, k`pendsv, waitHead`head, k.spawned`state
      ensures k.Valid() && M.ListOk(old(k.st), waitHead.lid)
      ensures (k.st, View()) == V.Give(old(k.st), old(View()), waitHead.lid)
    {
      k.HeadShowsEmpty(waitHead);
      if waitHead.head != null {
        HandOver(k);
      } else if count < max {
        count := count + 1;
      }
    }

    /** The token goes to the best waiter. */
    method HandOver(k: Kernel)
      requires k.Valid() && k.Knows(waitHead) && M.Started(k.st)
      requires M.ListOk(k.st, waitHead.lid) && M.Q(k.st, waitHead.lid) != []
      modifies k`st, k`pendsv, waitHead`head, k.spawned`state
      ensures k.Valid() && k.st == M.WakeBest(old(k.st), waitHead.lid)
    {
      var t := k.WakeHighest(waitHead);
    }
  }
}
