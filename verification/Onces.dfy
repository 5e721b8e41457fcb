/** `Once`: the three states of a one-time initialisation and its waiters. */
module OnceModel {
  import opened Types
  import M = KernelModel

  datatype OnceState = Unstarted | InProgress | Done

  /** The first critical section of `call_once`. */
  function Begin(k: M.Kern, s: OnceState, l: ListId): (M.Kern, OnceState)
    requires M.Started(k)
  {
    match s
    case Done => (k, Done)
    case Unstarted => (k, InProgress)
    case InProgress => (M.Park(k, l), InProgress)
  }

  /** The second one, after the closure returned: everybody waiting is released. */
  function Finish(k: M.Kern, l: ListId): M.Kern
    requires M.Started(k) && M.WaitInv(k)
  {
    M.Pend(M.Drain(k, l).0, M.Drain(k, l).1)
  }
}

/** The once cell on the heap. */
module Onces {
  import M = KernelModel
  import V = OnceModel
  import opened Scheduler

  class Once {
    var state: V.OnceState
    const waitHead: WaitHead

    constructor (h: WaitHead)
      ensures state == V.Unstarted && waitHead == h
    {
      state, waitHead := V.Unstarted, h;
    }

    /** `call_once` up to the decision who runs the closure. */
    method Begin(k: Kernel) returns (amInitializer: bool, mustBlock: bool)
      requires k.Valid() && k.Knows(waitHead) && M.Started(k.st) && M.Runnable(k.st.tasks[k.st.cur])
      modifies this`state, k`st, k`pendsv, waitHead`head, k.spawned`state
      ensures k.Valid()
      ensures (k.st, state) == V.Begin(old(k.st), old(state), waitHead.lid)
      ensures amInitializer == old(state).Unstarted? && mustBlock == old(state).InProgress?
    {
      amInitializer, mustBlock := false, false;
      match state {
        case Done =>
        case Unstarted =>
          state := V.InProgress;
          amInitializer := true;
        case InProgress =>
          k.Park(waitHead);
          mustBlock := true;
      }
    }

    /** `call_once` after the closure has returned. */
    method Finish(k: Kernel)
      requires k.Valid() && k.Knows(waitHead) && M.Started(k.st)
      modifies this`state, k`st, k`pendsv, waitHead`head, k.spawned`state
      ensures k.Valid() && state == V.Done
      ensures k.st == V.Finish(old(k.st), waitHead.lid)
    {
      state := V.Done;
      var needPreempt := k.DrainAll(waitHead);
      k.TriggerIf(needPreempt);
    }

    /** `is_completed`. */
    method IsCompleted() returns (done: bool)
      ensures done <==> state == V.Done
    {
      done := state == V.Done;
    }
  }
}
