/** `Mutex` with priority inheritance and direct ownership transfer. The data it protects plays no
    part and is left out; the owner is all that remains of its inner state. */
module MutexModel {
  import opened Types
  import M = KernelModel

  ghost predicate OwnerOk(k: M.Kern, owner: Option<nat>) {
    owner.Some? ==> owner.value < |k.tasks|
  }

  /** The owner inherits the current task's priority if that is higher. */
  function Boost(k: M.Kern, owner: nat): M.Kern
    requires M.Started(k) && owner < |k.tasks|
  {
    if k.tasks[k.cur].priority < k.tasks[owner].priority
    then M.SetPriority(k, owner, k.tasks[k.cur].priority) else k
  }

  /** The critical section of `lock` and the switch it requests. */
  function Lock(k: M.Kern, owner: Option<nat>, l: ListId): (M.Kern, Option<nat>)
    requires M.Started(k) && OwnerOk(k, owner)
  {
    if owner.None? then (k, Some(k.cur))
    else (M.Park(Boost(k, owner.value), l), owner)
  }

  function TryLock(k: M.Kern, owner: Option<nat>): (Option<nat>, bool)
    requires M.Started(k)
  {
    if owner.None? then (Some(k.cur), true) else (owner, false)
  }

  /** The releasing owner falls back to its base priority. */
  function Restore(k: M.Kern, owner: nat): M.Kern
    requires owner < |k.tasks|
  {
    M.SetPriority(k, owner, k.tasks[owner].base)
  }

  /** The lock goes to the highest-priority waiter, or to nobody. */
  function Grant(k: M.Kern, l: ListId): (M.Kern, Option<nat>)
    requires M.Started(k) && M.ListOk(k, l)
  {
    if M.Q(k, l) == [] then (k, None) else (M.WakeBest(k, l), Some(M.BestWaiter(k, l)))
  }

  /** `unlock_internal` by `owner`. */
  function Unlock(k: M.Kern, owner: nat, l: ListId): (M.Kern, Option<nat>)
    requires M.Started(k) && owner < |k.tasks| && M.ListOk(k, l)
  {
    assert M.ListOk(Restore(k, owner), l);
    Grant(Restore(k, owner), l)
  }
}

/** The mutex on the heap. */
module Mutexes {
  import opened Types
  import M = KernelModel
  import V = MutexModel
  import opened Scheduler

  class Mutex {
    var owner: Tcb?
    const waitHead: WaitHead

    constructor (h: WaitHead)
      ensures owner == null && waitHead == h
    {
      owner, waitHead := null, h;
    }

    ghost predicate Valid(k: Kernel)
      reads this, owner, k
    {
      && k.Knows(waitHead)
      && (owner != null ==> k.Has(owner))
    }

    /** The owner by name. */
    ghost function Owner(): Option<nat>
      reads this, owner
    {
      if owner == null then None else Some(owner.id)
    }

    /** `lock`, up to the point where the caller holds the lock or is blocked on it. */
    method Lock(k: Kernel) returns (mustBlock: bool)
      requires k.Valid() && Valid(k) && M.Started(k.st) && M.Runnable(k.st.tasks[k.st.cur])
      modifies this`owner, k`st, k`pendsv, waitHead`head, k.spawned`state, k.spawned`priority
      ensures k.Valid() && Valid(k)
      ensures (k.st, Owner()) == V.Lock(old(k.st), old(Owner()), waitHead.lid)
      ensures mustBlock <==> old(owner) != null
    {
      if owner == null {
        SetOwner(k, k.current);
        return false;
      }
      Contend(k);
      mustBlock := true;
    }

    /** The contended path of `lock`. */
    method Contend(k: Kernel)
      requires k.Valid() && Valid(k) && M.Started(k.st) && owner != null && M.Runnable(k.st.tasks[k.st.cur])
      modifies k`st, k`pendsv, waitHead`head, k.spawned`state, k.spawned`priority
      ensures k.Valid() && Valid(k)
      ensures k.st == M.Park(V.Boost(old(k.st), owner.id), waitHead.lid)
    {
      Boost(k);
      ParkCaller(k);
    }

    method ParkCaller(k: Kernel)
      requires k.Valid() && Valid(k) && M.Started(k.st) && M.Runnable(k.st.tasks[k.st.cur])
      modifies k`st, k`pendsv, waitHead`head, k.current`state
      ensures k.Valid() && Valid(k) && k.st == M.Park(old(k.st), waitHead.lid)
    {
      k.Park(waitHead);
    }

    /** Priority inheritance: raise the owner to the priority of the task about to block. */
    method Boost(k: Kernel)
      requires k.Valid() && Valid(k) && M.Started(k.st) && owner != null
      modifies k`st, owner`priority
      ensures k.Valid() && Valid(k)
      ensures k.st == V.Boost(old(k.st), owner.id)
    {
      var curPrio := k.current.priority;
      if curPrio < owner.priority {
        k.WritePriority(owner, curPrio);
      }
    }

    /** `try_lock`. */
    method TryLock(k: Kernel) returns (acquired: bool)
      requires k.Valid() && Valid(k) && M.Started(k.st)
      modifies this`owner
      ensures Valid(k)
      ensures (Owner(), acquired) == V.TryLock(k.st, old(Owner()))
    {
      acquired := owner == null;
      if acquired {
        owner := k.current;
      }
    }

    /** `unlock_internal`: called when a guard is dropped, and by `Condvar::wait`. */
    method UnlockInternal(k: Kernel)
      requires k.Valid() && Valid(k) && M.Started(k.st) && owner != null
      modifies this`owner, k`st, k`pendsv, waitHead`head, k.spawned`state, k.spawned`priority
      ensures k.Valid() && Valid(k) && M.ListOk(old(k.st), waitHead.lid)
      ensures (k.st, Owner()) == V.Unlock(old(k.st), old(Owner()).value, waitHead.lid)
    {
      assert M.ListOk(k.st, waitHead.lid);
      Restore(k);
      Grant(k);
    }

    /** The releasing owner loses any inherited priority. */
    method Restore(k: Kernel)
      requires k.Valid() && Valid(k) && M.Started(k.st) && owner != null
      modifies k`st, owner`priority
      ensures k.Valid() && Valid(k)
      ensures k.st == V.Restore(old(k.st), owner.id)
    {
      k.WritePriority(owner, owner.basePriority);
    }

    /** Direct ownership transfer. */
    method Grant(k: Kernel)
      requires k.Valid() && Valid(k) && M.Started(k.st)
      modifies this`owner, k`st, k`pendsv, waitHead`head, k.spawned`state
      ensures k.Valid() && Valid(k) && M.ListOk(old(k.st), waitHead.lid)
      ensures (k.st, Owner()) == V.Grant(old(k.st), waitHead.lid)
    {
      k.HeadShowsEmpty(waitHead);
      if waitHead.head != null {
        var next := k.WakeHighest(waitHead);
        SetOwner(k, next);
      } else {
        SetOwner(k, null);
      }
    }

    /** `inner.owner = t`. */
    method SetOwner(k: Kernel, t: Tcb?)
      requires k.Valid() && k.Knows(waitHead) && (t != null ==> k.Has(t))
      modifies this`owner
      ensures k.Valid() && Valid(k) && owner == t
    {
      owner := t;
    }
  }
}
