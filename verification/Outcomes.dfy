/** When each call succeeds, and everything it then changes. */
module Outcomes {
  import opened Types
  import opened Seqs
  import opened KernelModel
  import opened KernelProofs
  import opened SystemModel
  import opened Handovers
  import MutexSteps
  import X = MutexModel
  import S = SemaphoreModel
  import O = OnceModel
  import H = ChannelModel
  import P = PoolModel
  import T = TimerModel

  // ------------------------------------------------------------------ the task API

  /** The current task is in `phase`, and a switch is due; nothing else of the kernel differs. */
  predicate Left(k: Kern, k': Kern, phase: Phase)
    requires Started(k)
  {
    && |k'.tasks| == |k.tasks| && k'.pendsv && k' == k.(tasks := k'.tasks, pendsv := true)
    && forall t :: 0 <= t < |k.tasks| ==>
      k'.tasks[t] == if t == k.cur then k.tasks[t].(state := phase) else k.tasks[t]
  }

  lemma ExitOutcome(s: Sys)
    requires Inv(s) && Enabled(s, Op.Exit)
    ensures var s' := Step(s, Op.Exit); Left(s.k, s'.k, Dead) && s' == s.(k := s'.k)
  {
  }

  lemma SleepOutcome(s: Sys, until: u64)
    requires Inv(s) && Enabled(s, Op.Sleep(until))
    ensures var s' := Step(s, Op.Sleep(until)); Left(s.k, s'.k, Sleeping(until)) && s' == s.(k := s'.k, pcs := s'.pcs)
  {
  }

  lemma YieldOutcome(s: Sys)
    requires Inv(s) && Enabled(s, Op.Yield)
    ensures var s' := Step(s, Op.Yield); Left(s.k, s'.k, Running(0)) && s' == s.(k := s'.k)
  {
    ThreadIsRunning(s);
  }

  // ------------------------------------------------------------------ mutexes

  /** `t` has priority `p`; nothing else of the kernel differs. */
  function WithPriority(k: Kern, t: nat, p: u8): Kern
    requires t < |k.tasks|
  {
    k.(tasks := seq(|k.tasks|, u requires 0 <= u < |k.tasks| =>
      if u == t then k.tasks[u].(priority := p) else k.tasks[u]))
  }

  /** `lock` takes a free mutex and then changes nothing else; otherwise the owner's priority becomes the
      caller's if that is higher, and the caller parks. */
  ghost predicate Locked(s: Sys, s': Sys, m: nat)
    requires Started(s.k) && m < |s.mutexes|
  {
    var c, o := s.k.cur, s.mutexes[m];
    if o.None? then s'.k == s.k && s'.mutexes == s.mutexes[m := Some(c)] && s'.guards == s.guards + {(c, m)}
    else
      && o.value < |s.k.tasks| && s'.mutexes == s.mutexes && s'.guards == s.guards
      && var p, q := s.k.tasks[c].priority, s.k.tasks[o.value].priority;
      ParkedFirst(WithPriority(s.k, o.value, if p < q then p else q), s'.k, MutexQ(m), s.k.tasks[c].ptr)
  }

  lemma LockedByStep(s: Sys, m: nat)
    requires KernelInv(s.k) && PcInv(s) && MutexInv(s) && m < |s.mutexes|
    ensures Locked(s, LockStep(s, m), m)
  {
    assert OwnerInv(s, m);
    if s.mutexes[m].Some? {
      var o := s.mutexes[m].value;
      var k1 := X.Boost(s.k, o);
      var p, q := s.k.tasks[s.k.cur].priority, s.k.tasks[o].priority;
      assert k1.tasks == WithPriority(s.k, o, if p < q then p else q).tasks;
      ParkParksFirst(k1, MutexQ(m));
    }
  }

  lemma LockOutcome(s: Sys, m: nat)
    requires Inv(s) && Enabled(s, Lock(m))
    ensures Locked(s, Step(s, Lock(m)), m)
  {
    LockedByStep(s, m);
  }

  /** The same when `wait` locks its mutex again. */
  lemma RelockOutcome(s: Sys, m: nat)
    requires Inv(s) && Enabled(s, Return) && s.pcs[s.k.cur] == Relock(m)
    ensures m < |s.mutexes| && Locked(s, Step(s, Return), m)
  {
    assert LockerInv(s, s.k.cur);
    LockedByStep(s, m);
  }

  lemma TryLockOutcome(s: Sys, m: nat)
    requires Inv(s) && Enabled(s, TryLock(m))
    ensures var s' := Step(s, TryLock(m));
      if s.mutexes[m].None?
      then s' == s.(mutexes := s.mutexes[m := Some(s.k.cur as nat)], guards := s.guards + {(s.k.cur, m)})
      else s' == s
  {
  }

  /** `unlock` puts the caller back at its base priority and hands the mutex to its foremost waiter, who
      is let in, or to nobody. */
  ghost predicate Unlocked(s: Sys, s': Sys, m: nat)
    requires Started(s.k) && m < |s.mutexes|
  {
    var k1 := WithPriority(s.k, s.k.cur, s.k.tasks[s.k.cur].base);
    && s'.guards == s.guards - {(s.k.cur, m)}
    && if Q(s.k, MutexQ(m)) == [] then s'.k == k1 && s'.mutexes == s.mutexes[m := None]
       else HandedOver(k1, s'.k, MutexQ(m)) && |s'.mutexes| == |s.mutexes| && s'.mutexes[m].Some?
            && s'.mutexes == s.mutexes[m := s'.mutexes[m]] && LetIn(k1, s'.k, MutexQ(m), s'.mutexes[m].value)
  }

  /** `w` was on the list and is not any more. */
  predicate LetIn(k: Kern, k': Kern, l: ListId, w: nat) {
    w in Q(k, l) && w !in Q(k', l)
  }

  lemma UnlockedBy(s: Sys, s': Sys, m: nat)
    requires Started(s.k) && m < |s.mutexes| && ListOk(s.k, MutexQ(m)) && s.k.tasks[s.k.cur].state != Blocked(MutexQ(m))
    requires s'.guards == s.guards - {(s.k.cur, m)}
    requires (s'.k, if m < |s'.mutexes| then s'.mutexes[m] else None) == X.Unlock(s.k, s.k.cur, MutexQ(m))
    requires |s'.mutexes| == |s.mutexes| && s'.mutexes == s.mutexes[m := s'.mutexes[m]]
    ensures Unlocked(s, s', m)
  {
    var l, k1 := MutexQ(m), X.Restore(s.k, s.k.cur);
    assert ListOk(k1, l);
    assert k1.tasks == WithPriority(s.k, s.k.cur, s.k.tasks[s.k.cur].base).tasks;
    if Q(s.k, l) != [] {
      WakeHands(k1, l);
      WithoutMembers(Q(k1, l), Best(k1, l));
    }
  }

  lemma UnlockOutcome(s: Sys, m: nat)
    requires Inv(s) && Enabled(s, Unlock(m))
    ensures m < |s.mutexes| && Unlocked(s, Step(s, Unlock(m)), m)
  {
    assert GuardInv(s, s.k.cur, m) && ListOk(s.k, MutexQ(m));
    UnlockedBy(s, Step(s, Unlock(m)), m);
  }

  // ------------------------------------------------------------------ condition variables

  /** `wait` parks its caller on the condition variable, and then the mutex goes on as in `unlock`. */
  ghost predicate Waited(s: Sys, k1: Kern, s': Sys, c: nat, m: nat)
    requires Started(s.k) && m < |s.mutexes|
  {
    ParkedFirst(s.k, k1, CondQ(c), s.k.tasks[s.k.cur].ptr) && Unlocked(s.(k := k1), s', m)
  }

  lemma CondWaitOutcome(s: Sys, c: nat, m: nat)
    requires Inv(s) && Enabled(s, CondWait(c, m))
    ensures m < |s.mutexes| && exists k1 :: Waited(s, k1, Step(s, CondWait(c, m)), c, m)
  {
    assert GuardInv(s, s.k.cur, m) && ListOk(s.k, MutexQ(m));
    var k1, s' := Park(s.k, CondQ(c)), Step(s, CondWait(c, m));
    ParkParksFirst(s.k, CondQ(c));
    MutexSteps.WaitAsParkThenUnlock(s.k, CondQ(c), MutexQ(m));
    UnlockedBy(s.(k := k1), s', m);
    assert Waited(s, k1, s', c, m);
  }

  lemma NotifyOneOutcome(s: Sys, c: nat)
    requires Inv(s) && Enabled(s, NotifyOne(c))
    ensures var s' := Step(s, NotifyOne(c));
      if Q(s.k, CondQ(c)) == [] then s' == s
      else HandedOver(s.k, s'.k, CondQ(c)) && s' == s.(k := s'.k, pcs := s'.pcs)
  {
    assert ListOk(s.k, CondQ(c));
    if Q(s.k, CondQ(c)) != [] {
      WakeHands(s.k, CondQ(c));
    }
  }

  lemma NotifyAllOutcome(s: Sys, c: nat)
    requires Inv(s) && Enabled(s, NotifyAll(c))
    ensures var s' := Step(s, NotifyAll(c)); AllHanded(s.k, s'.k, CondQ(c)) && s' == s.(k := s'.k, pcs := s'.pcs)
  {
    DrainHandsAll(s.k, CondQ(c));
  }

  // ------------------------------------------------------------------ semaphores

  /** `take` takes a token if there is one, and parks otherwise. */
  lemma TakeOutcome(s: Sys, i: nat)
    requires Inv(s) && Enabled(s, Take(i))
    ensures var s', n := Step(s, Take(i)), s.sems[i].sem.count;
      && |s'.sems| == |s.sems| && s'.sems[i].sem.max == s.sems[i].sem.max
      && if n > 0 then s'.k == s.k && s'.pcs == s.pcs && s'.sems[i].sem.count == n - 1
         else ParkedFirst(s.k, s'.k, SemQ(i), s.k.tasks[s.k.cur].ptr) && s'.sems[i].sem.count == 0
              && s'.pcs == s.pcs[s.k.cur := InSem(i)]
  {
    ParkParksFirst(s.k, SemQ(i));
  }

  /** `try_take` succeeds if and only if a token is left. */
  lemma TryTakeOutcome(s: Sys, i: nat)
    requires Inv(s) && Enabled(s, TryTake(i))
    ensures var s', n := Step(s, TryTake(i)), s.sems[i].sem.count;
      && s'.k == s.k && |s'.sems| == |s.sems| && s'.sems[i].sem.max == s.sems[i].sem.max
      && (S.TryTake(s.sems[i].sem).1 <==> n > 0) && s'.sems[i].sem.count == if n > 0 then n - 1 else 0
  {
  }

  /** `give` lets the foremost waiter in and leaves the counter alone; without one it counts the token,
      up to the maximum. */
  lemma GiveOutcome(s: Sys, i: nat)
    requires Inv(s) && Enabled(s, Give(i))
    ensures var s', sem := Step(s, Give(i)), s.sems[i].sem;
      && |s'.sems| == |s.sems| && s' == s.(k := s'.k, sems := s.sems[i := s'.sems[i]])
      && s'.sems[i].sem.max == sem.max
      && if Q(s.k, SemQ(i)) != [] then HandedOver(s.k, s'.k, SemQ(i)) && s'.sems[i].sem.count == sem.count
         else s'.k == s.k && s'.sems[i].sem.count == if sem.count < sem.max then sem.count + 1 else sem.count
  {
    assert ListOk(s.k, SemQ(i));
    if Q(s.k, SemQ(i)) != [] {
      WakeHands(s.k, SemQ(i));
    }
  }

  // ------------------------------------------------------------------ once cells

  lemma BeginOutcome(s: Sys, o: nat)
    requires Inv(s) && Enabled(s, Begin(o))
    ensures var s', was := Step(s, Begin(o)), s.onces[o].state;
      && |s'.onces| == |s.onces|
      && (was == O.Unstarted ==> s'.k == s.k && s'.onces[o].state == O.InProgress)
      && (was == O.InProgress ==>
            ParkedFirst(s.k, s'.k, OnceQ(o), s.k.tasks[s.k.cur].ptr) && s'.onces == s.onces)
      && (was == O.Done ==> s' == s)
  {
    ParkParksFirst(s.k, OnceQ(o));
  }

  lemma FinishOutcome(s: Sys, o: nat)
    requires Inv(s) && Enabled(s, Finish(o))
    ensures var s' := Step(s, Finish(o));
      && |s'.onces| == |s.onces| && s' == s.(k := s'.k, onces := s.onces[o := s'.onces[o]])
      && s'.onces[o].state == O.Done && AllHanded(s.k, s'.k, OnceQ(o))
  {
    DrainHandsAll(s.k, OnceQ(o));
  }

  // ------------------------------------------------------------------ channels

  /** A receiver was waiting and got the value, or the value is now the last in the ring. */
  ghost predicate Accepts(s: Sys, s': Sys, h: nat, v: Value)
    requires Started(s.k) && h < |s.chans| == |s'.chans|
  {
    var c, c' := s.chans[h].chan, s'.chans[h].chan;
    if Q(s.k, RecvQ(h)) != [] then HandedWith(s.k, s'.k, RecvQ(h), Filled(v)) && c' == c
    else |c.items| < c.cap && s'.k == s.k && c' == H.Chan(c.cap, c.items + [v])
  }

  /** A receiver waits, or there is room. */
  predicate CanSend(s: Sys, h: nat)
    requires h < |s.chans|
  {
    Q(s.k, RecvQ(h)) != [] || |s.chans[h].chan.items| < s.chans[h].chan.cap
  }

  lemma AcceptAccepts(s: Sys, s': Sys, h: nat, v: Value)
    requires Started(s.k) && h < |s.chans| == |s'.chans| && ListOk(s.k, RecvQ(h)) && CanSend(s, h)
    requires H.Accept(s.k, s.chans[h].chan, RecvQ(h), v) == Some((s'.k, s'.chans[h].chan))
    ensures Accepts(s, s', h, v)
  {
    if Q(s.k, RecvQ(h)) != [] {
      WakeHandsWith(s.k, RecvQ(h), Filled(v));
    }
  }

  lemma SendAccepts(s: Sys, s': Sys, h: nat, v: Value)
    requires KernelInv(s.k) && PcInv(s) && ChanInv(s) && h < |s.chans| && s' == SendStep(s, h, v) && CanSend(s, h)
    ensures |s'.chans| == |s.chans| && Accepts(s, s', h, v) && s'.pcs == s.pcs
  {
    SendersOffer(s, h);
    AcceptAccepts(s, s', h, v);
  }

  lemma SendParks(s: Sys, s': Sys, h: nat, v: Value)
    requires KernelInv(s.k) && PcInv(s) && ChanInv(s) && h < |s.chans| && s' == SendStep(s, h, v) && !CanSend(s, h)
    ensures |s'.chans| == |s.chans| && s'.chans[h].chan == s.chans[h].chan
    ensures ParkedFirst(s.k, s'.k, SendQ(h), Parked(v)) && s'.pcs == s.pcs[s.k.cur := InSend(h, v)]
  {
    SendersOffer(s, h);
    ParkParksFirstWith(s.k, SendQ(h), Parked(v));
  }

  lemma SendOutcome(s: Sys, h: nat, v: Value)
    requires Inv(s) && Enabled(s, Send(h, v))
    ensures var s' := Step(s, Send(h, v));
      && |s'.chans| == |s.chans| && s' == s.(k := s'.k, chans := s.chans[h := s'.chans[h]], pcs := s'.pcs)
      && if CanSend(s, h) then Accepts(s, s', h, v) && s'.pcs == s.pcs
         else ParkedFirst(s.k, s'.k, SendQ(h), Parked(v)) && s'.chans[h].chan == s.chans[h].chan
              && s'.pcs == s.pcs[s.k.cur := InSend(h, v)]
  {
    if CanSend(s, h) {
      SendAccepts(s, Step(s, Send(h, v)), h, v);
    } else {
      SendParks(s, Step(s, Send(h, v)), h, v);
    }
  }

  lemma TrySendBy(s: Sys, s': Sys, h: nat, v: Value)
    requires KernelInv(s.k) && PcInv(s) && ChanInv(s) && h < |s.chans| && s' == TrySendStep(s, h, v)
    ensures ListOk(s.k, RecvQ(h)) && |s'.chans| == |s.chans|
    ensures H.TrySend(s.k, s.chans[h].chan, RecvQ(h), v).2 <==> CanSend(s, h)
    ensures if CanSend(s, h) then Accepts(s, s', h, v) else s'.k == s.k && s'.chans[h].chan == s.chans[h].chan
  {
    SendersOffer(s, h);
    if CanSend(s, h) {
      AcceptAccepts(s, s', h, v);
    }
  }

  /** `try_send` succeeds if and only if a receiver waits or there is room. */
  lemma TrySendOutcome(s: Sys, h: nat, v: Value)
    requires Inv(s) && Enabled(s, TrySend(h, v))
    ensures ListOk(s.k, RecvQ(h))
    ensures var s' := Step(s, TrySend(h, v));
      && |s'.chans| == |s.chans| && s' == s.(k := s'.k, chans := s.chans[h := s'.chans[h]])
      && (H.TrySend(s.k, s.chans[h].chan, RecvQ(h), v).2 <==> CanSend(s, h))
      && if CanSend(s, h) then Accepts(s, s', h, v) else s'.k == s.k && s'.chans[h].chan == s.chans[h].chan
  {
    TrySendBy(s, Step(s, TrySend(h, v)), h, v);
  }

  /** The oldest item was taken, and the foremost parked sender was let in with its value behind all
      others. */
  ghost predicate Delivers(s: Sys, s': Sys, h: nat)
    requires Started(s.k) && h < |s.chans| == |s'.chans| && s.chans[h].chan.items != []
  {
    var c, c', l := s.chans[h].chan, s'.chans[h].chan, SendQ(h);
    if Q(s.k, l) == [] then s'.k == s.k && c' == H.Chan(c.cap, c.items[1..])
    else exists p: nat :: Refilled(s.k, s'.k, l, p, c, c')
  }

  ghost predicate Refilled(k: Kern, k': Kern, l: ListId, p: nat, c: H.Chan, c': H.Chan)
    requires Started(k) && c.items != []
  {
    && Foremost(k, l, p) && k.tasks[Q(k, l)[p]].ptr.Parked?
    && Handed(k, k', l, p, k.tasks[Q(k, l)[p]].ptr)
    && c' == H.Chan(c.cap, c.items[1..] + [k.tasks[Q(k, l)[p]].ptr.val])
  }

  lemma DeliverOutcome(s: Sys, s': Sys, h: nat)
    requires KernelInv(s.k) && h < |s.chans| == |s'.chans| && s.chans[h].chan.items != []
    requires ListOk(s.k, SendQ(h)) && H.SendersParked(s.k, SendQ(h))
    requires H.Deliver(s.k, s.chans[h].chan, SendQ(h)) == Some((s'.k, s'.chans[h].chan, s.chans[h].chan.items[0]))
    ensures Delivers(s, s', h)
  {
    var l, c := SendQ(h), s.chans[h].chan;
    if Q(s.k, l) != [] {
      WakeHands(s.k, l);
      assert Refilled(s.k, s'.k, l, Best(s.k, l), c, s'.chans[h].chan);
    }
  }

  lemma RecvDelivers(s: Sys, s': Sys, h: nat)
    requires KernelInv(s.k) && PcInv(s) && ChanInv(s) && h < |s.chans| && s.chans[h].chan.items != []
    requires s' == RecvStep(s, h)
    ensures ListOk(s.k, SendQ(h)) && H.SendersParked(s.k, SendQ(h)) && |s'.chans| == |s.chans|
    ensures H.Recv(s.k, s.chans[h].chan, SendQ(h), RecvQ(h)).2 == Some(s.chans[h].chan.items[0])
    ensures Delivers(s, s', h) && s'.pcs == s.pcs
  {
    SendersOffer(s, h);
    DeliverOutcome(s, s', h);
  }

  lemma RecvParks(s: Sys, s': Sys, h: nat)
    requires KernelInv(s.k) && PcInv(s) && ChanInv(s) && h < |s.chans| && s.chans[h].chan.items == []
    requires s' == RecvStep(s, h)
    ensures ListOk(s.k, SendQ(h)) && H.SendersParked(s.k, SendQ(h)) && s'.chans == s.chans
    ensures H.Recv(s.k, s.chans[h].chan, SendQ(h), RecvQ(h)).2 == None
    ensures ParkedFirst(s.k, s'.k, RecvQ(h), Hole) && s'.pcs == s.pcs[s.k.cur := InRecv(h)]
  {
    SendersOffer(s, h);
    ParkParksFirstWith(s.k, RecvQ(h), Hole);
  }

  /** `recv` returns the oldest item of the ring, and parks with an empty slot if there is none. */
  lemma RecvOutcome(s: Sys, h: nat)
    requires Inv(s) && Enabled(s, Recv(h))
    ensures ListOk(s.k, SendQ(h)) && H.SendersParked(s.k, SendQ(h))
    ensures var s', items := Step(s, Recv(h)), s.chans[h].chan.items;
      var v := H.Recv(s.k, s.chans[h].chan, SendQ(h), RecvQ(h)).2;
      && |s'.chans| == |s.chans| && s' == s.(k := s'.k, chans := s.chans[h := s'.chans[h]], pcs := s'.pcs)
      && if items != [] then v == Some(items[0]) && Delivers(s, s', h) && s'.pcs == s.pcs
         else v == None && ParkedFirst(s.k, s'.k, RecvQ(h), Hole) && s'.chans == s.chans
              && s'.pcs == s.pcs[s.k.cur := InRecv(h)]
  {
    if s.chans[h].chan.items != [] {
      RecvDelivers(s, Step(s, Recv(h)), h);
    } else {
      RecvParks(s, Step(s, Recv(h)), h);
    }
  }

  /** `try_recv` returns the oldest item if and only if there is one. */
  lemma TryRecvOutcome(s: Sys, h: nat)
    requires Inv(s) && Enabled(s, TryRecv(h))
    ensures ListOk(s.k, SendQ(h)) && H.SendersParked(s.k, SendQ(h))
    ensures var s', items, v := Step(s, TryRecv(h)), s.chans[h].chan.items, H.TryRecv(s.k, s.chans[h].chan, SendQ(h)).2;
      && |s'.chans| == |s.chans| && s' == s.(k := s'.k, chans := s.chans[h := s'.chans[h]])
      && if items != [] then v == Some(items[0]) && Delivers(s, s', h) else v == None && s' == s
  {
    SendersOffer(s, h);
    if s.chans[h].chan.items != [] {
      DeliverOutcome(s, Step(s, TryRecv(h)), h);
    }
  }

  // ------------------------------------------------------------------ event groups

  /** `wait_any` returns the common flags, if there are any, and consumes exactly those; otherwise it
      parks with its mask and consumes nothing. */
  lemma WaitAnyOutcome(s: Sys, e: nat, mask: Flags)
    requires Inv(s) && Enabled(s, WaitAny(e, mask))
    ensures var s', was, c := Step(s, WaitAny(e, mask)), s.events[e], s.k.cur;
      && |s'.events| == |s.events| && s' == s.(k := s'.k, events := s.events[e := s'.events[e]], pcs := s'.pcs)
      && if exists f :: f in was && f in mask
         then
           && |s'.k.tasks| == |s.k.tasks| && s'.k == s.k.(tasks := s'.k.tasks) && s'.k.tasks[c].ptr.Mask?
           && (forall t :: 0 <= t < |s.k.tasks| ==>
                 s'.k.tasks[t] == if t == c then s.k.tasks[t].(ptr := s'.k.tasks[c].ptr) else s.k.tasks[t])
           && var got := s'.k.tasks[c].ptr.flags;
             && (forall f :: f in got <==> f in was && f in mask)
             && s'.events[e] + got == was && s'.events[e] * got == {}
         else ParkedFirst(s.k, s'.k, AnyQ(e), Mask(mask)) && s'.events[e] == was
  {
    ParkParksFirstWith(s.k, AnyQ(e), Mask(mask));
    if f :| f in s.events[e] && f in mask {
      assert f in s.events[e] * mask;
    }
  }

  /** `wait_all` consumes its mask if all of it is set, and parks with it otherwise. */
  lemma WaitAllOutcome(s: Sys, e: nat, mask: Flags)
    requires Inv(s) && Enabled(s, WaitAll(e, mask))
    ensures var s', was := Step(s, WaitAll(e, mask)), s.events[e];
      && |s'.events| == |s.events| && s' == s.(k := s'.k, events := s.events[e := s'.events[e]], pcs := s'.pcs)
      && if forall f :: f in mask ==> f in was
         then s'.k == s.k && s'.events[e] + mask == was && s'.events[e] * mask == {}
         else ParkedFirst(s.k, s'.k, AllQ(e), Mask(mask)) && s'.events[e] == was
  {
    ParkParksFirstWith(s.k, AllQ(e), Mask(mask));
  }

  lemma ClearOutcome(s: Sys, e: nat, mask: Flags)
    requires Inv(s) && Enabled(s, ClearFlags(e, mask))
    ensures var s' := Step(s, ClearFlags(e, mask));
      && |s'.events| == |s.events| && s' == s.(events := s.events[e := s'.events[e]])
      && forall f :: f in s'.events[e] <==> f in s.events[e] && f !in mask
  {
  }

  // ------------------------------------------------------------------ pools

  /** Every slot of the pool is held. */
  predicate Exhausted(log: PoolLog) {
    forall x: nat :: x < log.pool.cap ==> x in log.holder
  }

  lemma ExhaustedIff(s: Sys, p: nat)
    requires PcInv(s) && p < |s.pools| && OnePoolInv(s, p)
    ensures Exhausted(s.pools[p]) <==> s.pools[p].pool.free == []
  {
    var log := s.pools[p];
    if log.pool.free != [] {
      assert log.pool.free[0] in log.pool.free;
    }
  }

  /** The slot that became free last was taken and holds the value, and no other slot differs. */
  ghost predicate TakenSlot(a: PoolLog, b: PoolLog, x: nat, v: Value)
    requires P.PoolOk(a.pool)
  {
    && x < a.pool.cap && x in a.pool.free && x !in a.holder && x !in b.pool.free
    && a.pool.free == [x] + b.pool.free && b.pool.cap == a.pool.cap && |b.pool.nodes| == |a.pool.nodes|
    && forall y :: 0 <= y < |a.pool.nodes| ==> b.pool.nodes[y] == if y == x then v else a.pool.nodes[y]
  }

  lemma StoreTakes(log: PoolLog, v: Value)
    requires P.PoolOk(log.pool) && NoDup(log.pool.free) && log.pool.free != [] && log.pool.free[0] !in log.holder
    ensures TakenSlot(log, PoolLog(P.Store(log.pool, v).0, log.holder), P.Store(log.pool, v).1, v)
  {
    var q := log.pool.free;
    assert q == [q[0]] + q[1..] && forall y :: y in q[1..] ==> y != q[0];
  }

  /** `alloc` fails if and only if every slot of the pool is held, and then does nothing. Otherwise the
      caller has a live box for a slot that was free, with its value inside. */
  lemma AllocOutcome(s: Sys, p: nat, v: Value)
    requires Inv(s) && Enabled(s, Alloc(p, v))
    ensures OnePoolInv(s, p)
    ensures var s', slot := Step(s, Alloc(p, v)), P.Alloc(s.pools[p].pool, v).1;
      && (slot.None? <==> Exhausted(s.pools[p]))
      && if slot.None? then s' == s
         else
           && |s'.pools| == |s.pools| && s' == s.(pools := s.pools[p := s'.pools[p]])
           && TakenSlot(s.pools[p], s'.pools[p], slot.value, v)
           && s'.pools[p].holder == s.pools[p].holder[slot.value := Boxed(v)]
  {
    assert OnePoolInv(s, p);
    ExhaustedIff(s, p);
    if s.pools[p].pool.free != [] {
      assert s.pools[p].pool.free[0] in s.pools[p].pool.free;
      StoreTakes(s.pools[p], v);
    }
  }

  /** `alloc_blocking` does the same with the slot left in `wait_ptr`, but parks with the value where
      `alloc` would fail. */
  lemma AllocBlockingOutcome(s: Sys, p: nat, v: Value)
    requires Inv(s) && Enabled(s, AllocBlocking(p, v))
    ensures OnePoolInv(s, p)
    ensures var s', c := Step(s, AllocBlocking(p, v)), s.k.cur;
      if Exhausted(s.pools[p]) then ParkedFirst(s.k, s'.k, PoolQ(p), Parked(v)) && s'.pools == s.pools
      else
        && |s'.k.tasks| == |s.k.tasks| && s'.k == s.k.(tasks := s'.k.tasks) && s'.k.tasks[c].ptr.Index?
        && (forall t :: 0 <= t < |s.k.tasks| ==>
              s'.k.tasks[t] == if t == c then s.k.tasks[t].(ptr := s'.k.tasks[c].ptr) else s.k.tasks[t])
        && |s'.pools| == |s.pools| && s'.pools == s.pools[p := s'.pools[p]]
        && TakenSlot(s.pools[p], s'.pools[p], s'.k.tasks[c].ptr.slot, v)
  {
    assert OnePoolInv(s, p);
    ExhaustedIff(s, p);
    ParkParksFirstWith(s.k, PoolQ(p), Parked(v));
    if s.pools[p].pool.free != [] {
      assert s.pools[p].pool.free[0] in s.pools[p].pool.free;
      StoreTakes(s.pools[p], v);
    }
  }

  /** A dropped box's slot goes to the foremost waiter with that waiter's value inside, or is free. */
  ghost predicate Dropped(s: Sys, s': Sys, p: nat, x: nat)
    requires Started(s.k) && p < |s.pools| == |s'.pools|
  {
    var a, b, l := s.pools[p].pool, s'.pools[p].pool, PoolQ(p);
    && b.cap == a.cap && |b.nodes| == |a.nodes|
    && if Q(s.k, l) == [] then s'.k == s.k && b.nodes == a.nodes && b.free == [x] + a.free
       else b.free == a.free && exists r: nat :: Regranted(s.k, s'.k, l, r, a.nodes, b.nodes, x)
  }

  ghost predicate Regranted(k: Kern, k': Kern, l: ListId, r: nat, a: seq<Value>, b: seq<Value>, x: nat)
    requires Started(k)
  {
    && x < 256 && x < |a| == |b| && Foremost(k, l, r) && k.tasks[Q(k, l)[r]].ptr.Parked?
    && Handed(k, k', l, r, Index(x))
    && forall y :: 0 <= y < |a| ==> b[y] == if y == x then k.tasks[Q(k, l)[r]].ptr.val else a[y]
  }

  lemma DropIsDropped(s: Sys, s': Sys, p: nat, x: nat)
    requires KernelInv(s.k) && PcInv(s) && PoolInv(s) && BoxLive(s, p, x) && s' == DropStep(s, p, x)
    ensures |s'.pools| == |s.pools| && Dropped(s, s', p, x)
  {
    assert OnePoolInv(s, p) && HolderInv(s, p, x);
    TenantsOffer(s, p);
    var l := PoolQ(p);
    if Q(s.k, l) != [] {
      WakeHandsWith(s.k, l, Index(x));
      assert Regranted(s.k, s'.k, l, Best(s.k, l), s.pools[p].pool.nodes, s'.pools[p].pool.nodes, x);
    }
  }

  lemma DropOutcome(s: Sys, p: nat, x: nat)
    requires Inv(s) && Enabled(s, DropBox(p, x))
    ensures var s' := Step(s, DropBox(p, x));
      |s'.pools| == |s.pools| && s' == s.(k := s'.k, pools := s.pools[p := s'.pools[p]]) && Dropped(s, s', p, x)
  {
    DropIsDropped(s, Step(s, DropBox(p, x)), p, x);
  }

  /** `alloc_blocking` returns a live box for the slot it found, with the caller's value inside. */
  lemma AllocEndOutcome(s: Sys, p: nat, v: Value)
    requires Inv(s) && Enabled(s, Return) && s.pcs[s.k.cur] == InPool(p, v)
    ensures p < |s.pools| && s.k.tasks[s.k.cur].ptr.Index?
    ensures var s', x := Step(s, Return), s.k.tasks[s.k.cur].ptr.slot as nat;
      && s'.k == s.k && |s'.pools| == |s.pools| && s'.pools[p].pool == s.pools[p].pool
      && x < |s.pools[p].pool.nodes| && s.pools[p].pool.nodes[x] == v
      && x in s'.pools[p].holder && s'.pools[p].holder[x] == Boxed(v) && s'.pcs[s.k.cur] == Free
  {
    assert Released(s, s.k.cur) && TenantInv(s, s.k.cur);
    assert OnePoolInv(s, p) && HolderInv(s, p, s.k.tasks[s.k.cur].ptr.slot as nat);
  }

  /** A fresh pool has all its slots free, in order. */
  lemma FreshPool(n: nat, nodes: seq<Value>)
    ensures var p := P.New(n, nodes);
      p.cap == n && p.nodes == nodes && |p.free| == n && forall x :: 0 <= x < n ==> p.free[x] == x
  {
  }

  // ------------------------------------------------------------------ timers

  /** The new timer is due `delay` ticks from now, once. */
  lemma AfterOutcome(s: Sys, i: nat, delay: u64)
    requires Inv(s) && Enabled(s, TimerAfter(i, delay))
    ensures var s' := Step(s, TimerAfter(i, delay));
      && |s'.timers| == |s.timers| && s' == s.(timers := s.timers[i := s'.timers[i]])
      && s'.timers[i] == TimerLog(T.Timer((s.uptime + delay) % TWO_64, None), s.uptime, delay, [])
  {
  }

  /** The new timer is due `period` ticks from now, and then every `period` ticks. */
  lemma EveryOutcome(s: Sys, i: nat, period: u64)
    requires Inv(s) && Enabled(s, TimerEvery(i, period))
    ensures var s' := Step(s, TimerEvery(i, period));
      && |s'.timers| == |s.timers| && s' == s.(timers := s.timers[i := s'.timers[i]])
      && s'.timers[i] == TimerLog(T.Timer((s.uptime + period) % TWO_64, Some(period)), s.uptime, period, [])
  {
  }

  lemma TimerWaitOutcome(s: Sys, i: nat)
    requires Inv(s) && Enabled(s, TimerWait(i))
    ensures var s' := Step(s, TimerWait(i));
      Left(s.k, s'.k, Sleeping(s.timers[i].timer.next)) && s' == s.(k := s'.k, pcs := s'.pcs)
  {
  }

  /** A completed wait moves a periodic timer on by one period, and leaves a one-shot one. */
  lemma WaitEndOutcome(s: Sys, i: nat, until: u64)
    requires Inv(s) && Enabled(s, Return) && s.pcs[s.k.cur] == InTimer(i, until)
    ensures i < |s.timers|
    ensures var s', was := Step(s, Return), s.timers[i].timer;
      && s'.k == s.k && |s'.timers| == |s.timers| && s'.timers[i].timer.period == was.period
      && s'.timers[i].timer.next == if was.period.None? then was.next else (was.next + was.period.value) % TWO_64
  {
    assert SleeperInv(s, s.k.cur);
  }
}
