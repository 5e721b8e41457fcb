/** A blocking call that was satisfied returns. */
module Returns {
  import opened Types
  import opened KernelModel
  import opened KernelProofs
  import opened SystemModel
  import opened Frames
  import T = TimerModel

  /** The running task has a call to finish. */
  ghost predicate Back(s: Sys) {
    && Started(s.k) && |s.pcs| == |s.k.tasks| && !s.k.pendsv && s.pcs[s.k.cur] != Free
  }

  /** Only the running task's place in its call changed. */
  lemma PcFreed(s: Sys, s': Sys, f: Family)
    requires KernelInv(s.k) && PcInv(s) && Back(s) && PcFamily(s.pcs[s.k.cur]) == f
    requires s'.k == s.k && s'.pcs == s.pcs[s.k.cur := Free]
    ensures Within(s, s', f) && Calm(s.k, s'.k) && Released(s, s.k.cur)
    ensures forall t :: 0 <= t < |s.pcs| && t != s.k.cur ==> SameTask(s, s', t)
  {
    CalmSelf(s.k);
    forall t | 0 <= t < |s'.pcs|
      ensures PcFits(s'.pcs[t], s'.k.tasks[t].state)
    {
      assert PcFits(s.pcs[t], s.k.tasks[t].state);
    }
  }

  lemma LockReturns(s: Sys, s': Sys)
    requires KernelInv(s.k) && PcInv(s) && MutexInv(s) && Back(s) && s.pcs[s.k.cur].InLock?
    requires s' == s.(pcs := s.pcs[s.k.cur := Free], guards := s.guards + {(s.k.cur, s.pcs[s.k.cur].m)})
    ensures Sound(s, s', Mutexes)
  {
    PcFreed(s, s', Mutexes);
    assert LockerInv(s, s.k.cur);
    forall m | 0 <= m < |s'.mutexes|
      ensures OwnerInv(s', m)
    {
      assert OwnerInv(s, m);
    }
    forall t | 0 <= t < |s'.pcs|
      ensures LockerInv(s', t)
    {
      assert LockerInv(s, t);
    }
    forall t: nat, m: nat
      ensures GuardInv(s', t, m)
    {
      assert GuardInv(s, t, m);
    }
  }

  lemma SemReturns(s: Sys, s': Sys)
    requires KernelInv(s.k) && PcInv(s) && SemInv(s) && Back(s) && s.pcs[s.k.cur].InSem?
    requires s' == s.(pcs := s.pcs[s.k.cur := Free])
    ensures Sound(s, s', Semaphores)
  {
    PcFreed(s, s', Semaphores);
    forall i | 0 <= i < |s'.sems|
      ensures OneSemInv(s', i)
    {
      assert OneSemInv(s, i);
    }
    forall t | 0 <= t < |s'.pcs|
      ensures TakerInv(s', t)
    {
      assert TakerInv(s, t);
    }
  }

  lemma OnceReturns(s: Sys, s': Sys)
    requires KernelInv(s.k) && PcInv(s) && OnceInv(s) && Back(s) && s.pcs[s.k.cur].InOnce?
    requires s' == s.(pcs := s.pcs[s.k.cur := Free])
    ensures Sound(s, s', OnceCells)
  {
    PcFreed(s, s', OnceCells);
    forall i | 0 <= i < |s'.onces|
      ensures OneOnceInv(s', i)
    {
      assert OneOnceInv(s, i);
    }
    forall t | 0 <= t < |s'.pcs|
      ensures CallerInv(s', t)
    {
      assert CallerInv(s, t);
    }
  }

  lemma SendReturns(s: Sys, s': Sys)
    requires KernelInv(s.k) && PcInv(s) && ChanInv(s) && Back(s) && s.pcs[s.k.cur].InSend?
    requires s' == s.(pcs := s.pcs[s.k.cur := Free])
    ensures Sound(s, s', Channels)
  {
    PcFreed(s, s', Channels);
    forall h | 0 <= h < |s'.chans|
      ensures OneChanInv(s', h)
    {
      assert OneChanInv(s, h);
    }
    forall t | 0 <= t < |s'.pcs|
      ensures PeerInv(s', t)
    {
      assert PeerInv(s, t);
    }
  }

  lemma RecvReturns(s: Sys, s': Sys)
    requires KernelInv(s.k) && PcInv(s) && ChanInv(s) && Back(s) && s.pcs[s.k.cur].InRecv?
    requires var h := s.pcs[s.k.cur].h;
      && h < |s.chans|
      && s' == s.(pcs := s.pcs[s.k.cur := Free],
                  chans := s.chans[h := s.chans[h].(inbox := s.chans[h].inbox - {s.k.cur})])
    ensures Sound(s, s', Channels)
  {
    PcFreed(s, s', Channels);
    forall h | 0 <= h < |s'.chans|
      ensures OneChanInv(s', h)
    {
      assert OneChanInv(s, h);
    }
    forall t | 0 <= t < |s'.pcs|
      ensures PeerInv(s', t)
    {
      assert PeerInv(s, t);
    }
  }

  lemma WatchReturns(s: Sys, s': Sys)
    requires KernelInv(s.k) && PcInv(s) && EventInv(s) && Back(s) && (s.pcs[s.k.cur].InAny? || s.pcs[s.k.cur].InAll?)
    requires s' == s.(pcs := s.pcs[s.k.cur := Free])
    ensures Sound(s, s', Events)
  {
    PcFreed(s, s', Events);
    forall t | 0 <= t < |s'.pcs|
      ensures WatcherInv(s', t)
    {
      assert WatcherInv(s, t);
    }
  }

  /** The tenant becomes the owner of a `PoolBox`. */
  lemma AllocReturns(s: Sys, s': Sys, x: nat)
    requires KernelInv(s.k) && PcInv(s) && PoolInv(s) && Back(s) && s.pcs[s.k.cur].InPool?
    requires s.k.tasks[s.k.cur].ptr.Index? && x == s.k.tasks[s.k.cur].ptr.slot
    requires var InPool(p, v) := s.pcs[s.k.cur];
      && p < |s.pools|
      && s' == s.(pcs := s.pcs[s.k.cur := Free],
                  pools := s.pools[p := s.pools[p].(holder := s.pools[p].holder[x := Boxed(v)])])
    ensures Sound(s, s', Pools)
  {
    PcFreed(s, s', Pools);
    assert TenantInv(s, s.k.cur);
    forall p | 0 <= p < |s'.pools|
      ensures OnePoolInv(s', p)
    {
      assert OnePoolInv(s, p);
      forall y | y in s'.pools[p].holder
        ensures HolderInv(s', p, y)
      {
        assert HolderInv(s, p, y);
      }
    }
    forall t | 0 <= t < |s'.pcs|
      ensures TenantInv(s', t)
    {
      assert TenantInv(s, t);
    }
  }

  lemma SleepReturns(s: Sys, s': Sys)
    requires KernelInv(s.k) && PcInv(s) && TimeInv(s) && Back(s) && s.pcs[s.k.cur].InSleep?
    requires s' == s.(pcs := s.pcs[s.k.cur := Free])
    ensures Sound(s, s', Clock)
  {
    PcFreed(s, s', Clock);
    forall t | 0 <= t < |s'.pcs|
      ensures SleeperInv(s', t)
    {
      assert SleeperInv(s, t);
    }
    forall t, u | 0 <= t < u < |s'.pcs|
      ensures OneWaiter(s', t, u)
    {
      assert OneWaiter(s, t, u);
    }
    forall i | 0 <= i < |s'.timers|
      ensures OneTimerInv(s', i)
    {
      assert OneTimerInv(s, i);
    }
  }

  /** The deadlines depend on how the timer was created only. */
  lemma DeadlineStays(log: TimerLog, log': TimerLog, n: nat)
    requires log'.start == log.start && log'.step == log.step && log'.timer.period.None? == log.timer.period.None?
    ensures Deadline(log', n) == Deadline(log, n)
    ensures Deadline(log, n + 1) == Deadline(log, n) + if log.timer.period.None? then 0 else log.step
  {
  }

  lemma AddModulo(a: nat, b: nat)
    ensures (a % TWO_64 + b) % TWO_64 == (a + b) % TWO_64
  {
  }

  /** One more wait on the timer is over, not before its deadline, and the next one is a period later. */
  lemma TimerAdvances(log: TimerLog, log': TimerLog, now: nat)
    requires log.timer.period.Some? ==> log.timer.period.value == log.step
    requires log.timer.next == Deadline(log, |log.ended|) % TWO_64
    requires forall j :: 0 <= j < |log.ended| ==> OnTime(log, j, now)
    requires now < TWO_64 ==> log.timer.next <= now
    requires log' == log.(timer := T.Advance(log.timer), ended := log.ended + [now])
    ensures log'.timer.next == Deadline(log', |log'.ended|) % TWO_64
    ensures forall j :: 0 <= j < |log'.ended| ==> OnTime(log', j, now)
  {
    var n := |log.ended|;
    DeadlineStays(log, log', n);
    DeadlineStays(log, log', n + 1);
    AddModulo(Deadline(log, n), log.step);
    forall j | 0 <= j < |log'.ended|
      ensures OnTime(log', j, now)
    {
      DeadlineStays(log, log', j);
      if j < n {
        assert OnTime(log, j, now);
      } else {
        LateEnough(Deadline(log, n), now);
      }
    }
  }

  lemma LateEnough(d: nat, now: nat)
    requires now < TWO_64 ==> d % TWO_64 <= now
    ensures now < TWO_64 && d < TWO_64 ==> d <= now
  {
  }

  lemma TimerReturns(s: Sys, s': Sys)
    requires KernelInv(s.k) && PcInv(s) && TimeInv(s) && Back(s) && s.pcs[s.k.cur].InTimer?
    requires var i := s.pcs[s.k.cur].i;
      && i < |s.timers|
      && s' == s.(pcs := s.pcs[s.k.cur := Free],
                  timers := s.timers[i := s.timers[i].(timer := T.Advance(s.timers[i].timer),
                                                       ended := s.timers[i].ended + [s.uptime])])
    ensures Sound(s, s', Clock)
  {
    var c, i := s.k.cur, s.pcs[s.k.cur].i;
    PcFreed(s, s', Clock);
    assert SleeperInv(s, c) && OneTimerInv(s, i);
    TimerAdvances(s.timers[i], s'.timers[i], s.uptime);
    forall t | 0 <= t < |s'.pcs|
      ensures SleeperInv(s', t)
    {
      assert SleeperInv(s, t);
      assert t < c ==> OneWaiter(s, t, c);
      assert c < t ==> OneWaiter(s, c, t);
    }
    forall t, u | 0 <= t < u < |s'.pcs|
      ensures OneWaiter(s', t, u)
    {
      assert OneWaiter(s, t, u);
    }
    forall j | 0 <= j < |s'.timers|
      ensures OneTimerInv(s', j)
    {
      assert OneTimerInv(s, j);
    }
  }
}
