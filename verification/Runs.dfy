/** Every step keeps the whole invariant, so it holds in every state of every run. */
module Runs {
  import opened Types
  import opened KernelModel
  import opened KernelProofs
  import opened SystemModel
  import opened Frames
  import MutexSteps
  import SemaphoreSteps
  import OnceSteps
  import ChannelSteps
  import EventSteps
  import PoolSteps
  import ClockSteps
  import Returns
  import O = OnceModel
  import H = ChannelModel
  import P = PoolModel
  import T = TimerModel

  // ------------------------------------------------------------------ one step

  /** The steps that may change a priority. */
  predicate Inherits(s: Sys, op: Op)
    requires Started(s.k) && |s.pcs| == |s.k.tasks|
  {
    op.Lock? || op.Unlock? || op.CondWait? || (op.Return? && s.pcs[s.k.cur].Relock?)
  }

  /** No mutex changed its owner, and nobody joined or left a mutex's wait list. */
  ghost predicate LocksStay(s: Sys, s': Sys) {
    s'.mutexes == s.mutexes && forall m :: Q(s'.k, MutexQ(m)) == Q(s.k, MutexQ(m))
  }

  /** No priority changed, and if no preemption was missed none is. */
  ghost predicate Quiet(k: Kern, k': Kern) {
    && SamePriorities(k, k')
    && (NoMissedPreemption(k) ==> NoMissedPreemption(k'))
  }

  ghost predicate StepOk(s: Sys, op: Op, s': Sys) {
    && Inv(s) && Inv(s')
    && (!Inherits(s, op) ==> Quiet(s.k, s'.k))
    && (!op.Tick? && !op.PendSv? ==> Steady(s.k, s'.k))
    && (!Inherits(s, op) && !op.TryLock? ==> LocksStay(s, s'))
  }

  lemma SoundIsOk(s: Sys, op: Op, s': Sys, f: Family)
    requires Inv(s) && Sound(s, s', f)
    requires f == Mutexes && !op.TryLock? ==> LocksStay(s, s')
    ensures StepOk(s, op, s')
  {
    FrameAll(s, s', f);
  }

  lemma KeptIsOk(s: Sys, op: Op, s': Sys, f: Family)
    requires Inv(s) && Kept(s, s', f) && Inherits(s, op)
    ensures StepOk(s, op, s')
  {
    FrameAll(s, s', f);
  }

  lemma AllocStepOk(s: Sys, op: Op)
    requires Inv(s) && Enabled(s, op) && (op.Alloc? || op.AllocBlocking?)
    ensures StepOk(s, op, Step(s, op))
  {
    var s' := Step(s, op);
    match op {
      case Alloc(p, v) => PoolSteps.AllocSound(s, p, v);
      case AllocBlocking(p, v) => PoolSteps.AllocBlockingSound(s, p, v);
    }
    SoundIsOk(s, op, s', Pools);
  }

  lemma BoxStepOk(s: Sys, op: Op)
    requires Inv(s) && Enabled(s, op) && (op.Write? || op.DropBox?)
    ensures StepOk(s, op, Step(s, op))
  {
    var s' := Step(s, op);
    match op {
      case Write(p, x, v) => PoolSteps.WriteSound(s, p, x, v);
      case DropBox(p, x) => PoolSteps.DropSound(s, p, x);
    }
    SoundIsOk(s, op, s', Pools);
  }

  lemma SleepStepOk(s: Sys, op: Op)
    requires Inv(s) && Enabled(s, op)
    requires op.Sleep? || op.TimerWait?
    ensures StepOk(s, op, Step(s, op))
  {
    var s' := Step(s, op);
    match op {
      case Sleep(d) => ClockSteps.SleepSound(s, d);
      case TimerWait(i) => ClockSteps.TimerWaitSound(s, i);
    }
    SoundIsOk(s, op, s', Clock);
  }

  lemma TimerStepOk(s: Sys, op: Op)
    requires Inv(s) && Enabled(s, op)
    requires op.TimerAfter? || op.TimerEvery?
    ensures StepOk(s, op, Step(s, op))
  {
    var s' := Step(s, op);
    match op {
      case TimerAfter(i, d) => ClockSteps.TimerReplaced(s, s', i, s'.timers[i].timer, d);
      case TimerEvery(i, d) => ClockSteps.TimerReplaced(s, s', i, s'.timers[i].timer, d);
    }
    SoundIsOk(s, op, s', Clock);
  }

  lemma FlagStepOk(s: Sys, op: Op)
    requires Inv(s) && Enabled(s, op) && (op.SetFlags? || op.ClearFlags?)
    ensures StepOk(s, op, Step(s, op))
  {
    var s' := Step(s, op);
    match op {
      case SetFlags(e, mask) => EventSteps.SetSound(s, e, mask);
      case ClearFlags(e, mask) => EventSteps.ClearSound(s, e, mask);
    }
    SoundIsOk(s, op, s', Events);
  }

  lemma WatchStepOk(s: Sys, op: Op)
    requires Inv(s) && Enabled(s, op) && (op.WaitAny? || op.WaitAll?)
    ensures StepOk(s, op, Step(s, op))
  {
    var s' := Step(s, op);
    match op {
      case WaitAny(e, mask) => EventSteps.WaitAnySound(s, e, mask);
      case WaitAll(e, mask) => EventSteps.WaitAllSound(s, e, mask);
    }
    SoundIsOk(s, op, s', Events);
  }

  lemma SendStepOk(s: Sys, op: Op)
    requires Inv(s) && Enabled(s, op) && (op.Send? || op.TrySend?)
    ensures StepOk(s, op, Step(s, op))
  {
    var s' := Step(s, op);
    match op {
      case Send(h, v) => ChannelSteps.SendSound(s, h, v);
      case TrySend(h, v) => ChannelSteps.TrySendSound(s, h, v);
    }
    SoundIsOk(s, op, s', Channels);
  }

  lemma RecvStepOk(s: Sys, op: Op)
    requires Inv(s) && Enabled(s, op) && (op.Recv? || op.TryRecv?)
    ensures StepOk(s, op, Step(s, op))
  {
    var s' := Step(s, op);
    match op {
      case Recv(h) => ChannelSteps.RecvSound(s, h);
      case TryRecv(h) => ChannelSteps.TryRecvSound(s, h);
    }
    SoundIsOk(s, op, s', Channels);
  }

  lemma SemaphoreStepOk(s: Sys, op: Op)
    requires Inv(s) && Enabled(s, op)
    requires op.Take? || op.TryTake? || op.Give?
    ensures StepOk(s, op, Step(s, op))
  {
    var s' := Step(s, op);
    match op {
      case Take(i) => SemaphoreSteps.TakeSound(s, i);
      case TryTake(i) => SemaphoreSteps.TryTakeSound(s, i);
      case Give(i) => SemaphoreSteps.GiveSound(s, i);
    }
    SoundIsOk(s, op, s', Semaphores);
  }

  lemma OnceStepOk(s: Sys, op: Op)
    requires Inv(s) && Enabled(s, op)
    requires op.Begin? || op.Finish?
    ensures StepOk(s, op, Step(s, op))
  {
    var s' := Step(s, op);
    match op {
      case Begin(o) => OnceSteps.BeginSound(s, o);
      case Finish(o) => OnceSteps.FinishSound(s, o);
    }
    SoundIsOk(s, op, s', OnceCells);
  }

  lemma NotifyStepOk(s: Sys, op: Op)
    requires Inv(s) && Enabled(s, op)
    requires op.TryLock? || op.NotifyOne? || op.NotifyAll?
    ensures StepOk(s, op, Step(s, op))
  {
    var s' := Step(s, op);
    match op {
      case TryLock(m) => MutexSteps.TryLockSound(s, m);
      case NotifyOne(c) => MutexSteps.NotifyOneSound(s, c);
      case NotifyAll(c) => MutexSteps.NotifyAllSound(s, c);
    }
    SoundIsOk(s, op, s', Mutexes);
  }

  lemma MutexStepOk(s: Sys, op: Op)
    requires Inv(s) && Enabled(s, op)
    requires op.Lock? || op.Unlock? || op.CondWait?
    ensures StepOk(s, op, Step(s, op))
  {
    var s' := Step(s, op);
    match op {
      case Lock(m) => MutexSteps.LockSound(s, m);
      case Unlock(m) => MutexSteps.UnlockSound(s, m);
      case CondWait(c, m) => MutexSteps.CondWaitSound(s, c, m);
    }
    KeptIsOk(s, op, s', Mutexes);
  }

  lemma SchedulerStepOk(s: Sys, op: Op)
    requires Inv(s) && Enabled(s, op)
    requires op.LateTrigger? || op.Yield? || op.Exit?
    ensures StepOk(s, op, Step(s, op))
  {
    var s' := Step(s, op);
    match op {
      case LateTrigger => ClockSteps.LateTriggerSound(s);
      case Yield => ClockSteps.YieldSound(s);
      case Exit => ClockSteps.ExitSound(s);
    }
    SoundIsOk(s, op, s', Nothing);
  }

  lemma ExceptionOk(s: Sys, op: Op)
    requires Inv(s) && Enabled(s, op) && (op.Tick? || op.PendSv?)
    ensures StepOk(s, op, Step(s, op))
  {
    var s' := Step(s, op);
    match op {
      case Tick =>
        TickKeeps(s.k);
        ClockSteps.TickSound(s);
        FrameAll(s, s', Clock);
      case PendSv(sp) =>
        SwitchKeeps(s.k, sp);
        ClockSteps.PendSvSound(s, sp);
        FrameAll(s, s', Nothing);
    }
  }

  lemma WaitReturnOk(s: Sys)
    requires Inv(s) && Enabled(s, Return)
    requires var pc := s.pcs[s.k.cur]; pc.InLock? || pc.Relock? || pc.InSem? || pc.InOnce? || pc.InAny? || pc.InAll?
    ensures StepOk(s, Return, Step(s, Return))
  {
    var s' := Step(s, Return);
    match s.pcs[s.k.cur] {
      case InLock(m) =>
        Returns.LockReturns(s, s');
        SoundIsOk(s, Return, s', Mutexes);
      case Relock(m) =>
        assert LockerInv(s, s.k.cur);
        MutexSteps.LockSound(s, m);
        KeptIsOk(s, Return, s', Mutexes);
      case InSem(_) =>
        Returns.SemReturns(s, s');
        SoundIsOk(s, Return, s', Semaphores);
      case InOnce(_) =>
        Returns.OnceReturns(s, s');
        SoundIsOk(s, Return, s', OnceCells);
      case InAny(_, _) =>
        Returns.WatchReturns(s, s');
        SoundIsOk(s, Return, s', Events);
      case InAll(_, _) =>
        Returns.WatchReturns(s, s');
        SoundIsOk(s, Return, s', Events);
    }
  }

  lemma DataReturnOk(s: Sys)
    requires Inv(s) && Enabled(s, Return)
    requires var pc := s.pcs[s.k.cur]; pc.InSend? || pc.InRecv? || pc.InPool? || pc.InSleep? || pc.InTimer?
    ensures StepOk(s, Return, Step(s, Return))
  {
    var s', c := Step(s, Return), s.k.cur;
    assert Released(s, c);
    match s.pcs[c] {
      case InSend(_, _) =>
        Returns.SendReturns(s, s');
        SoundIsOk(s, Return, s', Channels);
      case InRecv(_) =>
        assert PeerInv(s, c);
        Returns.RecvReturns(s, s');
        SoundIsOk(s, Return, s', Channels);
      case InPool(_, _) =>
        assert TenantInv(s, c);
        Returns.AllocReturns(s, s', s.k.tasks[c].ptr.slot);
        SoundIsOk(s, Return, s', Pools);
      case InSleep(_) =>
        Returns.SleepReturns(s, s');
        SoundIsOk(s, Return, s', Clock);
      case InTimer(_, _) =>
        assert SleeperInv(s, c);
        Returns.TimerReturns(s, s');
        SoundIsOk(s, Return, s', Clock);
    }
  }

  /** Every step keeps the invariant; and all but those that lock or unlock a mutex leave the
      priorities alone and miss no preemption. */
  lemma StepKeeps(s: Sys, op: Op)
    requires Inv(s) && Enabled(s, op)
    ensures StepOk(s, op, Step(s, op))
  {
    if op.Return? {
      assert PcFits(s.pcs[s.k.cur], s.k.tasks[s.k.cur].state);
      var pc := s.pcs[s.k.cur];
      if pc.InSend? || pc.InRecv? || pc.InPool? || pc.InSleep? || pc.InTimer? {
        DataReturnOk(s);
      } else {
        WaitReturnOk(s);
      }
    } else if op.Tick? || op.PendSv? {
      ExceptionOk(s, op);
    } else if op.LateTrigger? || op.Yield? || op.Exit? {
      SchedulerStepOk(s, op);
    } else if op.Lock? || op.Unlock? || op.CondWait? {
      MutexStepOk(s, op);
    } else if op.TryLock? || op.NotifyOne? || op.NotifyAll? {
      NotifyStepOk(s, op);
    } else if op.Take? || op.TryTake? || op.Give? {
      SemaphoreStepOk(s, op);
    } else if op.Begin? || op.Finish? {
      OnceStepOk(s, op);
    } else if op.Sleep? || op.TimerWait? {
      SleepStepOk(s, op);
    } else if op.Send? || op.TrySend? {
      SendStepOk(s, op);
    } else if op.Recv? || op.TryRecv? {
      RecvStepOk(s, op);
    } else if op.SetFlags? || op.ClearFlags? {
      FlagStepOk(s, op);
    } else if op.WaitAny? || op.WaitAll? {
      WatchStepOk(s, op);
    } else if op.Alloc? || op.AllocBlocking? {
      AllocStepOk(s, op);
    } else if op.Write? || op.DropBox? {
      BoxStepOk(s, op);
    } else {
      TimerStepOk(s, op);
    }
  }

  // ------------------------------------------------------------------ runs

  /** The state in which `svc_first_task_sp` finds the kernel: every task as spawned, the idle task
      last at the lowest priority, and something else to run. */
  ghost predicate Spawned(k: Kern) {
    && k.cur == -1 && k.tick == 0 && !k.pendsv && k.lists == map[] && k.tasks != []
    && (forall t :: 0 <= t < |k.tasks| ==> k.tasks[t] == NewTask(k.tasks[t].sp, k.tasks[t].base, k.tasks[t].slice))
    && k.tasks[Idle(k)].base == 255
    && exists t :: 0 <= t < |k.tasks| && k.tasks[t].base < 255
  }

  /** The system right after the first task was launched: nobody is in a call and every object is as
      its constructor left it. */
  ghost predicate Boot(k0: Kern, s: Sys) {
    && Spawned(k0) && s.k == Launch(k0) && s.uptime == 0 && s.guards == {}
    && s.pcs == seq(|k0.tasks|, t => Free)
    && (forall m :: 0 <= m < |s.mutexes| ==> s.mutexes[m] == None)
    && (forall i :: 0 <= i < |s.sems| ==> NewSem(s.sems[i]))
    && (forall o :: 0 <= o < |s.onces| ==> s.onces[o] == OnceLog(O.Unstarted, None, 0))
    && (forall h :: 0 <= h < |s.chans| ==>
          s.chans[h] == ChanLog(H.Chan(s.chans[h].chan.cap, []), [], [], [], [], map[]))
    && (forall e :: 0 <= e < |s.events| ==> s.events[e] == {})
    && (forall p :: 0 <= p < |s.pools| ==> NewPool(s.pools[p]))
    && (forall i :: 0 <= i < |s.timers| ==> NewTimerLog(s.timers[i]))
  }

  predicate NewTimerLog(log: TimerLog) {
    log.step < TWO_64 && log == TimerLog(T.After(0, log.step), 0, log.step, [])
  }

  predicate NewSem(log: SemLog) {
    log == SemLog(log.sem, log.sem.count, 0, 0, 0) && log.sem.count <= log.sem.max
  }

  predicate NewPool(log: PoolLog) {
    && log.pool.cap <= 255 && |log.pool.nodes| == log.pool.cap
    && log == PoolLog(P.New(log.pool.cap, log.pool.nodes), map[])
  }

  /** The launch finds the task of highest priority. */
  lemma LaunchFinds(k0: Kern)
    requires Spawned(k0)
    ensures KernelInv(Launch(k0)) && NoMissedPreemption(Launch(k0)) && SamePriorities(k0, Launch(k0))
    ensures Launch(k0).lists == map[] && Launch(k0).tick == 0 && !Launch(k0).pendsv
    ensures forall t :: 0 <= t < |k0.tasks| ==> Runnable(Launch(k0).tasks[t])
  {
    var k := Launch(k0);
    FirstReadyIsFirst(k0, |k0.tasks|);
    var t :| 0 <= t < |k0.tasks| && k0.tasks[t].base < 255;
    assert k0.tasks[t].state.Ready?;
    forall l
      ensures ListOk(k, l)
    {
    }
  }

  lemma BootInv(k0: Kern, s: Sys)
    requires Boot(k0, s)
    ensures Inv(s) && NoMissedPreemption(s.k)
  {
    LaunchFinds(k0);
    assert PcInv(s);
    BootPools(s);
    forall i | 0 <= i < |s.timers|
      ensures OneTimerInv(s, i)
    {
      assert NewTimerLog(s.timers[i]) && Deadline(s.timers[i], 0) == s.timers[i].step;
    }
    assert MutexInv(s) && SemInv(s) && OnceInv(s) && EventInv(s) && TimeInv(s);
    assert ChanInv(s);
  }

  lemma BootPools(s: Sys)
    requires PcInv(s) && s.k.lists == map[]
    requires forall p :: 0 <= p < |s.pools| ==> NewPool(s.pools[p])
    requires forall t :: 0 <= t < |s.pcs| ==> s.pcs[t] == Free
    ensures PoolInv(s)
  {
    forall p | 0 <= p < |s.pools|
      ensures OnePoolInv(s, p)
    {
      assert NewPool(s.pools[p]);
      forall x | 0 <= x < s.pools[p].pool.cap
        ensures x in s.pools[p].pool.free
      {
        assert s.pools[p].pool.free[x] == x;
      }
    }
  }

  function Front(ops: seq<Op>): (r: seq<Op>)
    requires ops != []
    ensures |r| < |ops|
  {
    ops[..|ops| - 1]
  }

  function Last(ops: seq<Op>): Op
    requires ops != []
  {
    ops[|ops| - 1]
  }

  /** The steps of `ops` can be taken one after the other from `s`. */
  ghost predicate Legal(s: Sys, ops: seq<Op>)
    requires Inv(s)
    decreases |ops|, 1
  {
    Continues(s, ops)
  }

  /** The last step can be taken after the others. */
  ghost predicate Continues(s: Sys, ops: seq<Op>)
    requires Inv(s)
    decreases |ops|, 0
  {
    ops == [] || (Legal(s, Front(ops)) && Enabled(Run(s, Front(ops)), Last(ops)))
  }

  /** Where the steps lead: to a state where the whole invariant holds again. */
  ghost function Run(s: Sys, ops: seq<Op>): (r: Sys)
    requires Inv(s) && Legal(s, ops)
    ensures Inv(r)
    decreases |ops|, 3
  {
    Outcome(s, ops)
  }

  ghost function Outcome(s: Sys, ops: seq<Op>): (r: Sys)
    requires Inv(s) && Continues(s, ops)
    ensures Inv(r)
    decreases |ops|, 2
  {
    if ops == [] then s else
    var s1 := Run(s, Front(ops));
    StepKeeps(s1, Last(ops));
    Step(s1, Last(ops))
  }

  /** The last step of a run. */
  lemma Unroll(s: Sys, ops: seq<Op>)
    requires Inv(s) && Legal(s, ops) && ops != []
    ensures Legal(s, Front(ops)) && Enabled(Run(s, Front(ops)), Last(ops))
    ensures Run(s, ops) == Step(Run(s, Front(ops)), Last(ops))
  {
    assert Continues(s, ops);
    assert Run(s, ops) == Outcome(s, ops);
  }

  lemma RunEmpty(s: Sys)
    requires Inv(s)
    ensures Legal(s, []) && Run(s, []) == s
  {
    assert Continues(s, []);
    assert Run(s, []) == Outcome(s, []);
  }

  /** A run: the kernel before the launch, the system after it, and the steps taken. */
  datatype Trace = Trace(spawned: Kern, boot: Sys, ops: seq<Op>)

  /** The run leads to `s`. Tasks, objects, calls and their interleaving are arbitrary. */
  ghost predicate Reaches(tr: Trace, s: Sys) {
    && Boot(tr.spawned, tr.boot)
    && (BootInv(tr.spawned, tr.boot); Legal(tr.boot, tr.ops) && Run(tr.boot, tr.ops) == s)
  }

  /** The whole invariant holds wherever a run leads. */
  lemma Safety(tr: Trace, s: Sys)
    requires Reaches(tr, s)
    ensures Inv(s)
  {
    BootInv(tr.spawned, tr.boot);
    assert Inv(Run(tr.boot, tr.ops));
  }

  lemma Start(k0: Kern, s: Sys)
    requires Boot(k0, s)
    ensures Inv(s) && Reaches(Trace(k0, s, []), s)
  {
    BootInv(k0, s);
    RunEmpty(s);
  }

  lemma RunOn(s: Sys, ops: seq<Op>, op: Op)
    requires Inv(s) && Legal(s, ops) && Enabled(Run(s, ops), op)
    ensures Legal(s, ops + [op]) && Run(s, ops + [op]) == Step(Run(s, ops), op)
  {
    assert Front(ops + [op]) == ops;
    assert Continues(s, ops + [op]);
    assert Run(s, ops + [op]) == Outcome(s, ops + [op]);
  }

  /** A run can go on with any step that is enabled where it leads. */
  lemma Onward(tr: Trace, s: Sys, op: Op)
    requires Reaches(tr, s) && Inv(s) && Enabled(s, op)
    ensures Reaches(tr.(ops := tr.ops + [op]), Step(s, op))
  {
    BootInv(tr.spawned, tr.boot);
    RunOn(tr.boot, tr.ops, op);
  }
}
