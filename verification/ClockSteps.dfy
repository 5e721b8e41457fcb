/** Ticks, switches, sleeps and timers keep the invariants. */
module ClockSteps {
  import opened Types
  import opened KernelModel
  import opened KernelProofs
  import opened SystemModel
  import opened Frames
  import T = TimerModel

  /** The state classes of the tasks are as they were, up to who is Running. */
  lemma RunnersShuffle(s: Sys, s': Sys)
    requires KernelInv(s.k) && PcInv(s) && s'.pcs == s.pcs && |s'.k.tasks| == |s.k.tasks| && s'.k.lists == s.k.lists
    requires forall t :: 0 <= t < |s.pcs| ==>
      && Settled(s'.k.tasks[t].state) == Settled(s.k.tasks[t].state) && s'.k.tasks[t].ptr == s.k.tasks[t].ptr
    ensures Within(s, s', Nothing)
  {
    forall t | 0 <= t < |s.pcs|
      ensures PcFits(s'.pcs[t], s'.k.tasks[t].state) && SameTask(s, s', t)
    {
      assert PcFits(s.pcs[t], s.k.tasks[t].state);
    }
  }

  lemma WaitersStay(s: Sys, s': Sys)
    requires PcInv(s) && TimeInv(s) && s'.pcs == s.pcs
    ensures forall t, u :: 0 <= t < u < |s'.pcs| ==> OneWaiter(s', t, u)
  {
    forall t, u | 0 <= t < u < |s'.pcs|
      ensures OneWaiter(s', t, u)
    {
      assert OneWaiter(s, t, u);
    }
  }

  lemma PendSvSound(s: Sys, sp: int)
    requires Inv(s) && Enabled(s, PendSv(sp))
    ensures Local(s, Step(s, PendSv(sp)), Nothing) && KernelInv(Step(s, PendSv(sp)).k)
  {
    SwitchKeeps(s.k, sp);
    RunnersShuffle(s, Step(s, PendSv(sp)));
  }

  lemma LateTriggerSound(s: Sys)
    requires Inv(s)
    ensures Sound(s, Step(s, LateTrigger), Nothing)
  {
    TriggerIsCalm(s.k, true);
    RunnersShuffle(s, Step(s, LateTrigger));
  }

  lemma YieldSound(s: Sys)
    requires Inv(s) && Enabled(s, Op.Yield)
    ensures Sound(s, Step(s, Op.Yield), Nothing)
  {
    YieldIsCalm(s.k);
    RunnersShuffle(s, Step(s, Op.Yield));
  }

  lemma ExitSound(s: Sys)
    requires Inv(s) && Enabled(s, Op.Exit)
    ensures Sound(s, Step(s, Op.Exit), Nothing)
  {
    var s' := Step(s, Op.Exit);
    ExitIsCalm(s.k);
    forall t | 0 <= t < |s.pcs|
      ensures PcFits(s'.pcs[t], s'.k.tasks[t].state) && (t != s.k.cur ==> SameTask(s, s', t))
    {
      assert PcFits(s.pcs[t], s.k.tasks[t].state);
    }
  }

  /** The running task goes to sleep inside the call `pc`. */
  lemma RunnerSleeps(s: Sys, s': Sys, d: u64, pc: Pc)
    requires Inv(s) && Thread(s) && PcFits(pc, Sleeping(d)) && PcFamily(pc) == Clock
    requires s' == s.(k := SleepUntil(s.k, d), pcs := s.pcs[s.k.cur := pc])
    requires pc.InTimer? ==> TimerFree(s, pc.i) && d == s.timers[pc.i].timer.next
    ensures Sound(s, s', Clock)
  {
    SleepIsCalm(s.k, d);
    forall t | 0 <= t < |s.pcs|
      ensures PcFits(s'.pcs[t], s'.k.tasks[t].state) && (t != s.k.cur ==> SameTask(s, s', t))
    {
      assert PcFits(s.pcs[t], s.k.tasks[t].state);
    }
    forall t | 0 <= t < |s'.pcs|
      ensures SleeperInv(s', t)
    {
      assert SleeperInv(s, t);
    }
    forall t, u | 0 <= t < u < |s'.pcs|
      ensures OneWaiter(s', t, u)
    {
      assert OneWaiter(s, t, u);
    }
    forall i | 0 <= i < |s'.timers|
      ensures OneTimerInv(s', i)
    {
      assert OneTimerInv(s, i);
    }
  }

  lemma SleepSound(s: Sys, d: u64)
    requires Inv(s) && Enabled(s, Op.Sleep(d))
    ensures Sound(s, Step(s, Op.Sleep(d)), Clock)
  {
    RunnerSleeps(s, Step(s, Op.Sleep(d)), d, InSleep(d));
  }

  lemma TimerWaitSound(s: Sys, i: nat)
    requires Inv(s) && Enabled(s, TimerWait(i))
    ensures Sound(s, Step(s, TimerWait(i)), Clock)
  {
    var d := s.timers[i].timer.next;
    RunnerSleeps(s, Step(s, TimerWait(i)), d, InTimer(i, d));
  }

  /** A timer is created or re-created. */
  lemma TimerReplaced(s: Sys, s': Sys, i: nat, timer: T.Timer, step: u64)
    requires Inv(s) && Thread(s) && TimerFree(s, i)
    requires timer == T.After(s.k.tick, step) || timer == T.Every(s.k.tick, step)
    requires s' == s.(timers := s.timers[i := NewTimer(s, timer, step)])
    ensures Sound(s, s', Clock)
  {
    NoneTouched(s, s', Clock);
    assert (s.uptime % TWO_64 + step) % TWO_64 == (s.uptime + step) % TWO_64;
    forall t | 0 <= t < |s'.pcs|
      ensures SleeperInv(s', t)
    {
      assert SleeperInv(s, t);
    }
    WaitersStay(s, s');
    forall j | 0 <= j < |s'.timers|
      ensures OneTimerInv(s', j)
    {
      assert OneTimerInv(s, j);
      if j == i {
        var log := s'.timers[i];
        assert Deadline(log, 0) == log.start + log.step;
      }
    }
  }

  /** The tick counter is the uptime modulo its width, before and after a tick. */
  lemma TickIsUptime(s: Sys)
    requires s.k.tick == s.uptime % TWO_64
    ensures WrappingAdd(s.k.tick, 1) == (s.uptime + 1) % TWO_64
  {
  }

  /** A tick makes Ready a sleeper that is due, and changes no one else's class. */
  ghost predicate TickedTask(a: Task, b: Task, now: u64) {
    && b.ptr == a.ptr
    && (Settled(b.state) == Settled(a.state) || (a.state.Sleeping? && b.state.Ready? && now >= a.state.deadline))
  }

  lemma TickTouches(k: Kern)
    requires KernelInv(k)
    ensures var k' := SysTick(k);
      && |k'.tasks| == |k.tasks| && k'.lists == k.lists && k'.cur == k.cur && k'.tick == WrappingAdd(k.tick, 1)
      && forall t :: 0 <= t < |k.tasks| ==> TickedTask(k.tasks[t], k'.tasks[t], k'.tick)
  {
    WakeFromWakes(k.(tick := WrappingAdd(k.tick, 1)), 0);
  }

  lemma TickWithin(s: Sys)
    requires Inv(s)
    ensures Local(s, Step(s, Op.Tick), Clock)
  {
    var s' := Step(s, Op.Tick);
    TickTouches(s.k);
    forall t | 0 <= t < |s.pcs|
      ensures PcFits(s'.pcs[t], s'.k.tasks[t].state) && (SameTask(s, s', t) || PcFamily(s.pcs[t]) == Clock)
    {
      assert PcFits(s.pcs[t], s.k.tasks[t].state);
      assert TickedTask(s.k.tasks[t], s'.k.tasks[t], s'.k.tick);
    }
  }

  lemma OnTimeStays(log: TimerLog, now: nat, later: nat)
    requires now <= later && forall n :: 0 <= n < |log.ended| ==> OnTime(log, n, now)
    ensures forall n :: 0 <= n < |log.ended| ==> OnTime(log, n, later)
  {
    forall n | 0 <= n < |log.ended|
      ensures OnTime(log, n, later)
    {
      assert OnTime(log, n, now);
    }
  }

  /** A tick moves the uptime on by one, and wakes nobody early. */
  lemma TickTimes(s: Sys, s': Sys)
    requires PcInv(s) && PcInv(s') && TimeInv(s) && s'.pcs == s.pcs && s'.timers == s.timers
    requires s'.uptime == s.uptime + 1 && s'.k.tick == WrappingAdd(s.k.tick, 1)
    requires forall t :: 0 <= t < |s.k.tasks| ==> TickedTask(s.k.tasks[t], s'.k.tasks[t], s'.k.tick)
    ensures TimeInv(s')
  {
    TickIsUptime(s);
    forall t | 0 <= t < |s'.pcs|
      ensures SleeperInv(s', t)
    {
      assert SleeperInv(s, t) && PcFits(s.pcs[t], s.k.tasks[t].state);
      assert TickedTask(s.k.tasks[t], s'.k.tasks[t], s'.k.tick);
    }
    WaitersStay(s, s');
    forall j | 0 <= j < |s'.timers|
      ensures OneTimerInv(s', j)
    {
      assert OneTimerInv(s, j);
      OnTimeStays(s.timers[j], s.uptime, s.uptime + 1);
    }
  }

  lemma TickSound(s: Sys)
    requires Inv(s)
    ensures Local(s, Step(s, Op.Tick), Clock) && KernelInv(Step(s, Op.Tick).k) && TimeInv(Step(s, Op.Tick))
  {
    TickKeeps(s.k);
    TickTouches(s.k);
    TickWithin(s);
    TickTimes(s, Step(s, Op.Tick));
  }
}
