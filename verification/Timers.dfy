/** `Timer`: an absolute deadline, advanced by the period after each wait. */
module TimerModel {
  import opened Types

  datatype Timer = Timer(next: u64, period: Option<u64>)

  function After(now: u64, delay: u64): Timer {
    Timer(WrappingAdd(now, delay), None)
  }

  function Every(now: u64, period: u64): Timer {
    Timer(WrappingAdd(now, period), Some(period))
  }

  /** What `wait` does to the timer once the sleep is over. */
  function Advance(t: Timer): Timer {
    match t.period
    case None => t
    case Some(p) => t.(next := WrappingAdd(t.next, p))
  }
}

/** The timer object. */
module Timers {
  import opened Types
  import M = KernelModel
  import V = TimerModel
  import opened Scheduler

  class Timer {
    var next: u64
    var period: Option<u64>

    ghost function View(): V.Timer
      reads this
    {
      V.Timer(next, period)
    }

    /** `Timer::after`. */
    constructor After(k: Kernel, delay: u64)
      ensures View() == V.After(k.tick, delay)
    {
      next, period := WrappingAdd(k.tick, delay), None;
    }

    /** `Timer::every`. */
    constructor Every(k: Kernel, ticks: u64)
      ensures View() == V.Every(k.tick, ticks)
    {
      next, period := WrappingAdd(k.tick, ticks), Some(ticks);
    }

    /** `wait`, up to the context switch. */
    method WaitBegin(k: Kernel)
      requires k.Valid() && M.Started(k.st) && !k.st.tasks[k.st.cur].state.Blocked?
      modifies k`st, k`pendsv, k.current`state
      ensures k.Valid() && k.st == M.SleepUntil(old(k.st), next)
    {
      k.SleepUntil(next);
    }

    /** `wait`, after the caller was woken. */
    method WaitEnd()
      modifies this`next
      ensures View() == V.Advance(old(View()))
    {
      if period.Some? {
        next := WrappingAdd(next, period.value);
      }
    }
  }
}
