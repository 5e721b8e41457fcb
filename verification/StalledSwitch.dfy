/** Why bounded waiting has to count the ticks that come while a switch is due: runs in which PendSV
    never gets its turn. */
module StalledSwitch {
  import opened Types
  import opened KernelModel
  import opened SystemModel
  import opened Runs
  import opened Scripts
  import opened PriorityTheorems
  import opened RoundRobin
  import opened Fairness

  /** Two tasks of the same priority, and the idle task. */
  function Pair(): Kern {
    Kern([NewTask(0, 1, 1), NewTask(0, 1, 1), NewTask(0, 255, 1)], -1, 0, false, map[])
  }

  /** The second task runs, and `n` ticks have passed; is a switch due? */
  function After(n: nat, due: bool): Sys {
    var tasks := [Task(0, Ready(1), 1, 1, 1, NoPtr), Task(0, Running(1), 1, 1, 1, NoPtr),
                  Task(0, Ready(1), 255, 255, 1, NoPtr)];
    Sys(Kern(tasks, 1, n % TWO_64, due, map[]), [Free, Free, Free], n, [], {}, 0, [], [], [], [], [], [])
  }

  function StalledAt(i: nat): Sys {
    if i == 0 then After(0, false) else After(i - 1, true)
  }

  /** A switch is requested, and then ticks come. */
  function Stalled(): Script {
    Script(Pair(), StalledAt, i => if i == 0 then LateTrigger else Tick)
  }

  lemma BootsPair()
    ensures Boot(Pair(), After(0, false))
  {
    var k0 := Pair();
    assert FirstReady(k0, 1) == None;
    assert FirstReady(k0, 2) == Some(1);
    assert FirstReady(k0, 3) == Some(1);
    assert k0.tasks[0].base < 255;
  }

  lemma NobodyWakes(k: Kern)
    requires |k.tasks| == 3 && forall t :: 0 <= t < 3 ==> !k.tasks[t].state.Sleeping?
    ensures WakeSleepers(k) == k
  {
    WakeFromWakes(k, 0);
    assert WakeSleepers(k).tasks == k.tasks;
  }

  /** The tick recharges the quantum of the running task, and nobody is woken. */
  lemma TickRecharges(n: nat)
    ensures SysTick(After(n, true).k) == After(n + 1, true).k
  {
    var k := After(n, true).k.(tick := (n + 1) % TWO_64);
    NobodyWakes(k);
    assert forall t :: 0 <= t < |k.tasks| ==> !Outranker(k, t);
    assert SetState(k, 1, Running(1)).tasks == k.tasks;
  }

  lemma PairIsTop(n: nat, due: bool)
    ensures TopTier(After(n, due).k, {0, 1}, 1)
  {
  }

  lemma TriggerLeads(s: Sys, s': Sys)
    requires Inv(s) && s.(k := Pend(s.k, true)) == s'
    ensures Leads(s, LateTrigger, s')
  {
  }

  lemma StalledTickLeads(n: nat)
    requires Inv(After(n, true))
    ensures Leads(After(n, true), Tick, After(n + 1, true))
  {
    TickRecharges(n);
    TickLeads(After(n, true), After(n + 1, true));
  }

  lemma FirstLeads()
    requires Inv(After(0, false))
    ensures Leads(After(0, false), LateTrigger, After(0, true))
  {
    TriggerLeads(After(0, false), After(0, true));
  }

  lemma StalledLeads(i: nat)
    requires Inv(StalledAt(i))
    ensures Leads(StalledAt(i), if i == 0 then LateTrigger else Tick, StalledAt(i + 1))
  {
    if i == 0 {
      FirstLeads();
    } else {
      StalledTickLeads(i - 1);
    }
  }

  lemma StalledIsCoherent(n: nat)
    ensures Coherent(Stalled(), n)
  {
    BootsPair();
    forall i | 0 <= i < n && Inv(Stalled().at(i))
      ensures Leads(Stalled().at(i), Stalled().step(i), Stalled().at(i + 1))
    {
      StalledLeads(i);
    }
  }

  /** Nothing but ticks and requests for a switch, and the tier and the selection stay. */
  ghost predicate Still(c: Script, n: nat) {
    && (forall i: nat :: i <= n ==> TopTier(c.at(i).k, {0, 1}, 1) && c.at(i).k.cur != 0)
    && forall i: nat :: i < n ==> c.step(i).Tick? || c.step(i).LateTrigger?
  }

  lemma DisciplinedOn(s: Sys, ops: seq<Op>)
    requires Inv(s) && Legal(s, ops) && ops != [] && (Last(ops).Tick? || Last(ops).LateTrigger?)
    requires Legal(s, Front(ops)) && DisciplinedRun(s, Front(ops))
    ensures DisciplinedRun(s, ops)
  {
  }

  lemma {:induction false} StillIsDisciplined(c: Script, n: nat)
    requires Inv(c.at(0)) && Plays(c, n) && Still(c, n)
    ensures Legal(c.at(0), Play(c, n)) && DisciplinedRun(c.at(0), Play(c, n))
  {
    assert PlaysTo(c, n);
    if n > 0 {
      StillIsDisciplined(c, n - 1);
      DisciplinedOn(c.at(0), Play(c, n));
    }
  }

  lemma {:induction false} StillIsFixed(c: Script, n: nat)
    requires Inv(c.at(0)) && Plays(c, n) && Still(c, n)
    ensures Legal(c.at(0), Play(c, n)) && Fixed(c.at(0), Play(c, n), {0, 1}, 1)
  {
    assert PlaysTo(c, n);
    if n > 0 {
      StillIsFixed(c, n - 1);
    }
  }

  lemma NeverSelectedOn(s: Sys, ops: seq<Op>)
    requires Inv(s) && Legal(s, ops) && ops != [] && Run(s, ops).k.cur != 0
    requires Legal(s, Front(ops)) && NeverSelected(s, Front(ops), 0)
    ensures NeverSelected(s, ops, 0)
  {
  }

  lemma {:induction false} StillSelectsNobody(c: Script, n: nat)
    requires Inv(c.at(0)) && Plays(c, n) && Still(c, n)
    ensures Legal(c.at(0), Play(c, n)) && NeverSelected(c.at(0), Play(c, n), 0)
  {
    assert PlaysTo(c, n);
    if n > 0 {
      StillSelectsNobody(c, n - 1);
      NeverSelectedOn(c.at(0), Play(c, n));
    }
  }

  lemma {:induction false} StalledTicks(n: nat)
    ensures TickCount(Play(Stalled(), n)) == if n == 0 then 0 else n - 1
  {
    if n > 0 {
      StalledTicks(n - 1);
    }
  }

  lemma StalledIsStill(n: nat)
    ensures Still(Stalled(), n)
  {
    forall i: nat | i <= n
      ensures TopTier(Stalled().at(i).k, {0, 1}, 1)
    {
      PairIsTop(if i == 0 then 0 else i - 1, i > 0);
    }
  }

  /** A run is as its script says. */
  lemma StillRuns(c: Script, n: nat)
    requires Coherent(c, n) && Still(c, n)
    ensures var s, ops := c.at(0), Play(c, n);
      && Inv(s) && Legal(s, ops) && DisciplinedRun(s, ops)
      && Fixed(s, ops, {0, 1}, 1) && NeverSelected(s, ops, 0)
  {
    PlaysAlong(c, n);
    StillIsDisciplined(c, n);
    StillIsFixed(c, n);
    StillSelectsNobody(c, n);
  }

  lemma PairSlices(n: nat)
    ensures Slices(After(n, false).k, {0, 1}, 0, 3) == 1
  {
    assert Slices(After(n, false).k, {0, 1}, 0, 1) == 0;
  }

  /** While a switch is due and PendSV does not come, no number of ticks gets the other task of the
      tier selected: the run is disciplined, the tier fixed, and the time slice of the other is one. */
  lemma LateTicksAreUnbounded(n: nat)
    ensures var s, ops := Stalled().at(0), Play(Stalled(), n + 1);
      && Boot(Pair(), s) && Inv(s) && Legal(s, ops) && DisciplinedRun(s, ops)
      && Fixed(s, ops, {0, 1}, 1) && NeverSelected(s, ops, 0)
      && TickCount(ops) == n && Slices(s.k, {0, 1}, 0, 3) == 1
  {
    StalledIsCoherent(n + 1);
    StalledIsStill(n + 1);
    StillRuns(Stalled(), n + 1);
    StalledTicks(n + 1);
    PairSlices(0);
  }
}
