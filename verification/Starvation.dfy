/** A wait list serves the latest of equal priority first, so one task can be passed over for ever:
    runs in which another of the same priority takes every token. */
module Starvation {
  import opened Types
  import opened KernelModel
  import opened KernelProofs
  import opened SystemModel
  import opened Runs
  import opened Scripts
  import S = SemaphoreModel

  const GREEDY: nat := 0
  const HUNGRY: nat := 1

  /** Two tasks of the same priority and the idle task, with one semaphore that has no token left. */
  function Snapshot(greedy: (Phase, Pc), hungry: (Phase, Pc), idle: Phase, cur: int, pendsv: bool, q: seq<nat>,
                    given: nat): Sys
  {
    var tasks := [Task(0, greedy.0, 1, 1, 1, NoPtr), Task(0, hungry.0, 1, 1, 1, NoPtr),
                  Task(0, idle, 255, 255, 1, NoPtr)];
    Sys(Kern(tasks, cur, 0, pendsv, if q == [] then map[] else map[SemQ(0) := q]), [greedy.1, hungry.1, Free],
        0, [], {}, 0, [SemLog(S.Sem(0, 1), 0, given, given, 0)], [], [], [], [], [])
  }

  /** The round in which the greedy task is given a token and comes back for another; `given` counts
      the tokens so far. */
  function Round(phase: nat, given: nat): Sys {
    var wait, r, run := Blocked(SemQ(0)), Ready(1), Running(1);
    var parked := (wait, InSem(0));
    match phase
    case 0 => Snapshot((run, Free), parked, r, GREEDY, false, [HUNGRY], given)
    case 1 => Snapshot(parked, parked, r, GREEDY, true, [GREEDY, HUNGRY], given)
    case 2 => Snapshot(parked, parked, run, 2, false, [GREEDY, HUNGRY], given)
    case 3 => Snapshot((r, InSem(0)), parked, run, 2, true, [HUNGRY], given + 1)
    case _ => Snapshot((run, InSem(0)), parked, r, GREEDY, false, [HUNGRY], given + 1)
  }

  /** Before step `i`: the hungry task parks first. */
  function At(i: nat): Sys {
    var r := (Ready(1), Free);
    if i == 0 then Snapshot(r, (Running(1), Free), Ready(1), HUNGRY, false, [], 0)
    else if i == 1 then Snapshot(r, (Blocked(SemQ(0)), InSem(0)), Ready(1), HUNGRY, true, [HUNGRY], 0)
    else Round((i - 2) % 5, (i - 2) / 5)
  }

  function RoundStep(phase: nat): Op {
    match phase
    case 0 => Take(0)
    case 2 => Give(0)
    case 4 => Return
    case _ => PendSv(0)
  }

  function StepAt(i: nat): Op {
    if i == 0 then Take(0) else if i == 1 then PendSv(0) else RoundStep((i - 2) % 5)
  }

  function Feast(): Script {
    Script(Beginning(), At, StepAt)
  }

  function Beginning(): Kern {
    Kern([NewTask(0, 1, 1), NewTask(0, 1, 1), NewTask(0, 255, 1)], -1, 0, false, map[])
  }

  lemma BootsAt0()
    ensures Boot(Beginning(), At(0))
  {
    var k0 := Beginning();
    assert FirstReady(k0, 1) == None;
    assert FirstReady(k0, 2) == Some(HUNGRY);
    assert FirstReady(k0, 3) == Some(HUNGRY);
    assert k0.tasks[GREEDY].base < 255;
  }

  /** Whoever runs finds no token and parks in front of the others. */
  lemma ParkLeads(s: Sys, s': Sys)
    requires Inv(s) && Enabled(s, Take(0)) && s.sems[0].sem.count == 0
    requires s' == s.(k := Park(s.k, SemQ(0)), pcs := s.pcs[s.k.cur := InSem(0)])
    ensures Leads(s, Take(0), s')
  {
    var log := s.sems[0];
    assert log.(sem := log.sem, granted := log.granted + 0) == log && s.sems[0 := log] == s.sems;
  }

  lemma FirstParks()
    requires Inv(At(0))
    ensures Leads(At(0), Take(0), At(1))
  {
    var s, s' := At(0), At(1);
    assert [s.k.cur] + Q(s.k, SemQ(0)) == [HUNGRY];
    assert Park(s.k, SemQ(0)).tasks == s'.k.tasks && s.pcs[HUNGRY := InSem(0)] == s'.pcs;
    ParkLeads(s, s');
  }

  lemma GreedyParks(g: nat)
    requires Inv(Round(0, g))
    ensures Leads(Round(0, g), Take(0), Round(1, g))
  {
    var s, s' := Round(0, g), Round(1, g);
    assert [s.k.cur] + Q(s.k, SemQ(0)) == [GREEDY, HUNGRY];
    assert Park(s.k, SemQ(0)).tasks == s'.k.tasks && s.pcs[GREEDY := InSem(0)] == s'.pcs;
    ParkLeads(s, s');
  }

  /** PendSV chooses `next`. */
  lemma Chooses(k: Kern, k': Kern, next: nat)
    requires KernelInv(k) && IsNext(Retire(k.(pendsv := false), 0), next)
    requires k' == Dispatch(Retire(k.(pendsv := false), 0), next)
    ensures Switch(k, 0) == k'
  {
    NextUnique(Retire(k.(pendsv := false), 0), next);
  }

  lemma FirstSwitch()
    requires Inv(At(1))
    ensures Leads(At(1), PendSv(0), Round(0, 0))
  {
    var s, s' := At(1), Round(0, 0);
    assert IsNext(Retire(s.k.(pendsv := false), 0), GREEDY);
    Chooses(s.k, s'.k, GREEDY);
    SwitchLeads(s, 0, s');
  }

  lemma ToIdle(g: nat)
    requires Inv(Round(1, g))
    ensures Leads(Round(1, g), PendSv(0), Round(2, g))
  {
    var s, s' := Round(1, g), Round(2, g);
    assert IsNext(Retire(s.k.(pendsv := false), 0), 2);
    Chooses(s.k, s'.k, 2);
    SwitchLeads(s, 0, s');
  }

  lemma ToGreedy(g: nat)
    requires Inv(Round(3, g))
    ensures Leads(Round(3, g), PendSv(0), Round(4, g))
  {
    var s, s' := Round(3, g), Round(4, g);
    assert IsNext(Retire(s.k.(pendsv := false), 0), GREEDY);
    Chooses(s.k, s'.k, GREEDY);
    SwitchLeads(s, 0, s');
  }

  /** The token goes to the one in front. */
  lemma GreedyIsBest(g: nat)
    ensures var k := Round(2, g).k; ListOk(k, SemQ(0)) && Q(k, SemQ(0)) != []
    ensures WakeBest(Round(2, g).k, SemQ(0)) == Round(3, g).k
  {
    var k, k', l := Round(2, g).k, Round(3, g).k, SemQ(0);
    assert Q(k, l) == [GREEDY, HUNGRY];
    assert Best(k, l) == 0;
    assert WakeBest(k, l).tasks == k'.tasks;
    assert Q(WakeBest(k, l), l) == [HUNGRY] && WakeBest(k, l).lists == k'.lists;
  }

  lemma GreedyIsServed(g: nat)
    requires Inv(Round(2, g))
    ensures Leads(Round(2, g), Give(0), Round(3, g))
  {
    var s, s' := Round(2, g), Round(3, g);
    GreedyIsBest(g);
    assert s.sems[0 := s'.sems[0]] == s'.sems;
  }

  lemma GreedyReturns(g: nat)
    requires Inv(Round(4, g))
    ensures Leads(Round(4, g), Return, Round(0, g + 1))
  {
    assert Round(4, g).pcs[GREEDY := Free] == Round(0, g + 1).pcs;
  }

  lemma RoundLeads(phase: nat, g: nat)
    requires phase < 5 && Inv(Round(phase, g))
    ensures Leads(Round(phase, g), RoundStep(phase), if phase < 4 then Round(phase + 1, g) else Round(0, g + 1))
  {
    if phase == 0 {
      GreedyParks(g);
    } else if phase == 1 {
      ToIdle(g);
    } else if phase == 2 {
      GreedyIsServed(g);
    } else if phase == 3 {
      ToGreedy(g);
    } else {
      GreedyReturns(g);
    }
  }

  lemma AfterRound(i: nat)
    requires i >= 2
    ensures var phase, g := (i - 2) % 5, (i - 2) / 5;
      At(i + 1) == if phase < 4 then Round(phase + 1, g) else Round(0, g + 1)
  {
  }

  lemma AtLeads(i: nat)
    requires Inv(At(i))
    ensures Leads(At(i), StepAt(i), At(i + 1))
  {
    if i == 0 {
      FirstParks();
    } else if i == 1 {
      FirstSwitch();
    } else {
      AfterRound(i);
      RoundLeads((i - 2) % 5, (i - 2) / 5);
    }
  }

  lemma FeastIsCoherent(n: nat)
    ensures Coherent(Feast(), n)
  {
    BootsAt0();
    forall i | 0 <= i < n && Inv(At(i))
      ensures Leads(At(i), StepAt(i), At(i + 1))
    {
      AtLeads(i);
    }
  }

  /** From the first step on `x` is parked on the list `l` all along the run. */
  ghost predicate ParkedAlong(s: Sys, ops: seq<Op>, l: ListId, x: nat)
    requires Inv(s) && Legal(s, ops)
    decreases |ops|
  {
    ops == [] || (
      && x < |Run(s, ops).k.tasks| && Run(s, ops).k.tasks[x].state == Blocked(l)
      && (Unroll(s, ops); ParkedAlong(s, Front(ops), l, x)))
  }

  lemma {:induction false} HungryStays(c: Script, n: nat)
    requires Inv(c.at(0)) && Plays(c, n)
    requires forall i: nat :: 0 < i <= n ==>
      HUNGRY < |c.at(i).k.tasks| && c.at(i).k.tasks[HUNGRY].state == Blocked(SemQ(0))
    ensures Legal(c.at(0), Play(c, n)) && ParkedAlong(c.at(0), Play(c, n), SemQ(0), HUNGRY)
  {
    assert PlaysTo(c, n);
    if n > 0 {
      HungryStays(c, n - 1);
    }
  }

  /** Among two tasks of the same priority, and the idle task, `n` tokens were given and none came to
      `HUNGRY`, which waited all along. */
  ghost predicate Starves(s: Sys, ops: seq<Op>, n: nat)
    requires Inv(s) && Legal(s, ops)
  {
    && ParkedAlong(s, ops, SemQ(0), HUNGRY)
    && PassedOver(Run(s, ops), n)
  }

  predicate PassedOver(s: Sys, n: nat) {
    && |s.k.tasks| == 3 && s.k.tasks[HUNGRY].priority == s.k.tasks[GREEDY].priority
    && |s.sems| == 1 && s.sems[0].gives == s.sems[0].granted == n
  }

  lemma FeastParks(m: nat)
    ensures forall i: nat :: 0 < i <= m ==>
      HUNGRY < |At(i).k.tasks| && At(i).k.tasks[HUNGRY].state == Blocked(SemQ(0))
  {
  }

  lemma FeastPasses(n: nat)
    ensures PassedOver(At(5 * n + 2), n)
  {
    assert (5 * n) % 5 == 0 && (5 * n) / 5 == n;
  }

  lemma ScriptStarves(c: Script, m: nat, n: nat)
    requires Coherent(c, m) && PassedOver(c.at(m), n)
    requires forall i: nat :: 0 < i <= m ==>
      HUNGRY < |c.at(i).k.tasks| && c.at(i).k.tasks[HUNGRY].state == Blocked(SemQ(0))
    ensures Inv(c.at(0)) && Legal(c.at(0), Play(c, m)) && Starves(c.at(0), Play(c, m), n)
  {
    PlaysAlong(c, m);
    HungryStays(c, m);
    assert PlaysTo(c, m);
  }

  /** No bound on waiting among equals: for every `n` there is a run all along which the hungry task is
      parked on the semaphore, while `n` tokens are given, and all go to the only other task but the
      idle one, which has the same priority. */
  lemma EqualsCanStarve(n: nat)
    ensures var c, m := Feast(), 5 * n + 2;
      && Boot(c.spawned, c.at(0)) && Inv(c.at(0)) && Legal(c.at(0), Play(c, m))
      && Starves(c.at(0), Play(c, m), n)
  {
    FeastIsCoherent(5 * n + 2);
    FeastParks(5 * n + 2);
    FeastPasses(n);
    ScriptStarves(Feast(), 5 * n + 2, n);
  }
}
