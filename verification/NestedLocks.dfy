/** A run in which a task unlocks one mutex while it holds another on which a task above it waits. */
module NestedLocks {
  import opened Types
  import opened KernelModel
  import opened KernelProofs
  import opened SystemModel
  import opened Runs
  import opened Scripts
  import opened Priorities
  import opened Nesting

  const LOW: nat := 0
  const MID: nat := 1
  const HIGH: nat := 2

  /** Three tasks of base priority 3, 2 and 1 and the idle task, with two mutexes and no other object;
      the first two can be boosted. */
  function Snapshot(states: (Phase, Phase, Phase), priorities: (u8, u8), cur: int, tick: u64, pendsv: bool,
                    pcs: (Pc, Pc), lists: map<ListId, seq<nat>>, mutexes: seq<Option<nat>>,
                    guards: set<(nat, nat)>): Sys
  {
    var tasks := [Task(0, states.0, priorities.0, 3, 1, NoPtr), Task(0, states.1, priorities.1, 2, 1, NoPtr),
                  Task(0, states.2, 1, 1, 1, NoPtr), Task(0, Ready(1), 255, 255, 1, NoPtr)];
    Sys(Kern(tasks, cur, tick, pendsv, lists), [Free, pcs.0, pcs.1, Free], tick, mutexes, guards, 0,
        [], [], [], [], [], [])
  }

  /** The steps: everybody above sleeps in turn, the lowest task locks both mutexes, the highest
      wakes up and waits for the first, and the lowest unlocks the second. */
  function Steps(): seq<Op> {
    [Op.Sleep(1), PendSv(0), Op.Sleep(1), PendSv(0), Lock(0), Lock(1),
     Tick, PendSv(0), Return, Lock(0), PendSv(0), Unlock(1)]
  }

  /** The state before step `i`. */
  function At(i: nat): Sys {
    var r, run, sl, wait := Ready(1), Running(1), Sleeping(1), Blocked(MutexQ(0));
    var asleep, up := (InSleep(1), InSleep(1)), (InSleep(1), Free);
    var low, both, one := Some(LOW), {(LOW, 0), (LOW, 1)}, {(LOW, 0)};
    var q, base, boosted := map[MutexQ(0) := [HIGH]], (3, 2), (1, 2);
    match i
    case 0 => Snapshot((r, r, run), base, HIGH, 0, false, (Free, Free), map[], [None, None], {})
    case 1 => Snapshot((r, r, sl), base, HIGH, 0, true, (Free, InSleep(1)), map[], [None, None], {})
    case 2 => Snapshot((r, run, sl), base, MID, 0, false, (Free, InSleep(1)), map[], [None, None], {})
    case 3 => Snapshot((r, sl, sl), base, MID, 0, true, asleep, map[], [None, None], {})
    case 4 => Snapshot((run, sl, sl), base, LOW, 0, false, asleep, map[], [None, None], {})
    case 5 => Snapshot((run, sl, sl), base, LOW, 0, false, asleep, map[], [low, None], one)
    case 6 => Snapshot((run, sl, sl), base, LOW, 0, false, asleep, map[], [low, low], both)
    case 7 => Snapshot((run, r, r), base, LOW, 1, true, asleep, map[], [low, low], both)
    case 8 => Snapshot((r, r, run), base, HIGH, 1, false, asleep, map[], [low, low], both)
    case 9 => Snapshot((r, r, run), base, HIGH, 1, false, up, map[], [low, low], both)
    case 10 => Snapshot((r, r, wait), boosted, HIGH, 1, true, (InSleep(1), InLock(0)), q, [low, low], both)
    case 11 => Snapshot((run, r, wait), boosted, LOW, 1, false, (InSleep(1), InLock(0)), q, [low, low], both)
    case _ => Snapshot((run, r, wait), base, LOW, 1, false, (InSleep(1), InLock(0)), q, [low, None], one)
  }

  function Beginning(): Kern {
    Kern([NewTask(0, 3, 1), NewTask(0, 2, 1), NewTask(0, 1, 1), NewTask(0, 255, 1)], -1, 0, false, map[])
  }

  lemma BootsAt0()
    ensures Boot(Beginning(), At(0))
  {
    var k0 := Beginning();
    assert FirstReady(k0, 1) == None;
    assert FirstReady(k0, 2) == Some(HIGH);
    assert FirstReady(k0, 3) == Some(HIGH);
    assert k0.tasks[LOW].base < 255;
  }

  /** PendSV chooses `next`. */
  lemma Switches(i: nat, next: nat)
    requires i == 1 || i == 3 || i == 7 || i == 10
    requires next == if i == 1 then MID else if i == 7 then HIGH else LOW
    ensures Switch(At(i).k, 0) == At(i + 1).k
  {
    var k := Retire(At(i).k.(pendsv := false), 0);
    assert IsNext(k, next);
    NextUnique(k, next);
  }

  lemma Ticks()
    ensures SysTick(At(6).k) == At(7).k
  {
    var k1 := At(6).k.(tick := 1);
    WakeFromWakes(k1, 0);
    var k2 := WakeSleepers(k1);
    assert k2.tasks == At(7).k.tasks;
    assert Outranker(k2, HIGH);
  }

  function Story(): Script {
    Script(Beginning(), At, i => if 0 <= i < 12 then Steps()[i] else Tick)
  }

  ghost predicate Moves(i: nat) {
    i < 12 && Leads(At(i), Steps()[i], At(i + 1))
  }

  lemma SwitchIsDue(i: nat)
    requires i == 1 || i == 3 || i == 7 || i == 10
    ensures Steps()[i] == PendSv(0) && At(i).k.pendsv && At(i).(k := At(i + 1).k) == At(i + 1)
  {
  }

  lemma SwitchMoves(i: nat)
    requires Inv(At(i)) && (i == 1 || i == 3 || i == 7 || i == 10)
    ensures Moves(i)
  {
    Switches(i, if i == 1 then MID else if i == 7 then HIGH else LOW);
    SwitchIsDue(i);
    SwitchLeads(At(i), 0, At(i + 1));
  }

  lemma SleepMoves(i: nat)
    requires Inv(At(i)) && (i == 0 || i == 2)
    ensures Moves(i)
  {
  }

  lemma TickMoves()
    requires Inv(At(6))
    ensures Moves(6)
  {
    Ticks();
  }

  lemma LockMoves(i: nat, m: nat)
    requires Inv(At(i)) && (i == 4 || i == 5) && m == i - 4
    ensures Moves(i)
  {
    var s, s' := At(i), At(i + 1);
    assert s.mutexes[m := Some(LOW)] == s'.mutexes && s.pcs[LOW := Free] == s'.pcs;
    assert s.guards + {(LOW, m)} == s'.guards;
  }

  lemma ReturnMoves()
    requires Inv(At(8))
    ensures Moves(8)
  {
    assert At(8).pcs[HIGH := Free] == At(9).pcs;
  }

  lemma ContendMoves()
    requires Inv(At(9))
    ensures Moves(9)
  {
    var s, s' := At(9), At(10);
    var k := Park(SetPriority(s.k, LOW, 1), MutexQ(0));
    assert [s.k.cur] + Q(s.k, MutexQ(0)) == [HIGH];
    assert k.tasks == s'.k.tasks && k.lists == s'.k.lists;
    assert s.pcs[HIGH := InLock(0)] == s'.pcs && s.mutexes[0 := Some(LOW)] == s'.mutexes;
  }

  lemma UnlockMoves()
    requires Inv(At(11))
    ensures Moves(11)
  {
    var s, s' := At(11), At(12);
    assert SetPriority(s.k, LOW, 3).tasks == s'.k.tasks && Q(s.k, MutexQ(1)) == [];
    assert s.mutexes[1 := None] == s'.mutexes && s.guards - {(LOW, 1)} == s'.guards;
  }

  lemma AnyMoves(i: nat)
    requires i < 12 && Inv(At(i))
    ensures Moves(i)
  {
    if i == 4 || i == 5 {
      LockMoves(i, i - 4);
    } else if i == 8 {
      ReturnMoves();
    } else if i == 9 {
      ContendMoves();
    } else if i == 11 {
      UnlockMoves();
    } else if i == 6 {
      TickMoves();
    } else if i == 0 || i == 2 {
      SleepMoves(i);
    } else {
      SwitchMoves(i);
    }
  }

  lemma StoryIsCoherent(n: nat)
    requires n <= 12
    ensures Coherent(Story(), n)
  {
    BootsAt0();
    forall i | 0 <= i < n && Inv(At(i))
      ensures Moves(i)
    {
      AnyMoves(i);
    }
  }

  lemma GoodSoFar(i: nat)
    requires i <= 11
    ensures NoInversion(At(i)) && NoMissedPreemption(At(i).k)
  {
  }

  ghost predicate AllGood(c: Script, n: nat) {
    forall i: nat :: i <= n ==> NoInversion(c.at(i)) && NoMissedPreemption(c.at(i).k)
  }

  lemma StoryIsGood()
    ensures AllGood(Story(), 11)
  {
    forall i: nat | i <= 11
      ensures NoInversion(At(i)) && NoMissedPreemption(At(i).k)
    {
      GoodSoFar(i);
    }
  }

  /** A task owns two mutexes, and one above it waits for the first. */
  ghost predicate Nested(s: Sys) {
    Owns(s, LOW, 0) && Owns(s, LOW, 1) && Waiters(s, 0) == [HIGH]
  }

  lemma LocksAreNested()
    ensures Nested(At(11))
  {
  }

  lemma {:induction false} GoodAlong(c: Script, n: nat)
    requires Inv(c.at(0)) && Plays(c, n) && AllGood(c, n)
    ensures Legal(c.at(0), Play(c, n)) && NeverInverted(c.at(0), Play(c, n)) && NeverMissed(c.at(0), Play(c, n))
  {
    assert PlaysTo(c, n);
    if n > 0 {
      GoodAlong(c, n - 1);
    }
  }

  lemma ScriptIsHarmless(c: Script, n: nat)
    requires Coherent(c, n) && AllGood(c, n)
    ensures HarmlessReaches(Upto(c, n), c.at(n)) && CoveredReaches(Upto(c, n), c.at(n))
  {
    PlaysAlong(c, n);
    GoodAlong(c, n);
    Replay(c, n);
    InheritanceHoldsIff(Upto(c, n), c.at(n));
    PreemptionHoldsIff(Upto(c, n), c.at(n));
  }

  /** Nesting as such does no harm: up to its last step the run meets both conditions, although a task
      owns two mutexes while a task above it waits for one of them. */
  lemma NestingCanBeHarmless()
    ensures HarmlessReaches(Upto(Story(), 11), At(11)) && CoveredReaches(Upto(Story(), 11), At(11))
    ensures Nested(At(11))
  {
    StoryIsCoherent(11);
    StoryIsGood();
    ScriptIsHarmless(Story(), 11);
    LocksAreNested();
  }

  lemma LastIsBad()
    ensures !NoMissedPreemption(At(12).k) && !NoInversion(At(12))
  {
    var s := At(12);
    assert Outranks(s.k, MID) && s.k.tasks[MID].state.Ready?;
    assert Owns(s, LOW, 0) && Prio(s, Waiters(s, 0)[0]) == 1;
  }

  /** With nested locks neither guarantee survives: this run leads to a state where a switch is not
      due, yet a Ready task outranks the running one, and a waiter outranks the owner of its mutex. */
  lemma NestingLosesBoth()
    ensures Reaches(Upto(Story(), 12), At(12)) && !NoMissedPreemption(At(12).k) && !NoInversion(At(12))
  {
    StoryIsCoherent(12);
    Replay(Story(), 12);
    LastIsBad();
  }
}
