/** A run in which a task queues up behind one that waits for a third: the boost stops half-way. */
module ChainedLocks {
  import opened Types
  import opened KernelModel
  import opened KernelProofs
  import opened SystemModel
  import opened Runs
  import opened Scripts
  import opened Priorities
  import opened Nesting
  import opened NestedLocks

  /** The steps: the task in the middle locks the first mutex, the lowest the second, the task in the
      middle waits for the second, and the highest for the first. */
  function Chain(): seq<Op> {
    [Op.Sleep(2), PendSv(0), Lock(0), Op.Sleep(1), PendSv(0), Lock(1), Tick, PendSv(0), Return,
     Lock(1), PendSv(0), Tick, PendSv(0), Return, Lock(0)]
  }

  /** The state before step `i`. */
  function Link(i: nat): Sys {
    var r, run, doze, sl := Ready(1), Running(1), Sleeping(1), Sleeping(2);
    var base, boosted, all, top := (3, 2), (2, 2), (2, 1), Blocked(MutexQ(0));
    var none, mid, low := None, Some(MID), Some(LOW);
    var one, two, wait := {(MID, 0)}, {(MID, 0), (LOW, 1)}, Blocked(MutexQ(1));
    var q, q' := map[MutexQ(1) := [MID]], map[MutexQ(1) := [MID], MutexQ(0) := [HIGH]];
    match i
    case 0 => Snapshot((r, r, run), base, HIGH, 0, false, (Free, Free), map[], [none, none], {})
    case 1 => Snapshot((r, r, sl), base, HIGH, 0, true, (Free, InSleep(2)), map[], [none, none], {})
    case 2 => Snapshot((r, run, sl), base, MID, 0, false, (Free, InSleep(2)), map[], [none, none], {})
    case 3 => Snapshot((r, run, sl), base, MID, 0, false, (Free, InSleep(2)), map[], [mid, none], one)
    case 4 => Snapshot((r, doze, sl), base, MID, 0, true, (InSleep(1), InSleep(2)), map[], [mid, none], one)
    case 5 => Snapshot((run, doze, sl), base, LOW, 0, false, (InSleep(1), InSleep(2)), map[], [mid, none], one)
    case 6 => Snapshot((run, doze, sl), base, LOW, 0, false, (InSleep(1), InSleep(2)), map[], [mid, low], two)
    case 7 => Snapshot((run, r, sl), base, LOW, 1, true, (InSleep(1), InSleep(2)), map[], [mid, low], two)
    case 8 => Snapshot((r, run, sl), base, MID, 1, false, (InSleep(1), InSleep(2)), map[], [mid, low], two)
    case 9 => Snapshot((r, run, sl), base, MID, 1, false, (Free, InSleep(2)), map[], [mid, low], two)
    case 10 => Snapshot((r, wait, sl), boosted, MID, 1, true, (InLock(1), InSleep(2)), q, [mid, low], two)
    case 11 => Snapshot((run, wait, sl), boosted, LOW, 1, false, (InLock(1), InSleep(2)), q, [mid, low], two)
    case 12 => Snapshot((run, wait, r), boosted, LOW, 2, true, (InLock(1), InSleep(2)), q, [mid, low], two)
    case 13 => Snapshot((r, wait, run), boosted, HIGH, 2, false, (InLock(1), InSleep(2)), q, [mid, low], two)
    case 14 => Snapshot((r, wait, run), boosted, HIGH, 2, false, (InLock(1), Free), q, [mid, low], two)
    case _ => Snapshot((r, wait, top), all, HIGH, 2, true, (InLock(1), InLock(0)), q', [mid, low], two)
  }

  function Tale(): Script {
    Script(Beginning(), Link, i => if 0 <= i < 15 then Chain()[i] else Tick)
  }

  ghost predicate Follows(i: nat) {
    i < 15 && Leads(Link(i), Chain()[i], Link(i + 1))
  }

  /** PendSV chooses `next`. */
  lemma Selects(i: nat, next: nat)
    requires i == 1 || i == 4 || i == 7 || i == 10 || i == 12
    requires next == if i == 1 || i == 7 then MID else if i == 12 then HIGH else LOW
    ensures Switch(Link(i).k, 0) == Link(i + 1).k
  {
    var k := Retire(Link(i).k.(pendsv := false), 0);
    assert IsNext(k, next);
    NextUnique(k, next);
  }

  lemma SwitchIsDue(i: nat)
    requires i == 1 || i == 4 || i == 7 || i == 10 || i == 12
    ensures Chain()[i] == PendSv(0) && Link(i).k.pendsv && Link(i).(k := Link(i + 1).k) == Link(i + 1)
  {
  }

  lemma SwitchFollows(i: nat)
    requires Inv(Link(i)) && (i == 1 || i == 4 || i == 7 || i == 10 || i == 12)
    ensures Follows(i)
  {
    Selects(i, if i == 1 || i == 7 then MID else if i == 12 then HIGH else LOW);
    SwitchIsDue(i);
    SwitchLeads(Link(i), 0, Link(i + 1));
  }

  lemma SleepFollows(i: nat)
    requires Inv(Link(i)) && (i == 0 || i == 3)
    ensures Follows(i)
  {
  }

  /** The tick wakes `t`. */
  lemma Wakes(i: nat, t: nat)
    requires i == 6 || i == 11
    requires t == if i == 6 then MID else HIGH
    ensures SysTick(Link(i).k) == Link(i + 1).k
  {
    var k1 := Link(i).k.(tick := Link(i).k.tick + 1);
    WakeFromWakes(k1, 0);
    var k2 := WakeSleepers(k1);
    assert k2.tasks == Link(i + 1).k.tasks;
    assert Outranker(k2, t);
  }

  lemma TickFollows(i: nat)
    requires Inv(Link(i)) && (i == 6 || i == 11)
    ensures Follows(i)
  {
    Wakes(i, if i == 6 then MID else HIGH);
  }

  lemma ClaimFollows(i: nat)
    requires Inv(Link(i)) && (i == 2 || i == 5)
    ensures Follows(i)
  {
    var s, s', m, c := Link(i), Link(i + 1), if i == 2 then 0 else 1, if i == 2 then MID else LOW;
    assert s.mutexes[m := Some(c)] == s'.mutexes && s.pcs[c := Free] == s'.pcs;
    assert s.guards + {(c, m)} == s'.guards;
  }

  lemma SleepEnds(s: Sys)
    requires Inv(s) && Enabled(s, Return) && s.pcs[s.k.cur].InSleep?
    ensures Step(s, Return) == s.(pcs := s.pcs[s.k.cur := Free])
  {
  }

  lemma Ends(i: nat)
    requires i == 8 || i == 13
    ensures var s := Link(i);
      Started(s.k) && |s.pcs| == |s.k.tasks| && s.pcs[s.k.cur].InSleep? && !s.k.pendsv
      && s.(pcs := s.pcs[s.k.cur := Free]) == Link(i + 1)
  {
    assert Link(i).pcs[Link(i).k.cur := Free] == Link(i + 1).pcs;
  }

  lemma ReturnFollows(i: nat)
    requires Inv(Link(i)) && (i == 8 || i == 13)
    ensures Follows(i)
  {
    Ends(i);
    SleepEnds(Link(i));
  }

  lemma Waits(i: nat, m: nat, o: nat, p: u8)
    requires (i == 9 && m == 1 && o == LOW && p == 2) || (i == 14 && m == 0 && o == MID && p == 1)
    requires var s := Link(i); KernelInv(s.k) && PcInv(s) && MutexInv(s)
    ensures LockStep(Link(i), m) == Link(i + 1)
  {
    var s, s' := Link(i), Link(i + 1);
    var k := Park(SetPriority(s.k, o, p), MutexQ(m));
    assert [s.k.cur] + Q(s.k, MutexQ(m)) == [s.k.cur];
    assert k.tasks == s'.k.tasks && k.lists == s'.k.lists;
    assert s.pcs[s.k.cur := InLock(m)] == s'.pcs && s.mutexes[m := Some(o)] == s'.mutexes;
  }

  lemma WaitFollows(i: nat)
    requires Inv(Link(i)) && (i == 9 || i == 14)
    ensures Follows(i)
  {
    if i == 9 {
      Waits(i, 1, LOW, 2);
    } else {
      Waits(i, 0, MID, 1);
    }
  }

  lemma AnyFollows(i: nat)
    requires i < 15 && Inv(Link(i))
    ensures Follows(i)
  {
    if i == 2 || i == 5 {
      ClaimFollows(i);
    } else if i == 8 || i == 13 {
      ReturnFollows(i);
    } else if i == 9 || i == 14 {
      WaitFollows(i);
    } else if i == 6 || i == 11 {
      TickFollows(i);
    } else if i == 0 || i == 3 {
      SleepFollows(i);
    } else {
      SwitchFollows(i);
    }
  }

  lemma TaleIsCoherent(n: nat)
    requires n <= 15
    ensures Coherent(Tale(), n)
  {
    BootsAt0();
    forall i | 0 <= i < n && Inv(Link(i))
      ensures Follows(i)
    {
      AnyFollows(i);
    }
  }

  lemma GoodThenBad()
    ensures NoInversion(Link(14)) && !NoInversion(Link(15))
  {
    var s, s' := Link(14), Link(15);
    assert Waiters(s, 0) == [] && Waiters(s, 1) == [MID];
    assert Owns(s', LOW, 1) && Waiters(s', 1)[0] == MID && Prio(s', LOW) == 2 && Prio(s', MID) == 1;
  }

  /** A boost does not travel along a chain of waiters: in this run the last `lock` leaves an owner
      below its waiter, although nobody was before. */
  lemma ChainLosesInheritance()
    ensures Reaches(Upto(Tale(), 14), Link(14)) && NoInversion(Link(14))
    ensures Reaches(Upto(Tale(), 15), Link(15)) && !NoInversion(Link(15))
  {
    TaleIsCoherent(15);
    Replay(Tale(), 14);
    Replay(Tale(), 15);
    GoodThenBad();
  }
}
