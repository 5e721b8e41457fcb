/** Runs that are spelled out state by state. */
module Scripts {
  import opened KernelModel
  import opened SystemModel
  import opened Runs

  /** The kernel before the launch, the state before each step, and the steps. */
  datatype Script = Script(spawned: Kern, at: nat -> Sys, step: nat -> Op)

  /** The first `n` steps. */
  function Play(c: Script, n: nat): (ops: seq<Op>)
    ensures |ops| == n && (n > 0 ==> Front(ops) == Play(c, n - 1) && Last(ops) == c.step(n - 1))
  {
    if n == 0 then [] else
    assert Front(Play(c, n - 1) + [c.step(n - 1)]) == Play(c, n - 1);
    Play(c, n - 1) + [c.step(n - 1)]
  }

  function Upto(c: Script, n: nat): Trace {
    Trace(c.spawned, c.at(0), Play(c, n))
  }

  ghost predicate Leads(s: Sys, op: Op, s': Sys) {
    Inv(s) && Enabled(s, op) && Step(s, op) == s'
  }

  /** Each of the first `n` steps leads from the state before it to the next. */
  ghost predicate Coherent(c: Script, n: nat) {
    Boot(c.spawned, c.at(0)) && forall i :: 0 <= i < n && Inv(c.at(i)) ==> Leads(c.at(i), c.step(i), c.at(i + 1))
  }

  lemma OneMore(tr: Trace, s: Sys, op: Op, s': Sys)
    requires Reaches(tr, s) && Leads(s, op, s')
    ensures Reaches(tr.(ops := tr.ops + [op]), s') && Inv(s')
  {
    Onward(tr, s, op);
    StepKeeps(s, op);
  }

  /** A coherent script is a run. */
  lemma {:induction false} Replay(c: Script, n: nat)
    requires Coherent(c, n)
    ensures Reaches(Upto(c, n), c.at(n)) && Inv(c.at(n))
  {
    if n == 0 {
      Start(c.spawned, c.at(0));
    } else {
      Replay(c, n - 1);
      OneMore(Upto(c, n - 1), c.at(n - 1), c.step(n - 1), c.at(n));
    }
  }

  /** Where the run is after each of its first `n` steps. */
  ghost predicate Plays(c: Script, n: nat)
    requires Inv(c.at(0))
  {
    forall i: nat :: i <= n ==> PlaysTo(c, i)
  }

  ghost predicate PlaysTo(c: Script, i: nat)
    requires Inv(c.at(0))
  {
    Legal(c.at(0), Play(c, i)) && Run(c.at(0), Play(c, i)) == c.at(i)
  }

  lemma PlaysAlong(c: Script, n: nat)
    requires Coherent(c, n)
    ensures Inv(c.at(0)) && Plays(c, n)
  {
    Replay(c, 0);
    forall i: nat | i <= n
      ensures PlaysTo(c, i)
    {
      Replay(c, i);
      BootInv(c.spawned, c.at(0));
    }
  }

  lemma SwitchLeads(s: Sys, sp: int, s': Sys)
    requires Inv(s) && s.k.pendsv && s.(k := Switch(s.k, sp)) == s'
    ensures Leads(s, PendSv(sp), s')
  {
  }

  lemma TickLeads(s: Sys, s': Sys)
    requires Inv(s) && s.(k := SysTick(s.k), uptime := s.uptime + 1) == s'
    ensures Leads(s, Tick, s')
  {
  }
}
