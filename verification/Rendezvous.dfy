/** A channel without room for a single item strands both sides. */
module Rendezvous {
  import opened Types
  import opened KernelModel
  import opened SystemModel
  import opened Runs
  import opened Scripts
  import H = ChannelModel

  const SENDER: nat := 0
  const RECEIVER: nat := 1

  /** Two tasks and the idle task, with one channel of capacity 0. */
  function Snapshot(sender: (Phase, WaitPtr, Pc), receiver: (Phase, WaitPtr, Pc), cur: int, pendsv: bool,
                    lists: map<ListId, seq<nat>>, sent: seq<Value>): Sys
  {
    var tasks := [Task(0, sender.0, 1, 1, 1, sender.1), Task(0, receiver.0, 2, 2, 1, receiver.1),
                  Task(0, Ready(1), 255, 255, 1, NoPtr)];
    Sys(Kern(tasks, cur, 0, pendsv, lists), [sender.2, receiver.2, Free], 0, [], {}, 0, [], [],
        [ChanLog(H.Chan(0, []), sent, [], [], [], map[])], [], [], [])
  }

  function Steps(): seq<Op> {
    [Send(0, 7), PendSv(0), Recv(0)]
  }

  /** The state before step `i`. */
  function At(i: nat): Sys {
    var idle := (Ready(1), NoPtr, Free);
    var run := (Running(1), NoPtr, Free);
    var sends := (Blocked(SendQ(0)), Parked(7), InSend(0, 7));
    var q := map[SendQ(0) := [SENDER]];
    match i
    case 0 => Snapshot(run, idle, SENDER, false, map[], [])
    case 1 => Snapshot(sends, idle, SENDER, true, q, [7])
    case 2 => Snapshot(sends, run, RECEIVER, false, q, [7])
    case _ => Snapshot(sends, (Blocked(RecvQ(0)), Hole, InRecv(0)), RECEIVER, true, q[RecvQ(0) := [RECEIVER]], [7])
  }

  function Beginning(): Kern {
    Kern([NewTask(0, 1, 1), NewTask(0, 2, 1), NewTask(0, 255, 1)], -1, 0, false, map[])
  }

  lemma BootsAt0()
    ensures Boot(Beginning(), At(0))
  {
    var k0 := Beginning();
    assert FirstReady(k0, 1) == None;
    assert FirstReady(k0, 2) == Some(RECEIVER);
    assert k0.tasks[SENDER].base < 255;
  }

  function Story(): Script {
    Script(Beginning(), At, i => if 0 <= i < 3 then Steps()[i] else Tick)
  }

  ghost predicate Moves(i: nat) {
    i < 3 && Leads(At(i), Steps()[i], At(i + 1))
  }

  lemma SenderParks()
    requires Inv(At(0))
    ensures Moves(0)
  {
    var s, s' := At(0), At(1);
    assert [s.k.cur] + Q(s.k, SendQ(0)) == [SENDER];
    assert Park(SetPtr(s.k, SENDER, Parked(7)), SendQ(0)).tasks == s'.k.tasks;
    assert s.pcs[SENDER := InSend(0, 7)] == s'.pcs && s.chans[0 := s'.chans[0]] == s'.chans;
    assert [] + [7] == [7];
  }

  lemma Switches()
    requires Inv(At(1))
    ensures Moves(1)
  {
    var k := Retire(At(1).k.(pendsv := false), 0);
    assert IsNext(k, RECEIVER);
    NextUnique(k, RECEIVER);
    assert Switch(At(1).k, 0).tasks == At(2).k.tasks;
  }

  lemma ReceiverParks()
    requires Inv(At(2))
    ensures Moves(2)
  {
    var s, s' := At(2), At(3);
    assert [s.k.cur] + Q(s.k, RecvQ(0)) == [RECEIVER];
    assert Park(SetPtr(s.k, RECEIVER, Hole), RecvQ(0)).tasks == s'.k.tasks;
    assert s.pcs[RECEIVER := InRecv(0)] == s'.pcs;
  }

  lemma AnyMoves(i: nat)
    requires i < 3 && Inv(At(i))
    ensures Moves(i)
  {
    if i == 0 {
      SenderParks();
    } else if i == 1 {
      Switches();
    } else {
      ReceiverParks();
    }
  }

  lemma StoryIsCoherent()
    ensures Coherent(Story(), 3)
  {
    BootsAt0();
    forall i | 0 <= i < 3 && Inv(At(i))
      ensures Moves(i)
    {
      AnyMoves(i);
    }
  }

  predicate Stuck(s: Sys) {
    && |s.chans| == 1 && s.chans[0].chan.cap == 0
    && Q(s.k, SendQ(0)) == [SENDER] && Q(s.k, RecvQ(0)) == [RECEIVER]
  }

  lemma LastIsStuck()
    ensures Stuck(At(3))
  {
  }

  /** With capacity 0 a sender and a receiver are parked on the same channel at the same time. */
  lemma ZeroCapacityStrands()
    ensures Reaches(Upto(Story(), 3), At(3)) && Stuck(At(3))
  {
    StoryIsCoherent();
    Replay(Story(), 3);
    LastIsStuck();
  }
}
