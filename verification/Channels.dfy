/** `Channel`: a bounded queue with hand-off to blocked receivers and from blocked senders. */
module ChannelModel {
  import opened Types
  import M = KernelModel

  /** The capacity, and the buffered items, oldest first. */
  datatype Chan = Chan(cap: nat, items: seq<Value>)

  /** Every task parked in the send list offers a value. */
  ghost predicate SendersParked(k: M.Kern, sl: ListId)
    requires M.ListOk(k, sl)
  {
    forall j :: 0 <= j < |M.Q(k, sl)| ==> k.tasks[M.Q(k, sl)[j]].ptr.Parked?
  }

  /** The part that `send` and `try_send` share: hand the value to the best blocked receiver, or
      buffer it. */
  function Accept(k: M.Kern, c: Chan, rl: ListId, v: Value): Option<(M.Kern, Chan)>
    requires M.Started(k) && M.ListOk(k, rl)
  {
    if M.Q(k, rl) != [] then Some((M.WakeBestWith(k, rl, Filled(v)), c))
    else if |c.items| < c.cap then Some((k, c.(items := c.items + [v])))
    else None
  }

  /** `send_impl`. */
  function Send(k: M.Kern, c: Chan, sl: ListId, rl: ListId, v: Value): (M.Kern, Chan)
    requires M.Started(k) && M.ListOk(k, rl)
  {
    match Accept(k, c, rl, v)
    case Some(r) => r
    case None => (M.Park(M.SetPtr(k, k.cur, Parked(v)), sl), c)
  }

  /** `try_send_impl`. */
  function TrySend(k: M.Kern, c: Chan, rl: ListId, v: Value): (M.Kern, Chan, bool)
    requires M.Started(k) && M.ListOk(k, rl)
  {
    match Accept(k, c, rl, v)
    case Some(r) => (r.0, r.1, true)
    case None => (k, c, false)
  }

  /** The part that `recv` and `try_recv` share: take the oldest item, then let the best blocked
      sender's value into the freed slot. */
  function Deliver(k: M.Kern, c: Chan, sl: ListId): Option<(M.Kern, Chan, Value)>
    requires M.Started(k) && M.ListOk(k, sl) && SendersParked(k, sl)
  {
    if c.items == [] then None
    else if M.Q(k, sl) == [] then Some((k, c.(items := c.items[1..]), c.items[0]))
    else
      var v := k.tasks[M.BestWaiter(k, sl)].ptr.val;
      Some((M.WakeBest(k, sl), c.(items := c.items[1..] + [v]), c.items[0]))
  }

  /** `recv_impl`; None means that the caller is parked and will find its value in its slot. */
  function Recv(k: M.Kern, c: Chan, sl: ListId, rl: ListId): (M.Kern, Chan, Option<Value>)
    requires M.Started(k) && M.ListOk(k, sl) && SendersParked(k, sl)
  {
    match Deliver(k, c, sl)
    case Some(r) => (r.0, r.1, Some(r.2))
    case None => (M.Park(M.SetPtr(k, k.cur, Hole), rl), c, None)
  }

  /** `try_recv_impl`. */
  function TryRecv(k: M.Kern, c: Chan, sl: ListId): (M.Kern, Chan, Option<Value>)
    requires M.Started(k) && M.ListOk(k, sl) && SendersParked(k, sl)
  {
    match Deliver(k, c, sl)
    case Some(r) => (r.0, r.1, Some(r.2))
    case None => (k, c, None)
  }
}

/** The channel on the heap: a ring buffer and two wait lists. */
module Channels {
  import opened Types
  import M = KernelModel
  import V = ChannelModel
  import opened Scheduler

  lemma WrapNext(x: nat, n: nat)
    requires x < n
    ensures (x + 1) % n == if x + 1 == n then 0 else x + 1
  {
  }

  /** The ring index `i` places after `h`. */
  function RingIndex(h: nat, i: nat, n: nat): nat
    requires h < n && i <= n
  {
    if h + i < n then h + i else h + i - n
  }

  /** It is the index the source's `% N` arithmetic arrives at. */
  lemma RingIndexIsModular(h: nat, i: nat, n: nat)
    requires h < n && i <= n
    ensures RingIndex(h, i, n) == (h + i) % n
  {
    if h + i >= n {
      assert h + i == n * 1 + (h + i - n);
    }
  }

  class Channel {
    const buf: array<Value>
    var head: nat
    var tail: nat
    var count: nat
    const sendHead: WaitHead
    const recvHead: WaitHead

    constructor (n: nat, sh: WaitHead, rh: WaitHead)
      ensures RingOk() && View() == V.Chan(n, []) && fresh(buf)
      ensures sendHead == sh && recvHead == rh
    {
      buf := new Value[n];
      head, tail, count := 0, 0, 0;
      sendHead, recvHead := sh, rh;
    }

    /** The ring's bookkeeping: `tail` is `count` places after `head`, around the end. */
    ghost predicate RingOk()
      reads this
    {
      && count <= buf.Length
      && if buf.Length == 0 then head == tail == 0
         else head < buf.Length && tail == RingIndex(head, count, buf.Length)
    }

    /** The queue that the ring stands for. */
    ghost function View(): V.Chan
      requires RingOk()
      reads this, buf
    {
      V.Chan(buf.Length, seq(count, i requires 0 <= i < count && RingOk() reads this, buf =>
        buf[RingIndex(head, i, buf.Length)]))
    }

    /** Write `v` at `tail` and advance it. */
    method PushBack(k: Kernel, v: Value)
      requires RingOk() && count < buf.Length && k.Valid()
      modifies this`tail, this`count, buf
      ensures RingOk() && k.Valid()
      ensures View() == old(View()).(items := old(View()).items + [v])
    {
      WrapNext(tail, buf.Length);
      buf[tail] := v;
      tail := (tail + 1) % buf.Length;
      count := count + 1;
      assert View().items == old(View()).items + [v];
    }

    /** Read the item at `head` and advance it. */
    method PopFront(k: Kernel) returns (v: Value)
      requires RingOk() && count > 0 && k.Valid()
      modifies this`head, this`count
      ensures RingOk() && k.Valid()
      ensures count == old(count) - 1
      ensures v == old(View()).items[0] && View() == old(View()).(items := old(View()).items[1..])
    {
      WrapNext(head, buf.Length);
      v := buf[head];
      head := (head + 1) % buf.Length;
      count := count - 1;
      assert View().items == old(View()).items[1..];
    }

    ghost predicate Valid(k: Kernel)
      reads this, k
    {
      RingOk() && k.Knows(sendHead) && k.Knows(recvHead)
    }

    /** Both senders start here: a waiting receiver, else room in the ring, else nothing is done. */
    method Accept(k: Kernel, v: Value) returns (accepted: bool)
      requires k.Valid() && Valid(k) && M.Started(k.st)
      modifies this`tail, this`count, buf, k`st, k`pendsv, recvHead`head, k.spawned`state, k.spawned`waitPtr
      ensures k.Valid() && Valid(k) && M.ListOk(old(k.st), recvHead.lid)
      ensures var r := V.Accept(old(k.st), old(View()), recvHead.lid, v);
        && accepted == r.Some?
        && (k.st, View()) == if r.Some? then r.value else (old(k.st), old(View()))
    {
      k.HeadShowsEmpty(recvHead);
      if recvHead.head != null {
        HandOff(k, v);
        return true;
      }
      accepted := count < buf.Length;
      if accepted {
        PushBack(k, v);
      }
    }

    /** Direct hand-off: the value goes through the receiver's `wait_ptr` into its slot. */
    method HandOff(k: Kernel, v: Value)
      requires k.Valid() && Valid(k) && M.Started(k.st)
      requires M.ListOk(k.st, recvHead.lid) && M.Q(k.st, recvHead.lid) != []
      modifies k`st, k`pendsv, recvHead`head, k.spawned`state, k.spawned`waitPtr
      ensures k.Valid() && Valid(k) && View() == old(View())
      ensures k.st == M.WakeBestWith(old(k.st), recvHead.lid, Filled(v))
    {
      var slot := k.WakeHighestWith(recvHead, Filled(v));
    }

    /** The ring is not touched when the running task is parked. */
    method ParkOn(k: Kernel, h: WaitHead, p: WaitPtr)
      requires k.Valid() && Valid(k) && k.Knows(h) && M.Started(k.st) && M.Runnable(k.st.tasks[k.st.cur])
      modifies k`st, k`pendsv, h`head, k.spawned`state, k.spawned`waitPtr
      ensures k.Valid() && Valid(k) && View() == old(View())
      ensures k.st == M.Park(M.SetPtr(old(k.st), old(k.st).cur, p), h.lid)
    {
      k.ParkWith(h, p);
    }

    /** `send_impl`, up to the point where the value is accepted or its sender is parked. */
    method Send(k: Kernel, v: Value) returns (mustBlock: bool)
      requires k.Valid() && Valid(k) && M.Started(k.st) && M.Runnable(k.st.tasks[k.st.cur])
      modifies this`tail, this`count, buf, k`st, k`pendsv, sendHead`head, recvHead`head
      modifies k.spawned`state, k.spawned`waitPtr
      ensures k.Valid() && Valid(k) && M.ListOk(old(k.st), recvHead.lid)
      ensures (k.st, View()) == V.Send(old(k.st), old(View()), sendHead.lid, recvHead.lid, v)
      ensures mustBlock <==> M.Q(old(k.st), recvHead.lid) == [] && old(count) == buf.Length
    {
      var accepted := Accept(k, v);
      mustBlock := !accepted;
      if mustBlock {
        ParkOn(k, sendHead, Parked(v));
      }
    }

    /** `try_send_impl`. */
    method TrySend(k: Kernel, v: Value) returns (sent: bool)
      requires k.Valid() && Valid(k) && M.Started(k.st)
      modifies this`tail, this`count, buf, k`st, k`pendsv, recvHead`head, k.spawned`state, k.spawned`waitPtr
      ensures k.Valid() && Valid(k) && M.ListOk(old(k.st), recvHead.lid)
      ensures (k.st, View(), sent) == V.TrySend(old(k.st), old(View()), recvHead.lid, v)
    {
      sent := Accept(k, v);
    }

    /** Both receivers start here: pop the ring, then refill it from the best blocked sender. */
    method Deliver(k: Kernel) returns (v: Option<Value>)
      requires k.Valid() && Valid(k) && M.Started(k.st)
      requires M.ListOk(k.st, sendHead.lid) && V.SendersParked(k.st, sendHead.lid)
      modifies this`head, this`tail, this`count, buf, k`st, k`pendsv, sendHead`head, k.spawned`state
      ensures k.Valid() && Valid(k)
      ensures var r := V.Deliver(old(k.st), old(View()), sendHead.lid);
        if r.Some? then (k.st, View(), v) == (r.value.0, r.value.1, Some(r.value.2))
        else (k.st, View(), v) == (old(k.st), old(View()), None)
    {
      if count == 0 {
        return None;
      }
      var item := PopFront(k);
      k.HeadShowsEmpty(sendHead);
      if sendHead.head != null {
        Refill(k);
      }
      v := Some(item);
    }

    method Refill(k: Kernel)
      requires k.Valid() && Valid(k) && M.Started(k.st) && count < buf.Length
      requires M.ListOk(k.st, sendHead.lid) && V.SendersParked(k.st, sendHead.lid) && M.Q(k.st, sendHead.lid) != []
      modifies this`tail, this`count, buf, k`st, k`pendsv, sendHead`head, k.spawned`state
      ensures k.Valid() && Valid(k)
      ensures k.st == M.WakeBest(old(k.st), sendHead.lid)
      ensures View() == old(View()).(items := old(View()).items
                                       + [old(k.st).tasks[M.BestWaiter(old(k.st), sendHead.lid)].ptr.val])
    {
      var sender := k.WakeHighest(sendHead);
      PushBack(k, sender.waitPtr.val);
    }

    /** `recv_impl`, up to the point where a value is taken or the receiver is parked. */
    method Recv(k: Kernel) returns (v: Option<Value>)
      requires k.Valid() && Valid(k) && M.Started(k.st) && M.Runnable(k.st.tasks[k.st.cur])
      requires M.ListOk(k.st, sendHead.lid) && V.SendersParked(k.st, sendHead.lid)
      modifies this`head, this`tail, this`count, buf, k`st, k`pendsv, sendHead`head, recvHead`head
      modifies k.spawned`state, k.spawned`waitPtr
      ensures k.Valid() && Valid(k)
      ensures (k.st, View(), v) == V.Recv(old(k.st), old(View()), sendHead.lid, recvHead.lid)
    {
      v := Deliver(k);
      if v.None? {
        ParkOn(k, recvHead, Hole);
      }
    }

    /** `try_recv_impl`. */
    method TryRecv(k: Kernel) returns (v: Option<Value>)
      requires k.Valid() && Valid(k) && M.Started(k.st)
      requires M.ListOk(k.st, sendHead.lid) && V.SendersParked(k.st, sendHead.lid)
      modifies this`head, this`tail, this`count, buf, k`st, k`pendsv, sendHead`head, k.spawned`state
      ensures k.Valid() && Valid(k)
      ensures (k.st, View(), v) == V.TryRecv(old(k.st), old(View()), sendHead.lid)
    {
      v := Deliver(k);
    }
  }
}
