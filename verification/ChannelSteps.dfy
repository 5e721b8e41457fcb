/** Channel steps keep the invariants. */
module ChannelSteps {
  import opened Types
  import opened Seqs
  import opened KernelModel
  import opened KernelProofs
  import opened SystemModel
  import opened Frames
  import H = ChannelModel

  predicate OfChan(pc: Pc, h: nat) {
    (pc.InSend? && pc.h == h) || (pc.InRecv? && pc.h == h)
  }

  lemma OffersSame(k: Kern, k': Kern, q: seq<nat>)
    requires forall j :: 0 <= j < |q| ==> Offer(k', q[j]) == Offer(k, q[j])
    ensures Offers(k', q) == Offers(k, q)
  {
  }

  /** Channel `h` and the tasks in its calls apart, nothing moved. */
  ghost predicate ChansApart(s: Sys, s': Sys, h: nat)
    requires PcInv(s) && PcInv(s')
  {
    && h < |s.chans| == |s'.chans| && |s'.pcs| == |s.pcs|
    && (forall j :: 0 <= j < |s.chans| && j != h ==>
      s'.chans[j] == s.chans[j] && Q(s'.k, SendQ(j)) == Q(s.k, SendQ(j)) && Q(s'.k, RecvQ(j)) == Q(s.k, RecvQ(j)))
    && (forall t :: 0 <= t < |s.pcs| && !OfChan(s'.pcs[t], h) ==> SameTask(s, s', t) || (s.pcs[t] == s'.pcs[t] == Free))
    && (forall t :: 0 <= t < |s.pcs| && OfChan(s'.pcs[t], h) ==> s.pcs[t] == s'.pcs[t] || s.pcs[t] == Free)
  }

  lemma ChanInvKept(s: Sys, s': Sys, h: nat)
    requires KernelInv(s.k) && PcInv(s) && PcInv(s') && ChanInv(s) && ChansApart(s, s', h)
    requires forall t :: 0 <= t < |s.pcs| && OfChan(s'.pcs[t], h) ==> PeerInv(s', t)
    requires OneChanInv(s', h)
    ensures ChanInv(s')
  {
    forall j | 0 <= j < |s'.chans|
      ensures OneChanInv(s', j)
    {
      assert OneChanInv(s, j) && ListOk(s.k, SendQ(j));
      if j != h {
        forall i | 0 <= i < |Q(s.k, SendQ(j))|
          ensures Offer(s'.k, Q(s.k, SendQ(j))[i]) == Offer(s.k, Q(s.k, SendQ(j))[i])
        {
          var t := Q(s.k, SendQ(j))[i];
          assert PcFits(s.pcs[t], s.k.tasks[t].state);
        }
        OffersSame(s.k, s'.k, Q(s.k, SendQ(j)));
      }
    }
    forall t | 0 <= t < |s'.pcs|
      ensures PeerInv(s', t)
    {
      assert PeerInv(s, t);
    }
  }

  // ------------------------------------------------------------------ logs

  /** A value was handed to a waiting receiver or buffered. */
  lemma AcceptedKeeps(s: Sys, s': Sys, h: nat, v: Value)
    requires KernelInv(s.k) && PcInv(s) && ChanInv(s) && h < |s.chans| == |s'.chans|
    requires ListOk(s.k, RecvQ(h))
    requires H.Accept(s.k, s.chans[h].chan, RecvQ(h), v).Some?
    requires s'.chans[h] == Accepted(s.k, s.chans[h], H.Accept(s.k, s.chans[h].chan, RecvQ(h), v).value.1, RecvQ(h), v)
    requires Q(s'.k, SendQ(h)) == Q(s.k, SendQ(h)) && Offers(s'.k, Q(s.k, SendQ(h))) == Offers(s.k, Q(s.k, SendQ(h)))
    requires Q(s.k, RecvQ(h)) == [] ==> Q(s'.k, RecvQ(h)) == []
    ensures OneChanInv(s', h)
  {
    assert OneChanInv(s, h);
    var log, log' := s.chans[h], s'.chans[h];
    assert log'.accepted == log'.delivered + log'.chan.items;
    assert multiset(log'.sent) == multiset(log.sent) + multiset{v};
    assert multiset(log'.accepted) == multiset(log.accepted) + multiset{v};
  }

  lemma OffersPushed(k: Kern, k': Kern, q: seq<nat>, t: nat, v: Value)
    requires t < |k'.tasks| && k'.tasks[t].ptr == Parked(v)
    requires forall j :: 0 <= j < |q| ==> Offer(k', q[j]) == Offer(k, q[j])
    ensures multiset(Offers(k', [t] + q)) == multiset{v} + multiset(Offers(k, q))
  {
    assert Offers(k', [t] + q) == [v] + Offers(k, q);
  }

  lemma OffersPopped(k: Kern, k': Kern, q: seq<nat>, i: nat)
    requires i < |q| && forall j :: 0 <= j < |q| ==> Offer(k', q[j]) == Offer(k, q[j])
    ensures multiset(Offers(k, q)) == multiset(Offers(k', Without(q, i))) + multiset{Offer(k, q[i])}
  {
    assert Offers(k', Without(q, i)) == Without(Offers(k, q), i);
    WithoutMultiset(Offers(k, q), i);
  }

  // ------------------------------------------------------------------ the tasks in the channel's calls

  /** Nobody's place changed, and no inbox. */
  lemma PeersStay(s: Sys, s': Sys, h: nat)
    requires PcInv(s) && PcInv(s') && ChanInv(s) && s'.pcs == s.pcs && s'.k.tasks == s.k.tasks
    requires h < |s.chans| == |s'.chans| && s'.chans[h].inbox == s.chans[h].inbox
    ensures forall t :: 0 <= t < |s.pcs| && OfChan(s'.pcs[t], h) ==> PeerInv(s', t)
  {
    forall t | 0 <= t < |s.pcs| && OfChan(s'.pcs[t], h)
      ensures PeerInv(s', t)
    {
      assert PeerInv(s, t);
    }
  }

  /** A receiver was woken with `v` in its slot. */
  lemma PeersAfterHandOff(s: Sys, s': Sys, h: nat, v: Value)
    requires PcInv(s) && PcInv(s') && ChanInv(s) && s'.pcs == s.pcs && Woke(s.k, s'.k, RecvQ(h), Filled(v))
    requires h < |s.chans| == |s'.chans| && s'.chans[h].inbox == s.chans[h].inbox[BestWaiter(s.k, RecvQ(h)) := v]
    ensures forall t :: 0 <= t < |s.pcs| && OfChan(s'.pcs[t], h) ==> PeerInv(s', t)
  {
    forall t | 0 <= t < |s.pcs| && OfChan(s'.pcs[t], h)
      ensures PeerInv(s', t)
    {
      assert PeerInv(s, t) && PcFits(s.pcs[t], s.k.tasks[t].state);
    }
  }

  /** A sender was woken. */
  lemma PeersAfterRefill(s: Sys, s': Sys, h: nat)
    requires PcInv(s) && PcInv(s') && ChanInv(s) && s'.pcs == s.pcs && ListOk(s.k, SendQ(h)) && Q(s.k, SendQ(h)) != []
    requires Woke(s.k, s'.k, SendQ(h), s.k.tasks[BestWaiter(s.k, SendQ(h))].ptr)
    requires h < |s.chans| == |s'.chans| && s'.chans[h].inbox == s.chans[h].inbox
    ensures forall t :: 0 <= t < |s.pcs| && OfChan(s'.pcs[t], h) ==> PeerInv(s', t)
  {
    forall t | 0 <= t < |s.pcs| && OfChan(s'.pcs[t], h)
      ensures PeerInv(s', t)
    {
      assert PeerInv(s, t) && PcFits(s.pcs[t], s.k.tasks[t].state);
    }
  }

  /** The running task parked. */
  lemma PeersAfterPark(s: Sys, s': Sys, h: nat, l: ListId, p: WaitPtr, pc: Pc)
    requires PcInv(s) && PcInv(s') && ChanInv(s) && ParkedOn(s.k, s'.k, l, p) && s'.pcs == s.pcs[s.k.cur := pc]
    requires h < |s.chans| == |s'.chans| && s'.chans[h].inbox == s.chans[h].inbox
    requires (exists v :: pc == InSend(h, v) && p == Parked(v)) || (pc == InRecv(h) && p == Hole)
    ensures forall t :: 0 <= t < |s.pcs| && OfChan(s'.pcs[t], h) ==> PeerInv(s', t)
  {
    forall t | 0 <= t < |s.pcs| && OfChan(s'.pcs[t], h)
      ensures PeerInv(s', t)
    {
      assert PeerInv(s, t);
    }
  }

  lemma WakeApart(s: Sys, s': Sys, h: nat, l: ListId, p: WaitPtr)
    requires PcInv(s) && PcInv(s') && s'.pcs == s.pcs && Woke(s.k, s'.k, l, p) && (l == SendQ(h) || l == RecvQ(h))
    requires h < |s.chans| == |s'.chans| && forall j :: 0 <= j < |s.chans| && j != h ==> s'.chans[j] == s.chans[j]
    ensures ChansApart(s, s', h)
  {
    var w := BestWaiter(s.k, l);
    assert PcFits(s.pcs[w], s.k.tasks[w].state);
  }

  lemma ParkApart(s: Sys, s': Sys, h: nat, l: ListId, p: WaitPtr, pc: Pc)
    requires PcInv(s) && PcInv(s') && ParkedOn(s.k, s'.k, l, p)
    requires s'.pcs == s.pcs[s.k.cur := pc] && s.pcs[s.k.cur] == Free
    requires (l == SendQ(h) || l == RecvQ(h)) && OfChan(pc, h)
    requires h < |s.chans| == |s'.chans| && forall j :: 0 <= j < |s.chans| && j != h ==> s'.chans[j] == s.chans[j]
    ensures ChansApart(s, s', h)
  {
  }

  // ------------------------------------------------------------------ the shared parts

  /** The value was accepted: the step `s'` that `send` and `try_send` share. */
  ghost predicate Accepts(s: Sys, s': Sys, h: nat, v: Value)
    requires Started(s.k) && h < |s.chans| && ListOk(s.k, RecvQ(h))
  {
    var r := H.Accept(s.k, s.chans[h].chan, RecvQ(h), v);
    r.Some? && s' == s.(k := r.value.0, chans := s.chans[h := Accepted(s.k, s.chans[h], r.value.1, RecvQ(h), v)])
  }

  lemma HandOffSound(s: Sys, s': Sys, h: nat, v: Value)
    requires KernelInv(s.k) && PcInv(s) && ChanInv(s) && h < |s.chans| && ListOk(s.k, RecvQ(h))
    requires Accepts(s, s', h, v) && Q(s.k, RecvQ(h)) != []
    ensures Sound(s, s', Channels)
  {
    var rl := RecvQ(h);
    WaiterWakes(s, s', rl, Filled(v), Channels);
    WakeApart(s, s', h, rl, Filled(v));
    assert ListOk(s.k, SendQ(h));
    OffersSame(s.k, s'.k, Q(s.k, SendQ(h)));
    PeersAfterHandOff(s, s', h, v);
    AcceptedKeeps(s, s', h, v);
    ChanInvKept(s, s', h);
  }

  lemma BufferSound(s: Sys, s': Sys, h: nat, v: Value)
    requires KernelInv(s.k) && PcInv(s) && ChanInv(s) && h < |s.chans| && ListOk(s.k, RecvQ(h))
    requires Accepts(s, s', h, v) && Q(s.k, RecvQ(h)) == []
    ensures Sound(s, s', Channels)
  {
    NoneTouched(s, s', Channels);
    PeersStay(s, s', h);
    AcceptedKeeps(s, s', h, v);
    ChanInvKept(s, s', h);
  }

  /** What `send` and `try_send` do when the value finds a taker. */
  lemma AcceptSound(s: Sys, s': Sys, h: nat, v: Value)
    requires KernelInv(s.k) && PcInv(s) && ChanInv(s) && h < |s.chans| && ListOk(s.k, RecvQ(h))
    requires Accepts(s, s', h, v)
    ensures Sound(s, s', Channels)
  {
    if Q(s.k, RecvQ(h)) == [] {
      BufferSound(s, s', h, v);
    } else {
      HandOffSound(s, s', h, v);
    }
  }

  /** The oldest item moves from the ring to the delivered ones, and `extra` moves in behind. */
  lemma RingShifts(delivered: seq<Value>, items: seq<Value>, extra: seq<Value>)
    requires items != []
    ensures (delivered + items) + extra == (delivered + [items[0]]) + (items[1..] + extra)
    ensures items[1..] + [] == items[1..]
  {
  }

  /** The ring after a delivery, with the sender's value let in. */
  lemma DeliveredKeeps(s: Sys, s': Sys, h: nat)
    requires PcInv(s) && ChanInv(s) && h < |s.chans| == |s'.chans|
    requires ListOk(s.k, SendQ(h)) && s.chans[h].chan.items != []
    requires Started(s.k) && H.SendersParked(s.k, SendQ(h))
    requires s'.chans[h] == Delivered(s.k, s.chans[h], H.Deliver(s.k, s.chans[h].chan, SendQ(h)).value.1, SendQ(h))
    requires Q(s'.k, RecvQ(h)) == Q(s.k, RecvQ(h))
    requires if Q(s.k, SendQ(h)) == [] then Q(s'.k, SendQ(h)) == []
             else Woke(s.k, s'.k, SendQ(h), s.k.tasks[BestWaiter(s.k, SendQ(h))].ptr)
    ensures OneChanInv(s', h)
  {
    var l, log, log' := SendQ(h), s.chans[h], s'.chans[h];
    assert OneChanInv(s, h);
    if Q(s.k, l) == [] {
      RingShifts(log.delivered, log.chan.items, []);
    } else {
      var v := Offer(s.k, BestWaiter(s.k, l));
      RingShifts(log.delivered, log.chan.items, [v]);
      OffersPopped(s.k, s'.k, Q(s.k, l), Best(s.k, l));
      assert multiset(log.accepted + [v]) == multiset(log.accepted) + multiset{v};
    }
  }

  /** What `recv` and `try_recv` do when there is an item. */
  lemma RefillWakes(s: Sys, s': Sys, h: nat)
    requires KernelInv(s.k) && PcInv(s) && ChanInv(s) && h < |s.chans| == |s'.chans|
    requires ListOk(s.k, SendQ(h)) && Q(s.k, SendQ(h)) != [] && s'.k == WakeBest(s.k, SendQ(h)) && s'.pcs == s.pcs
    requires s'.chans[h].inbox == s.chans[h].inbox
    requires forall j :: 0 <= j < |s.chans| && j != h ==> s'.chans[j] == s.chans[j]
    ensures Within(s, s', Channels) && Calm(s.k, s'.k) && ChansApart(s, s', h)
    ensures Woke(s.k, s'.k, SendQ(h), s.k.tasks[BestWaiter(s.k, SendQ(h))].ptr)
    ensures forall t :: 0 <= t < |s.pcs| && OfChan(s'.pcs[t], h) ==> PeerInv(s', t)
  {
    var l, p := SendQ(h), s.k.tasks[BestWaiter(s.k, SendQ(h))].ptr;
    RouseAsRouseWith(s.k, l, Best(s.k, l));
    WaiterWakes(s, s', l, p, Channels);
    WakeApart(s, s', h, l, p);
    PeersAfterRefill(s, s', h);
  }

  lemma DeliverSound(s: Sys, s': Sys, h: nat)
    requires KernelInv(s.k) && PcInv(s) && ChanInv(s) && h < |s.chans|
    requires ListOk(s.k, SendQ(h)) && H.SendersParked(s.k, SendQ(h)) && s.chans[h].chan.items != []
    requires var r := H.Deliver(s.k, s.chans[h].chan, SendQ(h)).value;
      s' == s.(k := r.0, chans := s.chans[h := Delivered(s.k, s.chans[h], r.1, SendQ(h))])
    ensures Sound(s, s', Channels)
  {
    var l := SendQ(h);
    if Q(s.k, l) == [] {
      NoneTouched(s, s', Channels);
      PeersStay(s, s', h);
    } else {
      RefillWakes(s, s', h);
    }
    DeliveredKeeps(s, s', h);
    ChanInvKept(s, s', h);
  }

  // ------------------------------------------------------------------ the steps

  lemma SendSound(s: Sys, h: nat, v: Value)
    requires KernelInv(s.k) && PcInv(s) && ChanInv(s) && Thread(s) && h < |s.chans|
    ensures Sound(s, SendStep(s, h, v), Channels)
  {
    SendersOffer(s, h);
    if H.Accept(s.k, s.chans[h].chan, RecvQ(h), v).Some? {
      AcceptSound(s, SendStep(s, h, v), h, v);
    } else {
      SendParksSound(s, SendStep(s, h, v), h, v);
    }
  }

  lemma SendParksSound(s: Sys, s': Sys, h: nat, v: Value)
    requires KernelInv(s.k) && PcInv(s) && ChanInv(s) && Thread(s) && h < |s.chans|
    requires Q(s.k, RecvQ(h)) == [] && |s.chans[h].chan.items| >= s.chans[h].chan.cap
    requires s' == s.(k := Park(SetPtr(s.k, s.k.cur, Parked(v)), SendQ(h)), pcs := s.pcs[s.k.cur := InSend(h, v)],
                      chans := s.chans[h := s.chans[h].(sent := s.chans[h].sent + [v])])
    ensures Sound(s, s', Channels)
  {
    RunnerParks(s, s', SendQ(h), Parked(v), InSend(h, v), Channels);
    SendParksKept(s, s', h, v);
  }

  lemma SendParksKept(s: Sys, s': Sys, h: nat, v: Value)
    requires KernelInv(s.k) && PcInv(s) && PcInv(s') && ChanInv(s) && s.pcs[s.k.cur] == Free && h < |s.chans|
    requires Q(s.k, RecvQ(h)) == [] && |s.chans[h].chan.items| >= s.chans[h].chan.cap
    requires ParkedOn(s.k, s'.k, SendQ(h), Parked(v)) && s'.pcs == s.pcs[s.k.cur := InSend(h, v)]
    requires s'.chans == s.chans[h := s.chans[h].(sent := s.chans[h].sent + [v])]
    ensures ChanInv(s')
  {
    assert OneChanInv(s, h) && ListOk(s.k, SendQ(h));
    OffersPushed(s.k, s'.k, Q(s.k, SendQ(h)), s.k.cur, v);
    assert multiset(s'.chans[h].sent) == multiset(s.chans[h].sent) + multiset{v};
    ParkApart(s, s', h, SendQ(h), Parked(v), InSend(h, v));
    PeersAfterPark(s, s', h, SendQ(h), Parked(v), InSend(h, v));
    ChanInvKept(s, s', h);
  }

  lemma TrySendSound(s: Sys, h: nat, v: Value)
    requires KernelInv(s.k) && PcInv(s) && ChanInv(s) && h < |s.chans|
    ensures Sound(s, TrySendStep(s, h, v), Channels)
  {
    SendersOffer(s, h);
    var s' := TrySendStep(s, h, v);
    if H.Accept(s.k, s.chans[h].chan, RecvQ(h), v).Some? {
      AcceptSound(s, s', h, v);
    } else {
      assert OneChanInv(s, h);
      NoneTouched(s, s', Channels);
      assert multiset(s'.chans[h].sent) == multiset(s.chans[h].sent) + multiset{v};
      assert multiset(s'.chans[h].rejected) == multiset(s.chans[h].rejected) + multiset{v};
      PeersStay(s, s', h);
      ChanInvKept(s, s', h);
    }
  }

  lemma RecvSound(s: Sys, h: nat)
    requires KernelInv(s.k) && PcInv(s) && ChanInv(s) && Thread(s) && h < |s.chans|
    ensures Sound(s, RecvStep(s, h), Channels)
  {
    SendersOffer(s, h);
    var s' := RecvStep(s, h);
    if s.chans[h].chan.items != [] {
      DeliverSound(s, s', h);
    } else {
      assert OneChanInv(s, h) && ListOk(s.k, SendQ(h));
      RunnerParks(s, s', RecvQ(h), Hole, InRecv(h), Channels);
      OffersSame(s.k, s'.k, Q(s.k, SendQ(h)));
      ParkApart(s, s', h, RecvQ(h), Hole, InRecv(h));
      PeersAfterPark(s, s', h, RecvQ(h), Hole, InRecv(h));
      ChanInvKept(s, s', h);
    }
  }

  lemma TryRecvSound(s: Sys, h: nat)
    requires KernelInv(s.k) && PcInv(s) && ChanInv(s) && h < |s.chans|
    ensures Sound(s, TryRecvStep(s, h), Channels)
  {
    SendersOffer(s, h);
    var s' := TryRecvStep(s, h);
    if s.chans[h].chan.items != [] {
      DeliverSound(s, s', h);
    } else {
      NoneTouched(s, s', Channels);
    }
  }
}
