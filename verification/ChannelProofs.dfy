/** Every channel operation keeps the order of values and never leaves a thread asleep that should not be. */
module ChannelProofs {
  import opened Options
  import opened Channel

  ghost predicate Core(s: State)
  {
    InOrder(s) && Full(s) && Offers(s) && Waiters(s) && Threads(s)
  }

  /** What t counts on in s, it has in r. */
  ghost predicate Keeps(s: State, r: State, t: nat)
  {
    && t in s.ph && t in r.ph && r.ph[t] == s.ph[t]
    && (t in r.parked ==> t in s.parked)
    && (t in s.parked && t !in r.parked ==> Staged(r, t))
    && (Staged(s, t) ==> Staged(r, t)) && (t in s.woken ==> t in r.woken)
    && (t in s.recvq && t !in r.recvq ==> t !in r.parked && (t !in s.parked ==> t in r.woken))
    && s.done <= r.done && (s.closed ==> r.closed)
    && (forall id: nat | OnQueue(s, t, id) ::
          OnQueue(r, t, id) || (Settled(r, id) && t !in r.parked && (t !in s.parked ==> t in r.woken)))
  }

  lemma ThreadAt(s: State, t: nat)
    requires Threads(s) && t in s.ph
    ensures ThreadOk(s, t)
  {}

  lemma KeepsOk(s: State, r: State, t: nat)
    requires Threads(s) && Keeps(s, r, t)
    ensures ThreadOk(r, t)
  {
    ThreadAt(s, t);
  }

  lemma AllKeep(s: State, r: State)
    requires Threads(s) && forall t | t in r.ph :: Keeps(s, r, t)
    ensures Threads(r)
  {
    hide ThreadOk, Keeps;
    forall t | t in r.ph
      ensures ThreadOk(r, t)
    {
      KeepsOk(s, r, t);
    }
  }

  lemma SameQueue(s: State, r: State, t: nat)
    requires r.sendq == s.sendq
    ensures forall id: nat :: OnQueue(s, t, id) <==> OnQueue(r, t, id)
  {}

  /** Neither the queues nor the tokens have changed. */
  lemma SameThreads(s: State, r: State)
    requires Threads(s) && r.ph == s.ph && r.sendq == s.sendq && r.recvq == s.recvq && r.parked == s.parked
    requires r.woken == s.woken && r.wake == s.wake && r.ring == s.ring
    requires r.done == s.done && r.closed == s.closed
    ensures Threads(r)
  {
    forall t | t in r.ph
      ensures Keeps(s, r, t)
    {
      SameQueue(s, r, t);
    }
    AllKeep(s, r);
  }

  /* ---- waking receivers ---- */

  lemma WakeOk(s: State)
    requires Core(s)
    ensures Inv(WakeReceivers(s))
  {
    hide ThreadOk;
    var r := WakeReceivers(s);
    forall t | t in r.ph
      ensures Keeps(s, r, t)
    {
      SameQueue(s, r, t);
    }
    AllKeep(s, r);
  }

  /** A wake from outside: another channel, a port, a timer. */
  lemma StrayInv(s: State, t: nat)
    requires Inv(s)
    ensures Inv(Ready(s, t))
  {
    hide ThreadOk;
    var r := Ready(s, t);
    forall u | u in r.ph
      ensures Keeps(s, r, u)
    {
      SameQueue(s, r, u);
    }
    AllKeep(s, r);
  }

  /* ---- nbsend ---- */

  lemma BufferCore(s: State, v: nat)
    requires Inv(s) && |s.buf| < s.cap
    ensures Core(s.(buf := s.buf + [v], accepted := s.accepted + [v]))
  {
    hide ThreadOk;
    var r := s.(buf := s.buf + [v], accepted := s.accepted + [v]);
    assert s.sendq == [];
    assert Values(s.sendq) == [];
    SameThreads(s, r);
  }

  lemma AppendOffer(s: State, r: State, o: Offer, t: nat)
    requires r.sendq == s.sendq + [o]
    ensures forall id: nat | OnQueue(s, t, id) :: OnQueue(r, t, id)
    ensures o.co == Some(t) ==> OnQueue(r, t, o.id)
  {
    forall id: nat | OnQueue(s, t, id)
      ensures OnQueue(r, t, id)
    {
      var i :| 0 <= i < |s.sendq| && s.sendq[i] == Offer(s.sendq[i].v, Some(t), id);
      assert r.sendq[i] == s.sendq[i];
    }
    assert r.sendq[|s.sendq|] == o;
  }

  lemma AppendOrder(s: State, r: State, o: Offer)
    requires InOrder(s) && r.sendq == s.sendq + [o] && r.got == s.got && r.buf == s.buf
    requires r.accepted == s.accepted + [o.v]
    ensures InOrder(r)
  {
    ValuesAdd(s.sendq, [o]);
    assert Values([o]) == [o.v];
  }

  lemma DepositCore(s: State, v: nat)
    requires Inv(s) && s.cap == 0 && s.recvq != []
    ensures Core(s.(sendq := s.sendq + [Offer(v, None, s.nextId)], nextId := s.nextId + 1,
                    accepted := s.accepted + [v]))
  {
    hide ThreadOk, InOrder;
    var o := Offer(v, None, s.nextId);
    var r := s.(sendq := s.sendq + [o], nextId := s.nextId + 1, accepted := s.accepted + [v]);
    AppendOrder(s, r, o);
    forall t | t in r.ph
      ensures Keeps(s, r, t)
    {
      AppendOffer(s, r, o, t);
    }
    AllKeep(s, r);
  }

  lemma NbSendInv(s: State, v: nat)
    requires Inv(s) && Room(s)
    ensures Inv(NbSend(s, v)) && NbSend(s, v).accepted == s.accepted + [v]
  {
    hide Threads, Offers;
    if |s.buf| < s.cap {
      BufferCore(s, v);
      WakeOk(s.(buf := s.buf + [v], accepted := s.accepted + [v]));
    } else {
      DepositCore(s, v);
      WakeOk(s.(sendq := s.sendq + [Offer(v, None, s.nextId)], nextId := s.nextId + 1, accepted := s.accepted + [v]));
    }
  }

  /* ---- send's registration ---- */

  lemma NotQueued(s: State, t: nat)
    requires Offers(s) && Waiters(s) && t in s.ph && s.ph[t] == Run
    ensures t !in s.recvq && forall i | 0 <= i < |s.sendq| :: s.sendq[i].co != Some(t)
  {}

  /** A running thread takes up a new phase that stands on its own; the others keep what they had. */
  lemma OneMoves(s: State, r: State, t: nat)
    requires Threads(s) && t in r.ph && ThreadOk(r, t) && forall u | u in r.ph && u != t :: Keeps(s, r, u)
    ensures Threads(r)
  {
    hide ThreadOk, Keeps;
    forall u | u in r.ph
      ensures ThreadOk(r, u)
    {
      if u != t {
        KeepsOk(s, r, u);
      }
    }
  }

  lemma SendQueued(s: State, r: State, t: nat, v: nat)
    requires Inv(s) && t in s.ph && s.ph[t] == Run && !s.closed && !Room(s)
    requires r == s.(sendq := s.sendq + [Offer(v, Some(t), s.nextId)], nextId := s.nextId + 1,
                     ph := s.ph[t := SendReg(s.nextId)], accepted := s.accepted + [v])
    ensures Threads(r)
  {
    var o := Offer(v, Some(t), s.nextId);
    ThreadAt(s, t);
    AppendOffer(s, r, o, t);
    forall u | u in r.ph && u != t
      ensures Keeps(s, r, u)
    {
      AppendOffer(s, r, o, u);
    }
    OneMoves(s, r, t);
  }

  lemma SendRegisterInv(s: State, t: nat, v: nat)
    requires Inv(s) && t in s.ph && s.ph[t] == Run && !s.closed && !Room(s)
    ensures Inv(SendRegister(s, t, v)) && SendRegister(s, t, v).accepted == s.accepted + [v]
  {
    hide Threads, InOrder;
    var o := Offer(v, Some(t), s.nextId);
    var r := s.(sendq := s.sendq + [o], nextId := s.nextId + 1, ph := s.ph[t := SendReg(s.nextId)],
                accepted := s.accepted + [v]);
    NotQueued(s, t);
    AppendOrder(s, r, o);
    SendQueued(s, r, t, v);
    WakeOk(r);
  }

  /* ---- nbrecv ---- */

  /** s without its first offer, that offer served. */
  ghost predicate Served(s: State, r: State)
  {
    && s.sendq != [] && r.sendq == s.sendq[1..] && r.done == s.done + {s.sendq[0].id} && r.closed == s.closed
    && r.nextId == s.nextId
    && r.ph == s.ph && r.recvq == s.recvq
    && var m := Serve(s, s.sendq[0]);
       r.parked == m.parked && r.woken == m.woken && r.wake == m.wake && r.ring == m.ring
  }

  lemma ServedOffers(s: State, r: State)
    requires Offers(s) && Served(s, r)
    ensures Offers(r)
  {
    assert forall j | 0 <= j < |r.sendq| :: r.sendq[j] == s.sendq[j + 1];
  }

  lemma ServedKeeps(s: State, r: State, t: nat)
    requires Offers(s) && Served(s, r) && t in s.ph
    ensures Keeps(s, r, t)
  {
    forall id: nat | OnQueue(s, t, id)
      ensures OnQueue(r, t, id) || (Settled(r, id) && t !in r.parked && (t !in s.parked ==> t in r.woken))
    {
      var i :| 0 <= i < |s.sendq| && s.sendq[i] == Offer(s.sendq[i].v, Some(t), id);
      if i > 0 {
        assert r.sendq[i - 1] == s.sendq[i];
      }
    }
  }

  lemma ServedThreads(s: State, r: State)
    requires Threads(s) && Offers(s) && Served(s, r)
    ensures Threads(r)
  {
    hide ThreadOk, Keeps, Offers;
    forall t | t in r.ph
      ensures Keeps(s, r, t)
    {
      ServedKeeps(s, r, t);
    }
    AllKeep(s, r);
  }

  lemma ValuesCons(q: seq<Offer>)
    requires q != []
    ensures Values(q) == [q[0].v] + Values(q[1..])
  {}

  /** The oldest of what is held moves to what was received. */
  lemma TakeFirst(got: seq<nat>, held: seq<nat>, after: seq<nat>)
    requires held != [] && after == held[1..]
    ensures got + held == got + [held[0]] + after && (got + held)[|got|] == held[0]
  {}

  lemma NbRecvFrame(s: State)
    requires s.sendq != []
    ensures NbRecv(s).sendq == s.sendq[1..] && NbRecv(s).accepted == s.accepted
    ensures NbRecv(s).got == s.got + [(s.buf + [s.sendq[0].v])[0]] && NbRecv(s).buf == (s.buf + [s.sendq[0].v])[1..]
  {}

  /** The value received is the next one accepted. */
  lemma RecvOrder(s: State)
    requires InOrder(s) && Something(s)
    ensures InOrder(NbRecv(s)) && NbRecv(s).accepted == s.accepted
    ensures |s.got| < |s.accepted| && NbRecv(s).got == s.got + [s.accepted[|s.got|]]
  {
    hide Values, Serve;
    var r := NbRecv(s);
    var held, after := s.buf + Values(s.sendq), r.buf + Values(r.sendq);
    if s.sendq == [] {
      NoValues();
    } else {
      ValuesCons(s.sendq);
      NbRecvFrame(s);
    }
    TakeFirst(s.got, held, after);
    assert s.got + held == s.accepted;
  }

  lemma NbRecvServes(s: State)
    requires s.sendq != []
    ensures Served(s, NbRecv(s)) && NbRecv(s).cap == s.cap && |NbRecv(s).buf| == |s.buf|
  {
    var o := s.sendq[0];
    if o.co.Some? {
      assert Serve(s, o) == Ready(s.(done := s.done + {o.id}), o.co.value);
    }
  }

  lemma NbRecvInv(s: State)
    requires Inv(s) && Something(s)
    ensures Inv(NbRecv(s)) && NbRecv(s).accepted == s.accepted
    ensures |s.got| < |s.accepted| && NbRecv(s).got == s.got + [s.accepted[|s.got|]]
  {
    hide Threads, Offers, InOrder, Served;
    RecvOrder(s);
    var r := NbRecv(s);
    if s.sendq == [] {
      SameThreads(s, r);
      SameOffers(s, r);
    } else {
      NbRecvServes(s);
      ServedOffers(s, r);
      ServedThreads(s, r);
    }
  }

  lemma SameOffers(s: State, r: State)
    requires Offers(s) && r.sendq == s.sendq && r.nextId == s.nextId && r.done == s.done && r.ph == s.ph
    requires r.closed == s.closed
    ensures Offers(r)
  {}

  /* ---- recv's registration ---- */

  lemma RecvRegisterInv(s: State, t: nat)
    requires Inv(s) && t in s.ph && s.ph[t] == Run && !Something(s) && !s.closed
    ensures Inv(RecvRegister(s, t))
  {
    var r := RecvRegister(s, t);
    NotQueued(s, t);
    ThreadAt(s, t);
    forall u | u in r.ph && u != t
      ensures Keeps(s, r, u)
    {
      SameQueue(s, r, u);
    }
    OneMoves(s, r, t);
  }

  /* ---- close ---- */

  lemma {:induction false} DepositsHead(q: seq<Offer>)
    requires forall i | 0 <= i < |q| && q[i].co == None :: i == 0
    ensures Deposits(q) == (if q != [] && q[0].co == None then [q[0]] else [])
  {
    if q != [] {
      NoDeposits(q[1..]);
    }
  }

  lemma {:induction false} NoDeposits(q: seq<Offer>)
    requires forall i | 0 <= i < |q| :: q[i].co != None
    ensures Deposits(q) == []
    decreases |q|
  {
    if q != [] {
      NoDeposits(q[1..]);
    }
  }

  /** Every queued sender dropped and readied, and nothing else. */
  ghost predicate Dropped(s: State, r: State)
  {
    && r.sendq == Deposits(s.sendq) && r.closed && r.done == s.done && r.nextId == s.nextId && r.ph == s.ph
    && r.recvq == s.recvq
    && var ts := Senders(s.sendq);
       r.parked == s.parked - ts && r.woken == s.woken + (ts - s.parked) && r.wake == s.wake + ts && r.ring == s.ring
  }

  lemma DroppedKeeps(s: State, r: State, t: nat)
    requires Offers(s) && Waiters(s) && Dropped(s, r) && t in s.ph
    ensures Keeps(s, r, t)
  {
    forall id: nat | OnQueue(s, t, id)
      ensures t in Senders(s.sendq)
    {
      var i :| 0 <= i < |s.sendq| && s.sendq[i] == Offer(s.sendq[i].v, Some(t), id);
    }
  }

  lemma DroppedOffers(s: State, r: State)
    requires Offers(s) && Dropped(s, r)
    ensures Offers(r)
  {
    DepositsHead(s.sendq);
  }

  lemma DroppedOrder(s: State, r: State)
    requires InOrder(s) && Offers(s) && Dropped(s, r) && r.buf == s.buf && r.got == s.got
    requires r.accepted == s.got + s.buf + Values(r.sendq)
    ensures r.accepted <= s.accepted && (s.sendq != [] && s.sendq[0].co == None ==> r.sendq == [s.sendq[0]])
    ensures (r.sendq != [] ==> s.sendq != [])
  {
    hide Values;
    DepositsHead(s.sendq);
    if s.sendq != [] && s.sendq[0].co == None {
      ValuesCons(s.sendq);
      ValuesCons(r.sendq);
      NoValues();
    } else {
      NoValues();
    }
  }

  lemma NoValues()
    ensures Values([]) == []
  {}

  lemma CloseCore(s: State, r: State)
    requires Inv(s) && Dropped(s, r) && r.cap == s.cap && r.buf == s.buf && r.got == s.got
    requires r.accepted == s.got + s.buf + Values(r.sendq)
    ensures Core(r) && r.accepted <= s.accepted
  {
    hide Threads, Offers, Dropped, Keeps, Values;
    DroppedOrder(s, r);
    DroppedOffers(s, r);
    DroppedFrame(s, r);
    forall t | t in r.ph
      ensures Keeps(s, r, t)
    {
      DroppedKeeps(s, r, t);
    }
    AllKeep(s, r);
  }

  lemma DroppedFrame(s: State, r: State)
    requires Dropped(s, r)
    ensures r.ph == s.ph && r.recvq == s.recvq
  {}

  /** Closing drops only values whose senders are still queued. What stays accepted is what was accepted first:
      everything received, everything buffered, and every deposit. */
  lemma CloseInv(s: State)
    requires Inv(s)
    ensures Inv(Close(s)) && Close(s).accepted <= s.accepted && Close(s).got == s.got && Close(s).closed
    ensures Close(s).buf == s.buf && Close(s).accepted == s.got + s.buf + Values(Close(s).sendq)
    ensures forall o | o in Close(s).sendq :: o in s.sendq && o.co == None
    ensures forall o | o in s.sendq && o.co == None :: o in Close(s).sendq
  {
    hide Inv, Core, Values;
    if s.closed {
      ClosedQueue(s);
    } else {
      var ts := Senders(s.sendq);
      var keep := Deposits(s.sendq);
      var r := s.(closed := true, sendq := keep, parked := s.parked - ts, woken := s.woken + (ts - s.parked),
                  wake := s.wake + ts,
                  accepted := s.got + s.buf + Values(keep));
      CloseCore(s, r);
      WakeOk(r);
      DepositsAll(s.sendq);
    }
  }

  lemma ClosedQueue(s: State)
    requires Inv(s) && s.closed
    ensures (forall o | o in s.sendq :: o.co == None) && s.accepted == s.got + s.buf + Values(s.sendq)
  {}

  lemma {:induction false} DepositsAll(q: seq<Offer>)
    ensures forall o :: o in Deposits(q) <==> o in q && o.co == None
    decreases |q|
  {
    if q != [] {
      DepositsAll(q[1..]);
      assert q == [q[0]] + q[1..];
    }
  }

  /* ---- parking and coming back ---- */

  /** Only t's own phase and tokens change. */
  lemma OwnStep(s: State, r: State, t: nat)
    requires Inv(s) && t in s.ph && t in r.ph
    requires r == s.(ph := r.ph, parked := r.parked, woken := r.woken, wake := r.wake)
    requires r.ph == s.ph[t := r.ph[t]] && r.parked - {t} == s.parked - {t} && r.woken - {t} == s.woken - {t}
    requires r.wake - {t} == s.wake - {t}
    requires ThreadOk(r, t)
    requires forall id: nat | Sending(s.ph[t], id) && OnQueue(s, t, id) :: Sending(r.ph[t], id)
    requires t in s.recvq ==> r.ph[t] == RecvReg || r.ph[t] == RecvParked || r.ph[t] == RecvBack
    ensures Inv(r)
  {
    hide ThreadOk;
    forall u | u in r.ph && u != t
      ensures Keeps(s, r, u)
    {
      SameQueue(s, r, u);
      assert u in r.parked - {t} <==> u in s.parked - {t};
      assert u in r.woken - {t} <==> u in s.woken - {t};
      assert u in r.wake - {t} <==> u in s.wake - {t};
    }
    OneMoves(s, r, t);
    forall i | 0 <= i < |s.sendq| && s.sendq[i].co == Some(t)
      ensures Sending(r.ph[t], s.sendq[i].id)
    {
      assert s.sendq[i] == Offer(s.sendq[i].v, Some(t), s.sendq[i].id);
      assert OnQueue(s, t, s.sendq[i].id);
    }
  }

  lemma ParkInv(s: State, t: nat)
    requires Inv(s) && t in s.ph && (s.ph[t].RecvReg? || s.ph[t].SendReg?)
    ensures Inv(Park(s, t))
  {
    var r := Park(s, t);
    ThreadAt(s, t);
    SameQueue(s, r, t);
    OwnStep(s, r, t);
  }

  lemma DrainInv(s: State, order: seq<nat>)
    requires Inv(s) && Lists(order, s.wake)
    ensures Inv(Drain(s, order))
  {
    hide ThreadOk;
    var r := Drain(s, order);
    forall u | u in r.ph
      ensures Keeps(s, r, u)
    {
      SameQueue(s, r, u);
    }
    AllKeep(s, r);
  }

  lemma RequeueInv(s: State, t: nat)
    requires Inv(s)
    ensures Inv(s.(ring := s.ring + [t]))
  {
    hide ThreadOk;
    var r := s.(ring := s.ring + [t]);
    forall u | u in r.ph
      ensures Keeps(s, r, u)
    {
      SameQueue(s, r, u);
    }
    AllKeep(s, r);
  }

  lemma ResumeInv(s: State)
    requires Inv(s) && s.ring != []
    ensures Inv(Resume(s))
  {
    var t, r := s.ring[0], Resume(s);
    assert s.ring == [t] + r.ring;
    if t in s.ph {
      ThreadAt(s, t);
      SameQueue(s, r, t);
      TurnOver(s, r, t);
    } else {
      ForgetTurn(s, r, t);
    }
  }

  /** Off the ring, t has its own step to make; the others are where they were. */
  lemma TurnOver(s: State, r: State, t: nat)
    requires Inv(s) && t in s.ph && t in r.ph && s.ring == [t] + r.ring
    requires r == s.(ring := r.ring, ph := s.ph[t := r.ph[t]])
    requires ThreadOk(r, t) && (r.ph[t] == s.ph[t] || (s.ph[t] == RecvParked && r.ph[t] == RecvBack)
                                || (s.ph[t].SendParked? && r.ph[t] == SendBack(s.ph[t].id)))
    ensures Inv(r)
  {
    hide ThreadOk;
    forall u | u in r.ph && u != t
      ensures Keeps(s, r, u)
    {
      SameQueue(s, r, u);
    }
    OneMoves(s, r, t);
  }

  lemma ForgetTurn(s: State, r: State, t: nat)
    requires Inv(s) && t !in s.ph && s.ring == [t] + r.ring && r == s.(ring := r.ring)
    ensures Inv(r)
  {
    hide ThreadOk;
    forall u | u in r.ph
      ensures Keeps(s, r, u)
    {
      SameQueue(s, r, u);
    }
    AllKeep(s, r);
  }

  lemma SendAgainInv(s: State, t: nat)
    requires Inv(s) && t in s.ph && s.ph[t].SendBack?
    ensures Inv(SendAgain(s, t))
  {
    var r := SendAgain(s, t);
    ThreadAt(s, t);
    SameQueue(s, r, t);
    if Settled(s, s.ph[t].id) {
      SettledLeft(s, t, s.ph[t].id);
    }
    OwnStep(s, r, t);
  }

  lemma SettledLeft(s: State, t: nat, id: nat)
    requires Offers(s) && Settled(s, id)
    ensures !OnQueue(s, t, id)
  {}

  lemma {:induction false} WithoutOne(q: seq<nat>, t: nat)
    requires Distinct(q)
    ensures Distinct(Without(q, t)) && forall u :: u in Without(q, t) <==> u in q && u != t
    decreases |q|
  {
    if q != [] && q[0] != t {
      WithoutOne(q[1..], t);
      assert q == [q[0]] + q[1..];
      forall u
        ensures u in Without(q, t) <==> u in q && u != t
      {}
      forall i, j | 0 <= i < j < |Without(q, t)|
        ensures Without(q, t)[i] != Without(q, t)[j]
      {
        if i == 0 {
          assert Without(q[1..], t)[j - 1] in Without(q[1..], t);
          assert q[0] !in q[1..];
        }
      }
    }
  }

  lemma RecvAgainInv(s: State, t: nat)
    requires Inv(s) && t in s.ph && s.ph[t] == RecvBack
    ensures Inv(RecvAgain(s, t)) && t !in RecvAgain(s, t).recvq
  {
    hide Without;
    var r := RecvAgain(s, t);
    ThreadAt(s, t);
    WithoutOne(s.recvq, t);
    assert r.recvq != [] ==> r.recvq[0] in s.recvq;
    forall u | u in r.ph && u != t
      ensures Keeps(s, r, u)
    {
      SameQueue(s, r, u);
    }
    OneMoves(s, r, t);
  }

  /* ---- whole runs ---- */

  lemma FreshInv(cap: nat)
    ensures Inv(Fresh(cap))
  {}

  lemma BeginInv(s: State, t: nat)
    requires Inv(s) && t !in s.ph && t !in s.parked
    ensures Inv(s.(ph := s.ph[t := Run]))
  {
    var r := s.(ph := s.ph[t := Run]);
    forall u | u in r.ph && u != t
      ensures Keeps(s, r, u)
    {
      SameQueue(s, r, u);
    }
    OneMoves(s, r, t);
  }

  lemma StepInv(s: State, e: Event)
    requires Inv(s) && Enabled(s, e)
    ensures Inv(Do(s, e))
  {
    hide Inv;
    match e
    case Begin(t) => BeginInv(s, t);
    case TrySend(v) => NbSendInv(s, v);
    case SendPark(t, v) => SendRegisterInv(s, t, v);
    case TryRecv => NbRecvInv(s);
    case RecvPark(t) => RecvRegisterInv(s, t);
    case Shut => CloseInv(s);
    case Sleep(t) => ParkInv(s, t);
    case Staging(order) => DrainInv(s, order);
    case Turn => ResumeInv(s);
    case Again(t) => RequeueInv(s, t);
    case RecvOn(t) => RecvAgainInv(s, t);
    case SendOn(t) => SendAgainInv(s, t);
    case Stray(t) => StrayInv(s, t);
  }

  /** Every run of every mix of threads on a channel of any capacity keeps the invariant. */
  lemma {:induction false} RunInv(s: State, es: seq<Event>, r: State)
    requires Inv(s) && Follows(s, es, r)
    ensures Inv(r)
    decreases |es|
  {
    hide Inv;
    if es != [] {
      StepInv(s, es[0]);
      RunInv(Do(s, es[0]), es[1..], r);
    }
  }

  ghost predicate Reachable(s: State)
  {
    exists cap: nat, es: seq<Event> :: Follows(Fresh(cap), es, s)
  }

  lemma ReachableInv(s: State)
    requires Reachable(s)
    ensures Inv(s)
  {
    hide Inv;
    var cap: nat, es: seq<Event> :| Follows(Fresh(cap), es, s);
    FreshInv(cap);
    RunInv(Fresh(cap), es, s);
  }

  /** Received values are the accepted ones, each once, in order of acceptance, and a receiver
      that finds the channel drained and closed has seen every one of them. */
  lemma FirstInFirstOut(s: State)
    requires Reachable(s)
    ensures s.got <= s.accepted
    ensures !Something(s) ==> s.got == s.accepted
    ensures Something(s) ==> |s.got| < |s.accepted| && NbRecv(s).got == s.got + [s.accepted[|s.got|]]
  {
    ReachableInv(s);
    if Something(s) {
      NbRecvInv(s);
    } else {
      NoValues();
    }
  }

  /** One step receives at most one value and takes nothing back. What was accepted grows at the end;
      only a close shortens it, and not past what is buffered or deposited. */
  lemma StepHistory(s: State, e: Event)
    requires Inv(s) && Enabled(s, e)
    ensures
      || Do(s, e).got == s.got
      || (e == TryRecv && |s.got| < |s.accepted| && Do(s, e).got == s.got + [s.accepted[|s.got|]])
    ensures e == Shut ==> Do(s, e).accepted <= s.accepted
    ensures e.TrySend? || e.SendPark? ==> Do(s, e).accepted == s.accepted + [e.v]
    ensures e != Shut && !e.TrySend? && !e.SendPark? ==> Do(s, e).accepted == s.accepted
    ensures s.closed ==> Do(s, e).closed && Do(s, e).accepted == s.accepted
  {
    hide Inv, Values, Senders, Deposits;
    match e
    case TryRecv => NbRecvInv(s);
    case Shut => CloseInv(s);
    case TrySend(v) => NbSendInv(s, v);
    case SendPark(t, v) => SendRegisterInv(s, t, v);
    case _ =>
  }

  /** Over a whole run nothing received is taken back, and after a close the accepted values are fixed. */
  lemma {:induction false} RunHistory(s: State, es: seq<Event>, r: State)
    requires Inv(s) && Follows(s, es, r)
    ensures s.got <= r.got
    ensures s.closed ==> r.closed && r.accepted == s.accepted
    decreases |es|
  {
    hide Inv, Do, Enabled;
    if es != [] {
      StepInv(s, es[0]);
      StepHistory(s, es[0]);
      RunHistory(Do(s, es[0]), es[1..], r);
    }
  }

  /** Threads wait to receive only on an open channel that holds nothing. */
  lemma WaitersFaceNothing(s: State)
    requires Reachable(s) && s.recvq != []
    ensures s.buf == [] && s.sendq == [] && !s.closed
  {
    ReachableInv(s);
  }

  /** A thread asleep in recv faces an open, empty channel and is where the next send will look for it. */
  lemma ReceiverSleepsForCause(s: State, t: nat)
    requires Reachable(s) && t in s.ph && s.ph[t] == RecvParked && t in s.parked
    ensures t in s.recvq && s.buf == [] && s.sendq == [] && !s.closed
  {
    ReachableInv(s);
    ThreadAt(s, t);
  }

  /** A thread asleep in send faces a full, open channel with no receiver waiting, its value still on offer. */
  lemma SenderSleepsForCause(s: State, t: nat)
    requires Reachable(s) && t in s.ph && s.ph[t].SendParked? && t in s.parked
    ensures OnQueue(s, t, s.ph[t].id) && s.ph[t].id !in s.done && !s.closed && |s.buf| == s.cap && s.recvq == []
  {
    ReachableInv(s);
    ThreadAt(s, t);
  }

  /** A wake between registering and parking is not slept through: parking then does not sleep. */
  lemma WakeBeforePark(s: State, t: nat)
    requires Reachable(s) && t in s.ph && (s.ph[t].RecvReg? || s.ph[t].SendReg?)
    requires (s.ph[t].RecvReg? && t !in s.recvq) || (s.ph[t].SendReg? && !OnQueue(s, t, s.ph[t].id))
    ensures t !in Park(s, t).parked && t !in Park(s, t).woken
    ensures (Park(s, t).ph[t].RecvBack? || Park(s, t).ph[t].SendBack?)
    ensures s.ph[t].SendReg? ==> Settled(s, s.ph[t].id)
  {
    ReachableInv(s);
    ThreadAt(s, t);
  }

  /** A thread that has been readied, whatever readied it, is staged or in the ring. */
  lemma ReadiedRuns(s: State, t: nat)
    requires Reachable(s) && t in s.ph && (s.ph[t].RecvParked? || s.ph[t].SendParked?) && t !in s.parked
    ensures t in s.wake || t in s.ring
  {
    ReachableInv(s);
    ThreadAt(s, t);
  }

  /** Where a thread next comes up in the ring. */
  ghost function Ahead(q: seq<nat>, t: nat): (n: nat)
    requires t in q
    ensures n < |q| && q[n] == t
  {
    if q[0] == t then 0 else 1 + Ahead(q[1..], t)
  }

  lemma {:induction false} AheadKept(q: seq<nat>, r: seq<nat>, t: nat)
    requires t in q
    ensures t in q + r && Ahead(q + r, t) == Ahead(q, t)
    decreases |q|
  {
    if q[0] != t {
      assert (q + r)[1..] == q[1..] + r;
      AheadKept(q[1..], r, t);
    }
  }

  /** Nothing overtakes a thread in the ring: each turn brings it one place nearer or runs it, every other event
      leaves it where it is, and staging puts every thread readied into the ring. So a readied thread runs after at
      most one staging and as many turns as the ring then holds before it. */
  lemma RingAdvances(s: State, e: Event, t: nat)
    requires Enabled(s, e)
    ensures t in s.ring && e != Turn ==> t in Do(s, e).ring && Ahead(Do(s, e).ring, t) == Ahead(s.ring, t)
    ensures t in s.ring && e == Turn && s.ring[0] != t ==>
      t in Do(s, e).ring && Ahead(Do(s, e).ring, t) == Ahead(s.ring, t) - 1
    ensures e == Turn && s.ring[0] == t && t in s.ph ==> !Do(s, e).ph[t].RecvParked? && !Do(s, e).ph[t].SendParked?
    ensures t in s.wake && e.Staging? ==> t in Do(s, e).ring
    ensures t in s.wake && !e.Staging? ==> t in Do(s, e).wake
  {
    hide Ahead;
    if e == Turn {
      hide Do, Enabled;
      TurnIs(s);
      if t in s.ring && s.ring[0] != t {
        AheadNext(s.ring, t);
      }
    } else {
      RingFrame(s, e);
      hide Do, Enabled;
      if t in s.ring {
        AheadKept(s.ring, Do(s, e).ring[|s.ring|..], t);
        assert Do(s, e).ring == s.ring + Do(s, e).ring[|s.ring|..];
      }
    }
  }

  lemma RingFrame(s: State, e: Event)
    requires Enabled(s, e) && e != Turn
    ensures s.ring <= Do(s, e).ring
    ensures e.Staging? ==> forall t | t in s.wake :: t in Do(s, e).ring
    ensures !e.Staging? ==> s.wake <= Do(s, e).wake
  {
    hide Deposits, Senders, Values, Without, Room, Something;
  }

  lemma TurnIs(s: State)
    requires s.ring != []
    ensures Enabled(s, Turn) && Do(s, Turn).ring == s.ring[1..] && Do(s, Turn).wake == s.wake
    ensures Do(s, Turn).ph.Keys == s.ph.Keys
    ensures s.ring[0] in s.ph ==> !Do(s, Turn).ph[s.ring[0]].RecvParked? && !Do(s, Turn).ph[s.ring[0]].SendParked?
  {}

  lemma AheadNext(q: seq<nat>, t: nat)
    requires t in q && q[0] != t
    ensures t in q[1..] && Ahead(q[1..], t) == Ahead(q, t) - 1
  {}
}
