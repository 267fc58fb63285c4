/** The channel's fields, changed in place as the thread library changes them. */
module ChannelCode {
  import opened Options
  import opened Channel
  import opened ChannelProofs

  datatype SendResult = Sent | Refused | Raised

  /* ---- what the operations promise ---- */

  /** Exactly the threads ts were readied: none of them is parked, all are staged, and each that was not parked has a
      token. */
  ghost predicate Readied(s: State, r: State, ts: set<nat>)
  {
    && (forall t :: t in r.parked <==> t in s.parked && t !in ts)
    && (forall t :: t in r.wake <==> t in s.wake || t in ts)
    && (forall t :: t in r.woken <==> t in s.woken || (t in ts && t !in s.parked))
  }

  /** v was taken in: last in the buffer if it had room, else last on the queue as an offer nobody is parked on. Every
      receiver is off the queue and readied. */
  ghost predicate TookIn(s: State, r: State, v: nat)
  {
    && r.recvq == [] && Readied(s, r, set t | t in s.recvq)
    && r == s.(buf := r.buf, sendq := r.sendq, nextId := r.nextId, recvq := [], accepted := s.accepted + [v],
               parked := r.parked, woken := r.woken, wake := r.wake)
    && (|s.buf| < s.cap ==> r.buf == s.buf + [v] && r.sendq == s.sendq && r.nextId == s.nextId)
    && (|s.buf| >= s.cap ==>
          r.buf == s.buf && r.sendq == s.sendq + [Offer(v, None, s.nextId)] && r.nextId == s.nextId + 1)
  }

  /** v is last on the queue, its sender t about to park on it, and every receiver is off the queue and readied. */
  ghost predicate Offered(s: State, r: State, t: nat, v: nat)
  {
    && r.recvq == [] && Readied(s, r, set x | x in s.recvq)
    && r == s.(sendq := s.sendq + [Offer(v, Some(t), s.nextId)], nextId := s.nextId + 1, recvq := [],
               ph := s.ph[t := SendReg(s.nextId)], accepted := s.accepted + [v],
               parked := r.parked, woken := r.woken, wake := r.wake)
  }

  /** v, the oldest value there was, is gone, and the rest stand in the order they had. The first offer, if there was
      one, is off the queue and done, its sender readied. */
  ghost predicate GaveOut(s: State, r: State, v: nat)
  {
    && s.buf + Values(s.sendq) == [v] + r.buf + Values(r.sendq)
    && r == s.(buf := r.buf, sendq := r.sendq, done := r.done, got := s.got + [v],
               parked := r.parked, woken := r.woken, wake := r.wake)
    && if s.sendq == [] then r.sendq == [] && r.done == s.done && Readied(s, r, {})
       else
         && r.sendq == s.sendq[1..] && r.done == s.done + {s.sendq[0].id}
         && Readied(s, r, if s.sendq[0].co.Some? then {s.sendq[0].co.value} else {})
  }

  /** Closed: of the queue only a deposit is left, which is at its head; every other sender and every receiver is
      readied. */
  ghost predicate ShutDown(s: State, r: State)
  {
    && Readied(s, r, Senders(s.sendq) + set t | t in s.recvq)
    && r == s.(closed := true, recvq := [], sendq := r.sendq, accepted := s.got + s.buf + Values(r.sendq),
               parked := r.parked, woken := r.woken, wake := r.wake)
    && r.sendq == if s.sendq != [] && s.sendq[0].co == None then [s.sendq[0]] else []
  }

  lemma WakeIs(s: State)
    ensures WakeReceivers(s).recvq == [] && Readied(s, WakeReceivers(s), set t | t in s.recvq)
  {}

  lemma NbSendIs(s: State, v: nat)
    requires Room(s)
    ensures TookIn(s, Channel.NbSend(s, v), v)
  {}

  lemma SendRegisterIs(s: State, t: nat, v: nat)
    ensures Offered(s, SendRegister(s, t, v), t, v)
  {}

  lemma NbRecvIs(s: State)
    requires Something(s)
    ensures GaveOut(s, Channel.NbRecv(s), if s.buf != [] then s.buf[0] else s.sendq[0].v)
  {
    hide Values;
    assert s.buf != [] ==> s.buf == [s.buf[0]] + s.buf[1..];
    if s.sendq != [] {
      FirstValue(s.sendq);
      assert s.buf + [s.sendq[0].v] + Values(s.sendq[1..]) == s.buf + ([s.sendq[0].v] + Values(s.sendq[1..]));
    }
  }

  lemma FirstValue(q: seq<Offer>)
    requires q != []
    ensures Values(q) == [q[0].v] + Values(q[1..])
  {
    assert q == [q[0]] + q[1..];
    ValuesAdd([q[0]], q[1..]);
  }

  lemma CloseIs(s: State)
    requires Inv(s) && !s.closed
    ensures ShutDown(s, Channel.Close(s))
  {
    hide ThreadOk, OnQueue;
    if s.sendq != [] {
      NoDeposits(s.sendq[1..]);
    }
  }

  lemma {:induction false} NoDeposits(q: seq<Offer>)
    requires forall o | o in q :: o.co.Some?
    ensures Deposits(q) == []
  {
    if q != [] {
      NoDeposits(q[1..]);
    }
  }

  /* ---- the proofs the code needs ---- */

  /** One receiver readied now is one fewer to ready later. */
  lemma WakeOne(s: State)
    requires s.recvq != [] && Distinct(s.recvq)
    ensures Distinct(s.recvq[1..]) && WakeReceivers(Ready(s.(recvq := s.recvq[1..]), s.recvq[0])) == WakeReceivers(s)
  {
    MembersFirst(s.recvq);
    hide Members, Distinct;
    ReadySets(s.parked, s.woken, s.wake, Members(s.recvq[1..]), s.recvq[0]);
  }

  lemma MembersFirst(q: seq<nat>)
    requires q != [] && Distinct(q)
    ensures Distinct(q[1..]) && q[0] !in Members(q[1..]) && Members(q) == Members(q[1..]) + {q[0]}
  {
    assert q == [q[0]] + q[1..];
  }

  lemma ReadySets(parked: set<nat>, woken: set<nat>, wake: set<nat>, us: set<nat>, t: nat)
    requires t !in us
    ensures parked - {t} - us == parked - (us + {t}) && wake + {t} + us == wake + (us + {t})
    ensures t in parked ==> woken + (us - (parked - {t})) == woken + ((us + {t}) - parked)
    ensures t !in parked ==> woken + {t} + (us - parked) == woken + ((us + {t}) - parked)
  {}

  lemma WakeNone(s: State)
    requires s.recvq == []
    ensures WakeReceivers(s) == s
  {
    assert Members(s.recvq) == {};
  }

  lemma {:induction false} DepositsAdd(q: seq<Offer>, o: Offer)
    ensures Deposits(q + [o]) == Deposits(q) + (if o.co == None then [o] else [])
    decreases |q|
  {
    if q != [] {
      assert (q + [o])[1..] == q[1..] + [o];
      DepositsAdd(q[1..], o);
    }
  }

  lemma SendersAdd(q: seq<Offer>, o: Offer)
    ensures Senders(q + [o]) == Senders(q) + (if o.co == None then {} else {o.co.value})
  {
    var r := q + [o];
    assert r[|q|] == o && forall i | 0 <= i < |q| :: r[i] == q[i];
    forall t | t in Senders(q)
      ensures t in Senders(r)
    {
      var i :| 0 <= i < |q| && q[i].co == Some(t);
      assert r[i].co == Some(t);
    }
  }

  /** No thread has two offers on the queue. */
  lemma OneOffer(s: State, i: nat)
    requires Offers(s) && i < |s.sendq| && s.sendq[i].co.Some?
    ensures s.sendq[i].co.value !in Senders(s.sendq[..i])
  {}

  /** Where the waiter stands, and the queue with that place closed up. */
  lemma {:induction false} WithoutAt(q: seq<nat>, t: nat, i: nat)
    requires i <= |q| && t !in q[..i] && (i < |q| ==> q[i] == t)
    ensures Without(q, t) == if i < |q| then q[..i] + q[i + 1..] else q
    decreases |q|
  {
    if q != [] && i > 0 {
      assert q[..i][0] == q[0];
      assert q[1..][..i - 1] == q[..i][1..];
      WithoutAt(q[1..], t, i - 1);
      Behind(q, i);
    }
  }

  lemma Behind(q: seq<nat>, i: nat)
    requires 0 < i <= |q|
    ensures i < |q| ==> [q[0]] + (q[1..][..i - 1] + q[1..][i..]) == q[..i] + q[i + 1..]
    ensures [q[0]] + q[1..] == q
  {}

  /** r is q with the first t taken out and the gap closed. */
  ghost predicate Unlinked(q: seq<nat>, r: seq<nat>, t: nat)
  {
    exists i | 0 <= i < |q| :: q[i] == t && t !in q[..i] && r == q[..i] + q[i + 1..]
  }

  function Phased(ph: map<nat, Phase>, t: nat): Option<Phase>
  {
    if t in ph then Some(ph[t]) else None
  }

  class ThreadChannel {
    const cap: nat
    var buf: seq<nat>
    var sendq: seq<Offer>
    var recvq: seq<nat>
    var closed: bool
    var done: set<nat>
    var nextId: nat
    var parked: set<nat>
    var woken: set<nat>
    var wake: set<nat>
    var ring: seq<nat>
    ghost var ph: map<nat, Phase>
    ghost var accepted: seq<nat>
    ghost var got: seq<nat>

    ghost function View(): State
      reads this
    {
      State(cap, buf, sendq, recvq, closed, done, parked, woken, wake, ring, ph, nextId, accepted, got)
    }

    constructor (c: nat)
      ensures View() == Fresh(c) && Inv(View())
    {
      cap := c;
      buf, sendq, recvq, closed := [], [], [], false;
      done, nextId, parked, woken, wake, ring := {}, 0, {}, {}, {}, [];
      ph, accepted, got := map[], [], [];
    }

    method ReadyThread(t: nat)
      modifies this
      ensures Readied(old(View()), View(), {t})
      ensures View() == Ready(old(View()), t)
    {
      if t in parked {
        parked := parked - {t};
      } else {
        woken := woken + {t};
      }
      wake := wake + {t};
    }

    method WakeAll()
      requires Distinct(recvq)
      modifies this
      ensures recvq == [] && Readied(old(View()), View(), set t | t in old(recvq))
      ensures View() == WakeReceivers(old(View()))
    {
      hide WakeReceivers, Ready;
      WakeIs(View());
      while recvq != []
        invariant Distinct(recvq)
        invariant WakeReceivers(View()) == WakeReceivers(old(View()))
        decreases |recvq|
      {
        ghost var s := View();
        WakeOne(s);
        var t := recvq[0];
        recvq := recvq[1..];
        assert View() == s.(recvq := s.recvq[1..]);
        ReadyThread(t);
        ReadyFrame(s.(recvq := s.recvq[1..]), t);
      }
      WakeNone(View());
    }

    static lemma ReadyFrame(s: State, t: nat)
      ensures Ready(s, t).recvq == s.recvq
    {}

    /** A send that does not wait: an error once closed, refused without room. */
    method NbSend(v: nat) returns (r: SendResult)
      requires Inv(View())
      modifies this
      ensures r == Raised <==> old(closed)
      ensures r == Sent <==> !old(closed) && (|old(buf)| < cap || (cap == 0 && old(recvq) != []))
      ensures r == Sent ==> TookIn(old(View()), View(), v)
      ensures r != Sent ==> View() == old(View())
      ensures Inv(View()) && (r == Sent ==> old(Room(View())) && View() == Channel.NbSend(old(View()), v))
    {
      hide Inv, WakeReceivers, TookIn, Readied;
      ReceiversDistinct(View());
      if closed {
        return Raised;
      }
      if |buf| < cap || (cap == 0 && |recvq| > 0) {
        NbSendInv(View(), v);
        NbSendIs(View(), v);
      }
      if |buf| < cap {
        buf := buf + [v];
        accepted := accepted + [v];
        WakeAll();
        return Sent;
      }
      if cap == 0 && |recvq| > 0 {
        sendq := sendq + [Offer(v, None, nextId)];
        nextId := nextId + 1;
        accepted := accepted + [v];
        WakeAll();
        return Sent;
      }
      return Refused;
    }

    static lemma ReceiversDistinct(s: State)
      requires Inv(s)
      ensures Distinct(s.recvq)
    {}

    /** The first queued offer, marked done and its sender, if one is waiting, readied. */
    method TakeSender() returns (o: Offer)
      requires sendq != []
      modifies this
      ensures o == old(sendq[0]) && View() == Serve(old(View()).(sendq := old(sendq)[1..]), o)
    {
      o := sendq[0];
      sendq := sendq[1..];
      done := done + {o.id};
      if o.co.Some? {
        ReadyThread(o.co.value);
      }
    }

    /** A receive that does not wait: the next value accepted, or word of the close once there is none, or nothing. */
    method NbRecv() returns (ok: bool, v: Option<nat>, over: bool)
      requires Inv(View())
      modifies this
      ensures old(buf) != [] || old(sendq) != [] ==>
        ok && !over && v.Some? && GaveOut(old(View()), View(), v.value)
      ensures old(buf) == [] && old(sendq) == [] ==>
        v == None && View() == old(View()) && ok == over == closed && got == accepted
      ensures v.Some? ==> |old(got)| < |accepted| && v == Some(accepted[|old(got)|])
      ensures Inv(View()) && (v.Some? ==> View() == Channel.NbRecv(old(View())))
    {
      hide Inv, Channel.NbRecv, GaveOut;
      if |buf| > 0 || |sendq| > 0 {
        NbRecvInv(View());
        NbRecvIs(View());
        var x := Next();
        assert got[|old(got)|] == x;
        return true, Some(x), false;
      }
      Drained(View());
      return closed, None, closed;
    }

    /** The oldest value there is; a waiting sender's takes its place in the buffer. */
    method Next() returns (v: nat)
      requires Something(View())
      modifies this
      ensures View() == Channel.NbRecv(old(View())) && got == old(got) + [v]
      ensures v == if old(buf) != [] then old(buf)[0] else old(sendq)[0].v
    {
      if |buf| > 0 {
        v := buf[0];
        got := got + [v];
        buf := buf[1..];
        if sendq != [] {
          var o := TakeSender();
          buf := buf + [o.v];
        }
      } else {
        var o := TakeSender();
        v := o.v;
        got := got + [v];
      }
    }

    static lemma Drained(s: State)
      requires Inv(s) && !Something(s)
      ensures s.got == s.accepted
    {
      NoValues();
    }

    /** Close: queued senders readied and dropped, deposits kept, receivers woken; a second close does nothing. */
    method Close()
      requires Inv(View())
      modifies this
      ensures if old(closed) then View() == old(View()) else ShutDown(old(View()), View())
      ensures View() == Channel.Close(old(View())) && Inv(View())
    {
      hide Inv, WakeReceivers, Deposits, Senders, ShutDown, Readied;
      ghost var s := View();
      CloseInv(s);
      if closed {
        return;
      }
      CloseIs(s);
      closed := true;
      var keep := DropSenders(s);
      ReceiversDistinct(s);
      sendq := keep;
      accepted := got + buf + Values(keep);
      WakeAll();
    }

    /** Ready every queued sender; what is left is the deposits. */
    method DropSenders(ghost s: State) returns (keep: seq<Offer>)
      requires Inv(s) && View() == s.(closed := true)
      modifies this`parked, this`woken, this`wake
      ensures keep == Deposits(s.sendq)
      ensures parked == s.parked - Senders(s.sendq) && woken == s.woken + (Senders(s.sendq) - s.parked)
      ensures wake == s.wake + Senders(s.sendq)
    {
      hide Deposits, Senders, ThreadOk;
      keep := [];
      NoSenders();
      var i := 0;
      while i < |sendq|
        invariant 0 <= i <= |sendq|
        invariant keep == Deposits(sendq[..i])
        invariant parked == s.parked - Senders(sendq[..i])
        invariant woken == s.woken + (Senders(sendq[..i]) - s.parked)
        invariant wake == s.wake + Senders(sendq[..i])
      {
        var o := sendq[i];
        assert sendq[..i + 1] == sendq[..i] + [o];
        DepositsAdd(sendq[..i], o);
        SendersAdd(sendq[..i], o);
        if o.co.Some? {
          OneOffer(s, i);
          var t := o.co.value;
          if t in parked {
            parked := parked - {t};
          } else {
            woken := woken + {t};
          }
          wake := wake + {t};
        } else {
          keep := keep + [o];
        }
        i := i + 1;
      }
      assert sendq[..i] == sendq;
    }

    static lemma NoSenders()
      ensures Deposits([]) == [] && Senders([]) == {}
    {}

    /** The first half of send: try, and failing that go on the queue. */
    method Send(t: nat, v: nat) returns (r: SendResult)
      requires Inv(View()) && t in ph && ph[t] == Run
      modifies this
      ensures r == Raised <==> old(closed)
      ensures r == Sent <==> !old(closed) && (|old(buf)| < cap || (cap == 0 && old(recvq) != []))
      ensures r == Sent ==> TookIn(old(View()), View(), v)
      ensures r == Raised ==> View() == old(View())
      ensures r == Refused ==> Offered(old(View()), View(), t, v)
      ensures Inv(View()) && (r == Sent ==> old(Room(View())) && View() == Channel.NbSend(old(View()), v))
      ensures r == Refused ==> View() == SendRegister(old(View()), t, v)
    {
      hide Inv, SendRegister, Channel.NbSend, TookIn, Offered;
      r := NbSend(v);
      if r == Refused {
        SendRegisterInv(View(), t, v);
        SendRegisterIs(View(), t, v);
        ReceiversDistinct(View());
        QueueSender(t, v);
      }
    }

    /** The offer queued, and every receiver woken to look at it. */
    method QueueSender(t: nat, v: nat)
      requires Distinct(recvq)
      modifies this
      ensures View() == SendRegister(old(View()), t, v)
    {
      hide WakeReceivers;
      sendq := sendq + [Offer(v, Some(t), nextId)];
      ph := ph[t := SendReg(nextId)];
      nextId := nextId + 1;
      accepted := accepted + [v];
      WakeAll();
    }

    /** The first half of recv: look, and finding nothing go on the queue; looking and registering is one step. */
    method Recv(t: nat) returns (ok: bool, v: Option<nat>, over: bool)
      requires Inv(View()) && t in ph && ph[t] == Run
      modifies this
      ensures old(buf) != [] || old(sendq) != [] ==>
        ok && !over && v.Some? && GaveOut(old(View()), View(), v.value)
      ensures old(buf) == [] && old(sendq) == [] && old(closed) ==>
        ok && over && v == None && View() == old(View()) && got == accepted
      ensures old(buf) == [] && old(sendq) == [] && !old(closed) ==>
        !ok && v == None && View() == old(View()).(recvq := old(recvq) + [t], ph := old(ph)[t := RecvReg])
      ensures v.Some? ==> |old(got)| < |accepted| && v == Some(accepted[|old(got)|])
      ensures Inv(View()) && (v.Some? ==> View() == Channel.NbRecv(old(View())))
    {
      hide Inv, Channel.NbRecv, GaveOut;
      ok, v, over := NbRecv();
      if !ok {
        RecvRegisterInv(View(), t);
        recvq := recvq + [t];
        ph := ph[t := RecvReg];
      }
    }

    /** True when the caller must yield; a token already there is consumed instead. */
    method ParkBegin(t: nat) returns (mustYield: bool)
      requires Inv(View()) && t in ph && (ph[t].RecvReg? || ph[t].SendReg?)
      modifies this
      ensures mustYield <==> t !in old(woken)
      ensures View() == if mustYield
        then old(View()).(parked := old(parked) + {t},
                          ph := old(ph)[t := if old(ph)[t].RecvReg? then RecvParked else SendParked(old(ph)[t].id)])
        else old(View()).(woken := old(woken) - {t},
                          ph := old(ph)[t := if old(ph)[t].RecvReg? then RecvBack else SendBack(old(ph)[t].id)])
      ensures Inv(View()) && View() == Park(old(View()), t) && (mustYield <==> t in parked)
    {
      hide Inv;
      ParkInv(View(), t);
      RegisteredNotParked(View(), t);
      ghost var p := ph[t];
      if t in woken {
        woken := woken - {t};
        ph := ph[t := if p.RecvReg? then RecvBack else SendBack(p.id)];
        return false;
      }
      parked := parked + {t};
      ph := ph[t := if p.RecvReg? then RecvParked else SendParked(p.id)];
      return true;
    }

    static lemma RegisteredNotParked(s: State, t: nat)
      requires Inv(s) && t in s.ph && (s.ph[t].RecvReg? || s.ph[t].SendReg?)
      ensures t !in s.parked
    {
      ThreadAt(s, t);
    }

    /** recv's continuation: the mark cleared, the waiter unlinked by closing up the queue. */
    method RecvResume(t: nat)
      requires Inv(View()) && t in ph && ph[t] == RecvBack
      modifies this
      ensures View() == old(View()).(parked := old(parked) - {t}, recvq := recvq, ph := old(ph)[t := Run])
      ensures if t in old(recvq) then Unlinked(old(recvq), recvq, t) else recvq == old(recvq)
      ensures Inv(View()) && View() == RecvAgain(old(View()), t)
    {
      hide Inv, Without;
      RecvAgainInv(View(), t);
      parked := parked - {t};
      Unlink(t);
      ph := ph[t := Run];
    }

    method Unlink(t: nat)
      modifies this`recvq
      ensures if t in old(recvq) then Unlinked(old(recvq), recvq, t) else recvq == old(recvq)
      ensures recvq == Without(old(recvq), t)
    {
      hide Without;
      ghost var q := recvq;
      var n, i := |recvq|, 0;
      while i < n && recvq[i] != t
        invariant 0 <= i <= n == |recvq| && recvq == q && t !in q[..i]
      {
        i := i + 1;
      }
      WithoutAt(q, t, i);
      if i < n {
        var j := i;
        while j < n - 1
          invariant i <= j <= n - 1 && |recvq| == n
          invariant forall k | 0 <= k < i || j <= k < n :: recvq[k] == q[k]
          invariant forall k | i <= k < j :: recvq[k] == q[k + 1]
        {
          assert recvq[j + 1] == q[j + 1];
          recvq := recvq[j := recvq[j + 1]];
          j := j + 1;
        }
        recvq := recvq[..n - 1];
        assert recvq == q[..i] + q[i + 1..];
      }
    }

    /** send's continuation: returns once the value was taken, raises on a close, else parks again. */
    method SendResume(t: nat, id: nat) returns (r: SendResult)
      requires Inv(View()) && t in ph && ph[t] == SendBack(id)
      modifies this
      ensures r == Sent <==> id in done
      ensures r == Raised <==> id !in done && closed
      ensures View() == old(View()).(parked := old(parked) - {t},
                                     ph := old(ph)[t := if r == Refused then SendReg(id) else Run])
      ensures Inv(View()) && View() == SendAgain(old(View()), t)
    {
      hide Inv;
      SendAgainInv(View(), t);
      parked := parked - {t};
      if id in done {
        ph := ph[t := Run];
        return Sent;
      }
      if closed {
        ph := ph[t := Run];
        return Raised;
      }
      ph := ph[t := SendReg(id)];
      return Refused;
    }

    /** drain_wake: everything staged goes into the ring once. */
    method DrainWake() returns (ghost order: seq<nat>)
      requires Inv(View())
      modifies this`wake, this`ring
      ensures wake == {} && ring == old(ring) + order && Distinct(order) && forall t :: t in order <==> t in old(wake)
      ensures Lists(order, old(wake)) && View() == Drain(old(View()), order) && Inv(View())
    {
      hide Inv;
      ghost var s := View();
      order := [];
      while wake != {}
        invariant wake <= s.wake && ring == s.ring + order && Distinct(order)
        invariant forall t :: t in order <==> t in s.wake && t !in wake
        decreases wake
      {
        var t :| t in wake;
        wake := wake - {t};
        ring := ring + [t];
        order := order + [t];
      }
      DrainInv(s, order);
    }

    /** pop: the thread whose turn it is, if any. */
    method NextTurn() returns (t: Option<nat>)
      requires Inv(View())
      modifies this`ring, this`ph
      ensures t == None <==> old(ring) == []
      ensures t == None ==> View() == old(View())
      ensures t.Some? ==> t.value == old(ring)[0] && ring == old(ring)[1..]
      ensures t.Some? ==> ph == match Phased(old(ph), t.value)
                                case Some(RecvParked) => old(ph)[t.value := RecvBack]
                                case Some(SendParked(id)) => old(ph)[t.value := SendBack(id)]
                                case _ => old(ph)
      ensures Inv(View()) && (t.Some? ==> View() == Resume(old(View())))
    {
      hide Inv;
      if ring == [] {
        return None;
      }
      ResumeInv(View());
      t := Some(ring[0]);
      ring := ring[1..];
      if t.value in ph {
        if ph[t.value].RecvParked? {
          ph := ph[t.value := RecvBack];
        } else if ph[t.value].SendParked? {
          ph := ph[t.value := SendBack(ph[t.value].id)];
        }
      }
    }
  }
}
