/** What every step of the wake protocol keeps. */
module WakeInv {
  import opened Options
  import opened Wake

  /** This cpu has won the claim on p and has yet to make it ready. */
  predicate Claims(u: Cpu, p: nat)
  {
    u.loop.Loop? && (u.loop.phase == Unlink || u.loop.phase == Ready) && u.loop.who == p
  }

  /** The owner of the port's bucket is still going to visit record w with a wake of this kind. */
  predicate Pending(s: State, port: nat, send: bool, w: nat)
  {
    Bucket(port) in s.owner && s.owner[Bucket(port)] in s.cpus &&
    var u := s.cpus[s.owner[Bucket(port)]];
    || Task(port, send) in u.tasks
    || (u.loop.Loop? && u.loop.port == port && u.loop.send == send && w in u.loop.rest)
  }

  /** A sleeper's case: registered, and either still unready or about to be woken. */
  predicate WantOk(s: State, p: nat, want: Want, w: nat)
  {
    && want.port in s.ports && w in s.recs && s.recs[w] == Waiter(p, want.port, IsSend(want), true)
    && (Unsatisfied(s.ports[want.port], p, want) || Pending(s, want.port, IsSend(want), w))
  }

  /** A waiter record that exists belongs to its proc's list or is the one being reaped; the proc still
      holds a right to the port; and it is linked exactly when onport says so. */
  predicate RecOk(s: State, w: nat)
    requires w in s.recs
  {
    var r := s.recs[w];
    && r.proc in s.procs && r.port in s.ports
    && (w in s.procs[r.proc].waits || s.procs[r.proc].cur == Some(w))
    && (r.onport ==> w in s.ports[r.port].waiters)
    && Hand(r.proc) in s.ports[r.port].refs
  }

  predicate PortOk(s: State, q: nat)
    requires q in s.ports
  {
    var x := s.ports[q];
    && Distinct(x.waiters)
    && (forall w | w in x.waiters :: w in s.recs && s.recs[w].port == q && s.recs[w].onport)
    && x.qbytes == Sum(x.queue)
    && (x.dead ==> x.queue == [])
    && x.refs != multiset{}
  }

  predicate ModeIs(s: State, c: Option<nat>, mode: Mode)
  {
    c.Some? && c.value in s.cpus && s.cpus[c.value].mode == mode
  }

  predicate ListsOk(s: State, p: nat)
    requires p in s.procs
  {
    var x := s.procs[p];
    && Distinct(x.waits)
    && (forall w | w in x.waits :: w in s.recs && s.recs[w].proc == p)
    && (x.cur.Some? ==> x.cur.value in s.recs && s.recs[x.cur.value].proc == p && x.cur.value !in x.waits
                        && (ModeIs(s, x.oncpu, Reap) || ModeIs(s, x.oncpu, User)))
  }

  predicate HandOk(s: State, p: nat)
    requires p in s.procs
  {
    var x := s.procs[p];
    && (x.oncpu.Some? ==> x.oncpu.value in s.cpus && s.cpus[x.oncpu.value].mode != Idle && s.cpus[x.oncpu.value].p == p)
    && x.blocks == x.wakes + (if x.status == BLOCKED then 1 else 0)
    && (x.status == BLOCKED ==> x.cur == None && (x.oncpu.Some? ==> ModeIs(s, x.oncpu, Yielded)))
    && (x.status == READY && !x.woken ==> x.waits == [] || ModeIs(s, x.oncpu, User))
    && (ModeIs(s, x.oncpu, User) ==>
          && x.status == READY && !x.woken
          && (x.cur.Some? ==> x.cur.value in s.recs && Covers(s, x.oncpu.value, s.recs[x.cur.value].port)))
    && (ModeIs(s, x.oncpu, User) ==>
          forall w | w in x.waits :: w in s.recs && s.recs[w].onport && Covers(s, x.oncpu.value, s.recs[w].port))
  }

  predicate SleepOk(s: State, p: nat)
    requires p in s.procs
  {
    var x := s.procs[p];
    x.status == BLOCKED ==>
      if x.woken then x.winner in s.cpus && Claims(s.cpus[x.winner], p)
      else
        && (forall want | want in x.wants :: WantOk(s, p, want, x.wants[want]))
        && (forall w | w in x.waits :: w in x.wants.Values)
  }

  predicate LoopOk(s: State, c: nat, l: Loop)
    requires l.Loop?
  {
    && l.port in s.ports && Covers(s, c, l.port) && Distinct(l.rest)
    && (forall w | w in l.rest :: w in s.ports[l.port].waiters)
    && (l.phase != Check ==> l.who in s.procs)
    && (l.phase == Claim || l.phase == Unlink ==>
          l.rest != [] && l.rest[0] in s.recs && s.recs[l.rest[0]].proc == l.who)
    && (l.phase == Claim ==> s.procs[l.who].woken || s.procs[l.who].status == BLOCKED)
    && (l.phase == Unlink || l.phase == Ready ==>
          s.procs[l.who].status == BLOCKED && s.procs[l.who].woken && s.procs[l.who].winner == c)
  }

  predicate CpuOk(s: State, c: nat)
    requires c in s.cpus
  {
    var u := s.cpus[c];
    && (u.mode != Idle ==> u.p in s.procs && s.procs[u.p].oncpu == Some(c))
    && (forall t | t in u.tasks :: t.port in s.ports && Covers(s, c, t.port))
    && (u.loop.Loop? ==> LoopOk(s, c, u.loop))
  }

  ghost predicate Recs(s: State) { forall w :: w in s.recs ==> RecOk(s, w) }
  ghost predicate Ports(s: State) { forall q :: q in s.ports ==> PortOk(s, q) }
  ghost predicate Lists(s: State) { forall p :: p in s.procs ==> ListsOk(s, p) }
  ghost predicate Hands(s: State) { forall p :: p in s.procs ==> HandOk(s, p) }
  ghost predicate Sleeps(s: State) { forall p :: p in s.procs ==> SleepOk(s, p) }
  ghost predicate Cpus(s: State) { forall c :: c in s.cpus ==> CpuOk(s, c) }

  ghost predicate Inv(s: State)
  {
    Recs(s) && Ports(s) && Lists(s) && Hands(s) && Sleeps(s) && Cpus(s)
  }

  /** Nothing running, nothing queued, nobody waiting. */
  ghost predicate Init(s: State)
  {
    && s.recs == map[] && s.owner == map[]
    && (forall p | p in s.procs :: s.procs[p] == Proc(READY, false, [], None, None, map[], 0, 0, 0))
    && (forall q | q in s.ports :: s.ports[q].queue == [] && s.ports[q].qbytes == 0 && !s.ports[q].dead
                                   && s.ports[q].waiters == [] && s.ports[q].refs != multiset{})
    && (forall c | c in s.cpus :: s.cpus[c].mode == Idle && Quiet(s.cpus[c]))
  }

  lemma InitInv(s: State)
    requires Init(s)
    ensures Inv(s)
  {}

  /* ---- frames: what a component does not depend on ---- */

  ghost predicate SameWaits(s: State, t: State)
  {
    && t.procs.Keys == s.procs.Keys
    && forall p | p in s.procs :: t.procs[p].waits == s.procs[p].waits && t.procs[p].cur == s.procs[p].cur
  }

  ghost predicate SameStanding(s: State, t: State)
  {
    && SameWaits(s, t)
    && forall p | p in s.procs ::
         var x, y := s.procs[p], t.procs[p];
         y.status == x.status && y.woken == x.woken && y.oncpu == x.oncpu && y.blocks == x.blocks && y.wakes == x.wakes
  }

  ghost predicate SameModes(s: State, t: State)
  {
    && t.cpus.Keys == s.cpus.Keys
    && forall c | c in s.cpus :: t.cpus[c].mode == s.cpus[c].mode && t.cpus[c].p == s.cpus[c].p
  }

  ghost predicate SameLinks(s: State, t: State)
  {
    && t.ports.Keys == s.ports.Keys
    && forall q | q in s.ports ::
         t.ports[q].waiters == s.ports[q].waiters && forall h | h in s.ports[q].refs && h.Hand? :: h in t.ports[q].refs
  }

  ghost predicate KeepsCovers(s: State, t: State)
  {
    forall b | b in s.owner :: b in t.owner && t.owner[b] == s.owner[b]
  }

  ghost predicate KeepsPending(s: State, t: State)
  {
    forall port, send, w :: Pending(s, port, send, w) ==> Pending(t, port, send, w)
  }

  ghost predicate SameClaims(s: State, t: State)
  {
    t.cpus.Keys == s.cpus.Keys && forall c, p | c in s.cpus :: Claims(s.cpus[c], p) ==> Claims(t.cpus[c], p)
  }

  lemma FrameRecs(s: State, t: State)
    requires Recs(s) && t.recs == s.recs && SameWaits(s, t) && SameLinks(s, t)
    ensures Recs(t)
  {}

  lemma FramePorts(s: State, t: State)
    requires Ports(s) && t.recs == s.recs && t.ports == s.ports
    ensures Ports(t)
  {}

  lemma FrameLists(s: State, t: State)
    requires Lists(s) && t.recs == s.recs && SameWaits(s, t) && SameModes(s, t)
    requires forall p | p in s.procs :: t.procs[p].oncpu == s.procs[p].oncpu
    ensures Lists(t)
  {}

  lemma FrameHands(s: State, t: State)
    requires Hands(s) && t.recs == s.recs && SameStanding(s, t) && SameModes(s, t) && KeepsCovers(s, t)
    ensures Hands(t)
  {}

  lemma FrameSleeps(s: State, t: State)
    requires Sleeps(s) && t.recs == s.recs && t.ports == s.ports && t.procs == s.procs
    requires KeepsPending(s, t) && SameClaims(s, t)
    ensures Sleeps(t)
  {}

  /* ---- the steps, one at a time ---- */

  lemma LockCpus(s: State, c: nat, b: nat)
    requires Cpus(s) && CanLock(s, c, b)
    ensures Cpus(DoLock(s, c, b))
  {}

  lemma LockInv(s: State, c: nat, b: nat)
    requires Inv(s) && CanLock(s, c, b)
    ensures Inv(DoLock(s, c, b))
  {
    hide Recs, Ports, Lists, Hands, Sleeps, Cpus;
    var t := DoLock(s, c, b);
    FrameRecs(s, t);
    FramePorts(s, t);
    FrameLists(s, t);
    FrameHands(s, t);
    FrameSleeps(s, t);
    LockCpus(s, c, b);
  }

  lemma LeaveHands(s: State, c: nat)
    requires Hands(s) && Cpus(s) && CanLeave(s, c)
    ensures Hands(DoLeave(s, c))
  {}

  lemma LeaveCpus(s: State, c: nat)
    requires Cpus(s) && CanLeave(s, c)
    ensures Cpus(DoLeave(s, c))
  {}

  lemma LeaveInv(s: State, c: nat)
    requires Inv(s) && CanLeave(s, c)
    ensures Inv(DoLeave(s, c))
  {
    hide Recs, Ports, Lists, Hands, Sleeps, Cpus;
    var t := DoLeave(s, c);
    FrameRecs(s, t);
    FramePorts(s, t);
    FrameLists(s, t);
    FrameSleeps(s, t);
    LeaveHands(s, c);
    LeaveCpus(s, c);
  }

  lemma SumAppend(q: seq<nat>, x: nat)
    ensures Sum(q + [x]) == Sum(q) + x
  {
    if q != [] {
      assert (q + [x])[1..] == q[1..] + [x];
      SumAppend(q[1..], x);
    }
  }

  lemma PushPorts(s: State, c: nat, port: nat, cost: nat)
    requires Ports(s) && CanPush(s, c, port, cost)
    ensures Ports(DoPush(s, c, port, cost))
  {
    SumAppend(s.ports[port].queue, cost);
  }

  lemma PushSleeps(s: State, c: nat, port: nat, cost: nat)
    requires Sleeps(s) && Cpus(s) && CanPush(s, c, port, cost)
    ensures Sleeps(DoPush(s, c, port, cost))
  {}

  lemma PushCpus(s: State, c: nat, port: nat, cost: nat)
    requires Cpus(s) && CanPush(s, c, port, cost)
    ensures Cpus(DoPush(s, c, port, cost))
  {}

  lemma PushInv(s: State, c: nat, port: nat, cost: nat)
    requires Inv(s) && CanPush(s, c, port, cost)
    ensures Inv(DoPush(s, c, port, cost))
  {
    hide Recs, Ports, Lists, Hands, Sleeps, Cpus;
    var t := DoPush(s, c, port, cost);
    FrameRecs(s, t);
    FrameLists(s, t);
    FrameHands(s, t);
    PushPorts(s, c, port, cost);
    PushSleeps(s, c, port, cost);
    PushCpus(s, c, port, cost);
  }

  lemma PopPorts(s: State, c: nat, port: nat)
    requires Ports(s) && CanPop(s, c, port)
    ensures Ports(DoPop(s, c, port))
  {}

  lemma PopSleeps(s: State, c: nat, port: nat)
    requires Sleeps(s) && Cpus(s) && CanPop(s, c, port)
    ensures Sleeps(DoPop(s, c, port))
  {}

  lemma PopCpus(s: State, c: nat, port: nat)
    requires Cpus(s) && CanPop(s, c, port)
    ensures Cpus(DoPop(s, c, port))
  {}

  lemma PopInv(s: State, c: nat, port: nat)
    requires Inv(s) && CanPop(s, c, port)
    ensures Inv(DoPop(s, c, port))
  {
    hide Recs, Ports, Lists, Hands, Sleeps, Cpus;
    var t := DoPop(s, c, port);
    FrameRecs(s, t);
    FrameLists(s, t);
    FrameHands(s, t);
    PopPorts(s, c, port);
    PopSleeps(s, c, port);
    PopCpus(s, c, port);
  }

  lemma RefUpPorts(s: State, c: nat, port: nat, holder: Holder)
    requires Ports(s) && CanRefUp(s, c, port, holder)
    ensures Ports(DoRefUp(s, c, port, holder))
  {}

  lemma RefUpSleeps(s: State, c: nat, port: nat, holder: Holder)
    requires Sleeps(s) && Hands(s) && Cpus(s) && CanRefUp(s, c, port, holder)
    ensures Sleeps(DoRefUp(s, c, port, holder))
  {}

  lemma RefUpCpus(s: State, c: nat, port: nat, holder: Holder)
    requires Cpus(s) && CanRefUp(s, c, port, holder)
    ensures Cpus(DoRefUp(s, c, port, holder))
  {}

  lemma RefUpInv(s: State, c: nat, port: nat, holder: Holder)
    requires Inv(s) && CanRefUp(s, c, port, holder)
    ensures Inv(DoRefUp(s, c, port, holder))
  {
    hide Recs, Ports, Lists, Hands, Sleeps, Cpus;
    var t := DoRefUp(s, c, port, holder);
    FrameRecs(s, t);
    FrameLists(s, t);
    FrameHands(s, t);
    RefUpPorts(s, c, port, holder);
    RefUpSleeps(s, c, port, holder);
    RefUpCpus(s, c, port, holder);
  }

  /** Whoever waits on a port holds a right to it, so a last reference is dropped only by a proc that does not wait. */
  lemma NoWaiters(s: State, c: nat, port: nat, holder: Holder)
    requires Recs(s) && CanUnrefLast(s, c, port, holder)
    ensures forall w | w in s.recs :: s.recs[w].port != port
  {
    forall w | w in s.recs
      ensures s.recs[w].port != port
    {
      assert RecOk(s, w);
    }
  }

  lemma UnrefRecs(s: State, c: nat, port: nat, holder: Holder, lastReceiver: bool)
    requires Recs(s) && CanUnref(s, c, port, holder, lastReceiver)
    ensures Recs(DoUnref(s, c, port, holder, lastReceiver))
  {}

  lemma UnrefPorts(s: State, c: nat, port: nat, holder: Holder, lastReceiver: bool)
    requires Ports(s) && CanUnref(s, c, port, holder, lastReceiver)
    ensures Ports(DoUnref(s, c, port, holder, lastReceiver))
  {}

  lemma UnrefSleeps(s: State, c: nat, port: nat, holder: Holder, lastReceiver: bool)
    requires Sleeps(s) && Cpus(s) && CanUnref(s, c, port, holder, lastReceiver)
    ensures Sleeps(DoUnref(s, c, port, holder, lastReceiver))
  {}

  lemma UnrefCpus(s: State, c: nat, port: nat, holder: Holder, lastReceiver: bool)
    requires Cpus(s) && CanUnref(s, c, port, holder, lastReceiver)
    ensures Cpus(DoUnref(s, c, port, holder, lastReceiver))
  {}

  lemma UnrefInv(s: State, c: nat, port: nat, holder: Holder, lastReceiver: bool)
    requires Inv(s) && CanUnref(s, c, port, holder, lastReceiver)
    ensures Inv(DoUnref(s, c, port, holder, lastReceiver))
  {
    hide Recs, Ports, Lists, Hands, Sleeps, Cpus;
    var t := DoUnref(s, c, port, holder, lastReceiver);
    FrameLists(s, t);
    FrameHands(s, t);
    UnrefRecs(s, c, port, holder, lastReceiver);
    UnrefPorts(s, c, port, holder, lastReceiver);
    UnrefSleeps(s, c, port, holder, lastReceiver);
    UnrefCpus(s, c, port, holder, lastReceiver);
  }

  lemma UnrefLastRecs(s: State, c: nat, port: nat, holder: Holder)
    requires Recs(s) && CanUnrefLast(s, c, port, holder)
    ensures Recs(DoUnrefLast(s, c, port, holder))
  {
    NoWaiters(s, c, port, holder);
  }

  lemma UnrefLastPorts(s: State, c: nat, port: nat, holder: Holder)
    requires Ports(s) && CanUnrefLast(s, c, port, holder)
    ensures Ports(DoUnrefLast(s, c, port, holder))
  {}

  lemma UnrefLastSleep(s: State, c: nat, port: nat, holder: Holder, p: nat)
    requires Recs(s) && Sleeps(s) && CanUnrefLast(s, c, port, holder) && p in s.procs
    ensures SleepOk(DoUnrefLast(s, c, port, holder), p)
  {
    NoWaiters(s, c, port, holder);
    assert SleepOk(s, p);
    hide Recs, Sleeps;
  }

  lemma UnrefLastSleeps(s: State, c: nat, port: nat, holder: Holder)
    requires Recs(s) && Sleeps(s) && CanUnrefLast(s, c, port, holder)
    ensures Sleeps(DoUnrefLast(s, c, port, holder))
  {
    hide SleepOk;
    forall p | p in s.procs
      ensures SleepOk(DoUnrefLast(s, c, port, holder), p)
    {
      UnrefLastSleep(s, c, port, holder, p);
    }
  }

  lemma UnrefLastCpus(s: State, c: nat, port: nat, holder: Holder)
    requires Cpus(s) && CanUnrefLast(s, c, port, holder)
    ensures Cpus(DoUnrefLast(s, c, port, holder))
  {}

  lemma UnrefLastInv(s: State, c: nat, port: nat, holder: Holder)
    requires Inv(s) && CanUnrefLast(s, c, port, holder)
    ensures Inv(DoUnrefLast(s, c, port, holder))
  {
    hide Recs, Ports, Lists, Hands, Sleeps, Cpus;
    var t := DoUnrefLast(s, c, port, holder);
    FrameLists(s, t);
    FrameHands(s, t);
    UnrefLastRecs(s, c, port, holder);
    UnrefLastPorts(s, c, port, holder);
    UnrefLastSleeps(s, c, port, holder);
    UnrefLastCpus(s, c, port, holder);
  }

  lemma NewPortRecs(s: State, c: nat, port: nat, holder: Holder)
    requires Recs(s) && CanNewPort(s, c, port, holder)
    ensures Recs(DoNewPort(s, c, port, holder))
  {}

  lemma NewPortPorts(s: State, c: nat, port: nat, holder: Holder)
    requires Ports(s) && CanNewPort(s, c, port, holder)
    ensures Ports(DoNewPort(s, c, port, holder))
  {}

  lemma NewPortSleeps(s: State, c: nat, port: nat, holder: Holder)
    requires Sleeps(s) && CanNewPort(s, c, port, holder)
    ensures Sleeps(DoNewPort(s, c, port, holder))
  {}

  lemma NewPortCpus(s: State, c: nat, port: nat, holder: Holder)
    requires Cpus(s) && CanNewPort(s, c, port, holder)
    ensures Cpus(DoNewPort(s, c, port, holder))
  {}

  lemma NewPortInv(s: State, c: nat, port: nat, holder: Holder)
    requires Inv(s) && CanNewPort(s, c, port, holder)
    ensures Inv(DoNewPort(s, c, port, holder))
  {
    hide Recs, Ports, Lists, Hands, Sleeps, Cpus;
    var t := DoNewPort(s, c, port, holder);
    FrameLists(s, t);
    FrameHands(s, t);
    NewPortRecs(s, c, port, holder);
    NewPortPorts(s, c, port, holder);
    NewPortSleeps(s, c, port, holder);
    NewPortCpus(s, c, port, holder);
  }

  lemma WithoutDistinct(q: seq<nat>, w: nat)
    requires Distinct(q)
    ensures Distinct(Without(q, w))
  {
    if q != [] {
      WithoutDistinct(q[1..], w);
      var r := Without(q[1..], w);
      assert q[0] !in q[1..];
      forall j | 0 <= j < |r|
        ensures r[j] != q[0]
      {
        assert r[j] in r;
      }
    }
  }

  lemma StartLoopWant(s: State, c: nat, p: nat, want: Want, w: nat)
    requires Recs(s) && CanStartLoop(s, c) && WantOk(s, p, want, w)
    ensures WantOk(DoStartLoop(s, c), p, want, w)
  {
    assert RecOk(s, w);
  }

  lemma StartLoopSleep(s: State, c: nat, p: nat)
    requires Recs(s) && Sleeps(s) && CanStartLoop(s, c) && p in s.procs
    ensures SleepOk(DoStartLoop(s, c), p)
  {
    hide WantOk, Recs;
    assert SleepOk(s, p);
    var x := s.procs[p];
    if x.status == BLOCKED && !x.woken {
      forall want | want in x.wants
        ensures WantOk(DoStartLoop(s, c), p, want, x.wants[want])
      {
        StartLoopWant(s, c, p, want, x.wants[want]);
      }
    }
  }

  lemma StartLoopSleeps(s: State, c: nat)
    requires Recs(s) && Sleeps(s) && CanStartLoop(s, c)
    ensures Sleeps(DoStartLoop(s, c))
  {
    hide SleepOk;
    forall p | p in s.procs
      ensures SleepOk(DoStartLoop(s, c), p)
    {
      StartLoopSleep(s, c, p);
    }
  }

  lemma StartLoopCpus(s: State, c: nat)
    requires Ports(s) && Cpus(s) && CanStartLoop(s, c)
    ensures Cpus(DoStartLoop(s, c))
  {}

  lemma StartLoopInv(s: State, c: nat)
    requires Inv(s) && CanStartLoop(s, c)
    ensures Inv(DoStartLoop(s, c))
  {
    hide Recs, Ports, Lists, Hands, Sleeps, Cpus;
    var t := DoStartLoop(s, c);
    FrameRecs(s, t);
    FramePorts(s, t);
    FrameLists(s, t);
    FrameHands(s, t);
    StartLoopSleeps(s, c);
    StartLoopCpus(s, c);
  }

  lemma LoopCheckSleeps(s: State, c: nat)
    requires Sleeps(s) && Cpus(s) && CanLoopCheck(s, c)
    ensures Sleeps(DoLoopCheck(s, c))
  {}

  lemma LoopCheckCpus(s: State, c: nat)
    requires Ports(s) && Recs(s) && Cpus(s) && CanLoopCheck(s, c)
    ensures Cpus(DoLoopCheck(s, c))
  {}

  lemma LoopCheckInv(s: State, c: nat)
    requires Inv(s) && CanLoopCheck(s, c)
    ensures Inv(DoLoopCheck(s, c))
  {
    hide Recs, Ports, Lists, Hands, Sleeps, Cpus;
    var t := DoLoopCheck(s, c);
    FrameRecs(s, t);
    FramePorts(s, t);
    FrameLists(s, t);
    FrameHands(s, t);
    LoopCheckSleeps(s, c);
    LoopCheckCpus(s, c);
  }

  lemma LoopClaimHands(s: State, c: nat)
    requires Hands(s) && Cpus(s) && CanLoopClaim(s, c)
    ensures Hands(DoLoopClaim(s, c))
  {}

  lemma LoopClaimSleeps(s: State, c: nat)
    requires Sleeps(s) && Cpus(s) && CanLoopClaim(s, c)
    ensures Sleeps(DoLoopClaim(s, c))
  {}

  lemma LoopClaimCpus(s: State, c: nat)
    requires Cpus(s) && CanLoopClaim(s, c)
    ensures Cpus(DoLoopClaim(s, c))
  {}

  lemma LoopClaimInv(s: State, c: nat)
    requires Inv(s) && CanLoopClaim(s, c)
    ensures Inv(DoLoopClaim(s, c))
  {
    hide Recs, Ports, Lists, Hands, Sleeps, Cpus;
    var t := DoLoopClaim(s, c);
    FrameRecs(s, t);
    FramePorts(s, t);
    FrameLists(s, t);
    LoopClaimHands(s, c);
    LoopClaimSleeps(s, c);
    LoopClaimCpus(s, c);
  }

  lemma LoopUnlinkRecs(s: State, c: nat)
    requires Recs(s) && Ports(s) && Cpus(s) && CanLoopUnlink(s, c)
    ensures Recs(DoLoopUnlink(s, c))
  {}

  lemma LoopUnlinkPorts(s: State, c: nat)
    requires Ports(s) && Recs(s) && Cpus(s) && CanLoopUnlink(s, c)
    ensures Ports(DoLoopUnlink(s, c))
  {
    var w := s.cpus[c].loop.rest[0];
    assert PortOk(s, s.recs[w].port);
    WithoutDistinct(s.ports[s.recs[w].port].waiters, w);
  }

  lemma LoopUnlinkList(s: State, c: nat, p: nat)
    requires Lists(s) && Cpus(s) && CanLoopUnlink(s, c) && p in s.procs
    ensures ListsOk(DoLoopUnlink(s, c), p)
  {
    assert ListsOk(s, p);
  }

  lemma LoopUnlinkLists(s: State, c: nat)
    requires Lists(s) && Cpus(s) && CanLoopUnlink(s, c)
    ensures Lists(DoLoopUnlink(s, c))
  {
    hide ListsOk;
    forall p | p in s.procs
      ensures ListsOk(DoLoopUnlink(s, c), p)
    {
      LoopUnlinkList(s, c, p);
    }
  }

  lemma LoopUnlinkHands(s: State, c: nat)
    requires Hands(s) && Lists(s) && Cpus(s) && CanLoopUnlink(s, c)
    ensures Hands(DoLoopUnlink(s, c))
  {}

  lemma LoopUnlinkWant(s: State, c: nat, p: nat, want: Want, w: nat)
    requires Cpus(s) && CanLoopUnlink(s, c) && p in s.procs && !s.procs[p].woken && WantOk(s, p, want, w)
    ensures WantOk(DoLoopUnlink(s, c), p, want, w)
  {
    assert CpuOk(s, c);
  }

  lemma LoopUnlinkSleep(s: State, c: nat, p: nat)
    requires Sleeps(s) && Cpus(s) && CanLoopUnlink(s, c) && p in s.procs
    ensures SleepOk(DoLoopUnlink(s, c), p)
  {
    hide WantOk, Cpus;
    assert SleepOk(s, p);
    var x := s.procs[p];
    if x.status == BLOCKED && !x.woken {
      forall want | want in x.wants
        ensures WantOk(DoLoopUnlink(s, c), p, want, x.wants[want])
      {
        LoopUnlinkWant(s, c, p, want, x.wants[want]);
      }
    }
  }

  lemma LoopUnlinkSleeps(s: State, c: nat)
    requires Sleeps(s) && Cpus(s) && CanLoopUnlink(s, c)
    ensures Sleeps(DoLoopUnlink(s, c))
  {
    hide SleepOk;
    forall p | p in s.procs
      ensures SleepOk(DoLoopUnlink(s, c), p)
    {
      LoopUnlinkSleep(s, c, p);
    }
  }

  lemma LoopUnlinkCpu(s: State, c: nat, d: nat)
    requires Ports(s) && Cpus(s) && CanLoopUnlink(s, c) && d in s.cpus
    ensures CpuOk(DoLoopUnlink(s, c), d)
  {
    assert CpuOk(s, d);
  }

  lemma LoopUnlinkCpus(s: State, c: nat)
    requires Ports(s) && Cpus(s) && CanLoopUnlink(s, c)
    ensures Cpus(DoLoopUnlink(s, c))
  {
    hide CpuOk;
    forall d | d in s.cpus
      ensures CpuOk(DoLoopUnlink(s, c), d)
    {
      LoopUnlinkCpu(s, c, d);
    }
  }

  lemma LoopUnlinkInv(s: State, c: nat)
    requires Inv(s) && CanLoopUnlink(s, c)
    ensures Inv(DoLoopUnlink(s, c))
  {
    hide Recs, Ports, Lists, Hands, Sleeps, Cpus;
    var t := DoLoopUnlink(s, c);
    LoopUnlinkRecs(s, c);
    LoopUnlinkPorts(s, c);
    LoopUnlinkLists(s, c);
    LoopUnlinkHands(s, c);
    LoopUnlinkSleeps(s, c);
    LoopUnlinkCpus(s, c);
  }

  lemma LoopReadyHands(s: State, c: nat)
    requires Hands(s) && Cpus(s) && CanLoopReady(s, c)
    ensures Hands(DoLoopReady(s, c))
  {}

  lemma LoopReadySleeps(s: State, c: nat)
    requires Sleeps(s) && Cpus(s) && CanLoopReady(s, c)
    ensures Sleeps(DoLoopReady(s, c))
  {}

  lemma LoopReadyCpus(s: State, c: nat)
    requires Cpus(s) && CanLoopReady(s, c)
    ensures Cpus(DoLoopReady(s, c))
  {}

  lemma LoopReadyInv(s: State, c: nat)
    requires Inv(s) && CanLoopReady(s, c)
    ensures Inv(DoLoopReady(s, c))
  {
    hide Recs, Ports, Lists, Hands, Sleeps, Cpus;
    var t := DoLoopReady(s, c);
    FrameRecs(s, t);
    FramePorts(s, t);
    FrameLists(s, t);
    LoopReadyHands(s, c);
    LoopReadySleeps(s, c);
    LoopReadyCpus(s, c);
  }

  lemma LoopEndCpus(s: State, c: nat)
    requires Cpus(s) && CanLoopEnd(s, c)
    ensures Cpus(DoLoopEnd(s, c))
  {}

  lemma LoopEndInv(s: State, c: nat)
    requires Inv(s) && CanLoopEnd(s, c)
    ensures Inv(DoLoopEnd(s, c))
  {
    hide Recs, Ports, Lists, Hands, Sleeps, Cpus;
    var t := DoLoopEnd(s, c);
    FrameRecs(s, t);
    FramePorts(s, t);
    FrameLists(s, t);
    FrameHands(s, t);
    FrameSleeps(s, t);
    LoopEndCpus(s, c);
  }

  lemma DispatchLists(s: State, c: nat, p: nat)
    requires Lists(s) && Cpus(s) && CanDispatch(s, c, p)
    ensures Lists(DoDispatch(s, c, p))
  {}

  lemma DispatchHands(s: State, c: nat, p: nat)
    requires Hands(s) && Cpus(s) && CanDispatch(s, c, p)
    ensures Hands(DoDispatch(s, c, p))
  {}

  lemma DispatchSleeps(s: State, c: nat, p: nat)
    requires Sleeps(s) && Cpus(s) && CanDispatch(s, c, p)
    ensures Sleeps(DoDispatch(s, c, p))
  {}

  lemma DispatchCpus(s: State, c: nat, p: nat)
    requires Cpus(s) && CanDispatch(s, c, p)
    ensures Cpus(DoDispatch(s, c, p))
  {}

  lemma DispatchInv(s: State, c: nat, p: nat)
    requires Inv(s) && CanDispatch(s, c, p)
    ensures Inv(DoDispatch(s, c, p))
  {
    hide Recs, Ports, Lists, Hands, Sleeps, Cpus;
    var t := DoDispatch(s, c, p);
    FrameRecs(s, t);
    FramePorts(s, t);
    DispatchLists(s, c, p);
    DispatchHands(s, c, p);
    DispatchSleeps(s, c, p);
    DispatchCpus(s, c, p);
  }

  lemma WaitTakeRecs(s: State, c: nat)
    requires Recs(s) && CanWaitTake(s, c)
    ensures Recs(DoWaitTake(s, c))
  {}

  lemma WaitTakeLists(s: State, c: nat)
    requires Lists(s) && Cpus(s) && CanWaitTake(s, c)
    ensures Lists(DoWaitTake(s, c))
  {}

  lemma WaitTakeHands(s: State, c: nat)
    requires Hands(s) && Cpus(s) && CanWaitTake(s, c)
    ensures Hands(DoWaitTake(s, c))
  {}

  lemma WaitTakeSleeps(s: State, c: nat)
    requires Sleeps(s) && Hands(s) && Cpus(s) && CanWaitTake(s, c)
    ensures Sleeps(DoWaitTake(s, c))
  {}

  lemma WaitTakeCpus(s: State, c: nat)
    requires Cpus(s) && CanWaitTake(s, c)
    ensures Cpus(DoWaitTake(s, c))
  {}

  lemma WaitTakeInv(s: State, c: nat)
    requires Inv(s) && CanWaitTake(s, c)
    ensures Inv(DoWaitTake(s, c))
  {
    hide Recs, Ports, Lists, Hands, Sleeps, Cpus;
    var t := DoWaitTake(s, c);
    FramePorts(s, t);
    WaitTakeRecs(s, c);
    WaitTakeLists(s, c);
    WaitTakeHands(s, c);
    WaitTakeSleeps(s, c);
    WaitTakeCpus(s, c);
  }

  lemma WaitUnlinkRecs(s: State, c: nat)
    requires Recs(s) && Ports(s) && Lists(s) && CanWaitUnlink(s, c)
    ensures Recs(DoWaitUnlink(s, c))
  {}

  lemma WaitUnlinkPorts(s: State, c: nat)
    requires Ports(s) && Recs(s) && CanWaitUnlink(s, c)
    ensures Ports(DoWaitUnlink(s, c))
  {
    var w := Running(s, c).cur.value;
    assert PortOk(s, s.recs[w].port);
    WithoutDistinct(s.ports[s.recs[w].port].waiters, w);
  }

  lemma WaitUnlinkLists(s: State, c: nat)
    requires Lists(s) && CanWaitUnlink(s, c)
    ensures Lists(DoWaitUnlink(s, c))
  {}

  lemma WaitUnlinkHands(s: State, c: nat)
    requires Hands(s) && Lists(s) && CanWaitUnlink(s, c)
    ensures Hands(DoWaitUnlink(s, c))
  {}

  lemma WaitUnlinkSleeps(s: State, c: nat)
    requires Sleeps(s) && Hands(s) && Lists(s) && Cpus(s) && CanWaitUnlink(s, c)
    ensures Sleeps(DoWaitUnlink(s, c))
  {}

  lemma WaitUnlinkCpu(s: State, c: nat, d: nat)
    requires Ports(s) && Cpus(s) && Recs(s) && CanWaitUnlink(s, c) && d in s.cpus
    ensures CpuOk(DoWaitUnlink(s, c), d)
  {
    assert CpuOk(s, d);
  }

  lemma WaitUnlinkCpus(s: State, c: nat)
    requires Ports(s) && Cpus(s) && Recs(s) && CanWaitUnlink(s, c)
    ensures Cpus(DoWaitUnlink(s, c))
  {
    hide CpuOk;
    forall d | d in s.cpus
      ensures CpuOk(DoWaitUnlink(s, c), d)
    {
      WaitUnlinkCpu(s, c, d);
    }
  }

  lemma WaitUnlinkInv(s: State, c: nat)
    requires Inv(s) && CanWaitUnlink(s, c)
    ensures Inv(DoWaitUnlink(s, c))
  {
    hide Recs, Ports, Lists, Hands, Sleeps, Cpus;
    var t := DoWaitUnlink(s, c);
    WaitUnlinkRecs(s, c);
    WaitUnlinkPorts(s, c);
    WaitUnlinkLists(s, c);
    WaitUnlinkHands(s, c);
    WaitUnlinkSleeps(s, c);
    WaitUnlinkCpus(s, c);
  }

  lemma WaitFreeRecs(s: State, c: nat)
    requires Recs(s) && Lists(s) && CanWaitFree(s, c)
    ensures Recs(DoWaitFree(s, c))
  {}

  lemma WaitFreePorts(s: State, c: nat)
    requires Ports(s) && CanWaitFree(s, c)
    ensures Ports(DoWaitFree(s, c))
  {}

  lemma WaitFreeLists(s: State, c: nat)
    requires Lists(s) && CanWaitFree(s, c)
    ensures Lists(DoWaitFree(s, c))
  {}

  lemma WaitFreeHand(s: State, c: nat, p: nat)
    requires Hands(s) && Lists(s) && Cpus(s) && CanWaitFree(s, c) && p in s.procs
    ensures HandOk(DoWaitFree(s, c), p)
  {
    assert HandOk(s, p);
    assert ListsOk(s, p);
    assert CpuOk(s, c);
    hide Hands, Lists, Cpus;
  }

  lemma WaitFreeHands(s: State, c: nat)
    requires Hands(s) && Lists(s) && Cpus(s) && CanWaitFree(s, c)
    ensures Hands(DoWaitFree(s, c))
  {
    hide HandOk;
    forall p | p in s.procs
      ensures HandOk(DoWaitFree(s, c), p)
    {
      WaitFreeHand(s, c, p);
    }
  }

  lemma WaitFreeSleeps(s: State, c: nat)
    requires Sleeps(s) && Hands(s) && Lists(s) && Cpus(s) && CanWaitFree(s, c)
    ensures Sleeps(DoWaitFree(s, c))
  {}

  lemma WaitFreeCpus(s: State, c: nat)
    requires Ports(s) && Cpus(s) && CanWaitFree(s, c)
    ensures Cpus(DoWaitFree(s, c))
  {}

  lemma WaitFreeInv(s: State, c: nat)
    requires Inv(s) && CanWaitFree(s, c)
    ensures Inv(DoWaitFree(s, c))
  {
    hide Recs, Ports, Lists, Hands, Sleeps, Cpus;
    var t := DoWaitFree(s, c);
    WaitFreeRecs(s, c);
    WaitFreePorts(s, c);
    WaitFreeLists(s, c);
    WaitFreeHands(s, c);
    WaitFreeSleeps(s, c);
    WaitFreeCpus(s, c);
  }

  lemma ReapDoneLists(s: State, c: nat)
    requires Lists(s) && Cpus(s) && CanReapDone(s, c)
    ensures Lists(DoReapDone(s, c))
  {}

  lemma ReapDoneHands(s: State, c: nat)
    requires Hands(s) && Cpus(s) && CanReapDone(s, c)
    ensures Hands(DoReapDone(s, c))
  {}

  lemma ReapDoneSleeps(s: State, c: nat)
    requires Sleeps(s) && Hands(s) && Cpus(s) && CanReapDone(s, c)
    ensures Sleeps(DoReapDone(s, c))
  {}

  lemma ReapDoneCpu(s: State, c: nat, d: nat)
    requires Recs(s) && Hands(s) && Cpus(s) && CanReapDone(s, c) && d in s.cpus
    ensures CpuOk(DoReapDone(s, c), d)
  {
    assert CpuOk(s, c);
    assert CpuOk(s, d);
    assert HandOk(s, s.cpus[c].p);
    hide Cpus, Hands;
    if s.cpus[d].loop.Loop? && s.cpus[d].loop.phase == Claim {
      assert RecOk(s, s.cpus[d].loop.rest[0]);
    }
  }

  lemma ReapDoneCpus(s: State, c: nat)
    requires Recs(s) && Hands(s) && Cpus(s) && CanReapDone(s, c)
    ensures Cpus(DoReapDone(s, c))
  {
    hide CpuOk;
    forall d | d in s.cpus
      ensures CpuOk(DoReapDone(s, c), d)
    {
      ReapDoneCpu(s, c, d);
    }
  }

  lemma ReapDoneInv(s: State, c: nat)
    requires Inv(s) && CanReapDone(s, c)
    ensures Inv(DoReapDone(s, c))
  {
    hide Recs, Ports, Lists, Hands, Sleeps, Cpus;
    var t := DoReapDone(s, c);
    FrameRecs(s, t);
    FramePorts(s, t);
    ReapDoneLists(s, c);
    ReapDoneHands(s, c);
    ReapDoneSleeps(s, c);
    ReapDoneCpus(s, c);
  }

  lemma WaitAddRecs(s: State, c: nat, port: nat, send: bool, w: nat)
    requires Recs(s) && CanWaitAdd(s, c, port, send, w)
    ensures Recs(DoWaitAdd(s, c, port, send, w))
  {}

  lemma WaitAddPorts(s: State, c: nat, port: nat, send: bool, w: nat)
    requires Ports(s) && CanWaitAdd(s, c, port, send, w)
    ensures Ports(DoWaitAdd(s, c, port, send, w))
  {}

  lemma WaitAddLists(s: State, c: nat, port: nat, send: bool, w: nat)
    requires Lists(s) && CanWaitAdd(s, c, port, send, w)
    ensures Lists(DoWaitAdd(s, c, port, send, w))
  {}

  lemma WaitAddHands(s: State, c: nat, port: nat, send: bool, w: nat)
    requires Hands(s) && Lists(s) && Cpus(s) && CanWaitAdd(s, c, port, send, w)
    ensures Hands(DoWaitAdd(s, c, port, send, w))
  {}

  lemma WaitAddSleeps(s: State, c: nat, port: nat, send: bool, w: nat)
    requires Sleeps(s) && Hands(s) && Lists(s) && Cpus(s) && CanWaitAdd(s, c, port, send, w)
    ensures Sleeps(DoWaitAdd(s, c, port, send, w))
  {}

  lemma WaitAddCpu(s: State, c: nat, port: nat, send: bool, w: nat, d: nat)
    requires Ports(s) && Cpus(s) && CanWaitAdd(s, c, port, send, w) && d in s.cpus
    ensures CpuOk(DoWaitAdd(s, c, port, send, w), d)
  {
    assert CpuOk(s, d);
  }

  lemma WaitAddCpus(s: State, c: nat, port: nat, send: bool, w: nat)
    requires Ports(s) && Cpus(s) && CanWaitAdd(s, c, port, send, w)
    ensures Cpus(DoWaitAdd(s, c, port, send, w))
  {
    hide CpuOk;
    forall d | d in s.cpus
      ensures CpuOk(DoWaitAdd(s, c, port, send, w), d)
    {
      WaitAddCpu(s, c, port, send, w, d);
    }
  }

  lemma WaitAddInv(s: State, c: nat, port: nat, send: bool, w: nat)
    requires Inv(s) && CanWaitAdd(s, c, port, send, w)
    ensures Inv(DoWaitAdd(s, c, port, send, w))
  {
    hide Recs, Ports, Lists, Hands, Sleeps, Cpus;
    var t := DoWaitAdd(s, c, port, send, w);
    WaitAddRecs(s, c, port, send, w);
    WaitAddPorts(s, c, port, send, w);
    WaitAddLists(s, c, port, send, w);
    WaitAddHands(s, c, port, send, w);
    WaitAddSleeps(s, c, port, send, w);
    WaitAddCpus(s, c, port, send, w);
  }

  lemma SleepLists(s: State, c: nat, wants: map<Want, nat>)
    requires Lists(s) && Hands(s) && Cpus(s) && CanSleep(s, c, wants)
    ensures Lists(DoSleep(s, c, wants))
  {}

  lemma SleepHands(s: State, c: nat, wants: map<Want, nat>)
    requires Hands(s) && Cpus(s) && CanSleep(s, c, wants)
    ensures Hands(DoSleep(s, c, wants))
  {}

  lemma SleepSleeps(s: State, c: nat, wants: map<Want, nat>)
    requires Sleeps(s) && Hands(s) && Lists(s) && Cpus(s) && CanSleep(s, c, wants)
    ensures Sleeps(DoSleep(s, c, wants))
  {}

  lemma SleepCpus(s: State, c: nat, wants: map<Want, nat>)
    requires Hands(s) && Cpus(s) && CanSleep(s, c, wants)
    ensures Cpus(DoSleep(s, c, wants))
  {}

  lemma SleepInv(s: State, c: nat, wants: map<Want, nat>)
    requires Inv(s) && CanSleep(s, c, wants)
    ensures Inv(DoSleep(s, c, wants))
  {
    hide Recs, Ports, Lists, Hands, Sleeps, Cpus;
    var t := DoSleep(s, c, wants);
    FrameRecs(s, t);
    FramePorts(s, t);
    SleepLists(s, c, wants);
    SleepHands(s, c, wants);
    SleepSleeps(s, c, wants);
    SleepCpus(s, c, wants);
  }

  lemma YieldLists(s: State, c: nat)
    requires Lists(s) && Hands(s) && Cpus(s) && CanYield(s, c)
    ensures Lists(DoYield(s, c))
  {}

  lemma YieldHands(s: State, c: nat)
    requires Hands(s) && Cpus(s) && CanYield(s, c)
    ensures Hands(DoYield(s, c))
  {}

  lemma YieldSleeps(s: State, c: nat)
    requires Sleeps(s) && Cpus(s) && CanYield(s, c)
    ensures Sleeps(DoYield(s, c))
  {}

  lemma YieldCpus(s: State, c: nat)
    requires Cpus(s) && CanYield(s, c)
    ensures Cpus(DoYield(s, c))
  {}

  lemma YieldInv(s: State, c: nat)
    requires Inv(s) && CanYield(s, c)
    ensures Inv(DoYield(s, c))
  {
    hide Recs, Ports, Lists, Hands, Sleeps, Cpus;
    var t := DoYield(s, c);
    FrameRecs(s, t);
    FramePorts(s, t);
    YieldLists(s, c);
    YieldHands(s, c);
    YieldSleeps(s, c);
    YieldCpus(s, c);
  }

  lemma AgainLists(s: State, c: nat)
    requires Lists(s) && Cpus(s) && CanAgain(s, c)
    ensures Lists(DoAgain(s, c))
  {}

  lemma AgainHands(s: State, c: nat)
    requires Hands(s) && Cpus(s) && CanAgain(s, c)
    ensures Hands(DoAgain(s, c))
  {}

  lemma AgainSleeps(s: State, c: nat)
    requires Sleeps(s) && Cpus(s) && CanAgain(s, c)
    ensures Sleeps(DoAgain(s, c))
  {}

  lemma AgainCpus(s: State, c: nat)
    requires Cpus(s) && CanAgain(s, c)
    ensures Cpus(DoAgain(s, c))
  {}

  lemma AgainInv(s: State, c: nat)
    requires Inv(s) && CanAgain(s, c)
    ensures Inv(DoAgain(s, c))
  {
    hide Recs, Ports, Lists, Hands, Sleeps, Cpus;
    var t := DoAgain(s, c);
    FrameRecs(s, t);
    FramePorts(s, t);
    AgainLists(s, c);
    AgainHands(s, c);
    AgainSleeps(s, c);
    AgainCpus(s, c);
  }

  lemma ReleaseLists(s: State, c: nat)
    requires Lists(s) && Cpus(s) && CanRelease(s, c)
    ensures Lists(DoRelease(s, c))
  {}

  lemma ReleaseHands(s: State, c: nat)
    requires Hands(s) && Cpus(s) && CanRelease(s, c)
    ensures Hands(DoRelease(s, c))
  {}

  lemma ReleaseSleeps(s: State, c: nat)
    requires Sleeps(s) && Cpus(s) && CanRelease(s, c)
    ensures Sleeps(DoRelease(s, c))
  {}

  lemma ReleaseCpus(s: State, c: nat)
    requires Cpus(s) && CanRelease(s, c)
    ensures Cpus(DoRelease(s, c))
  {}

  lemma ReleaseInv(s: State, c: nat)
    requires Inv(s) && CanRelease(s, c)
    ensures Inv(DoRelease(s, c))
  {
    hide Recs, Ports, Lists, Hands, Sleeps, Cpus;
    var t := DoRelease(s, c);
    FrameRecs(s, t);
    FramePorts(s, t);
    ReleaseLists(s, c);
    ReleaseHands(s, c);
    ReleaseSleeps(s, c);
    ReleaseCpus(s, c);
  }

  /** Every step of every cpu keeps the invariant. */
  lemma StepInv(s: State, a: Action, t: State)
    requires Inv(s) && Step(s, a, t)
    ensures Inv(t)
  {
    hide Inv;
    hide CanLock, CanLeave, CanPush, CanPop, CanRefUp, CanUnref, CanUnrefLast, CanNewPort, CanStartLoop,
         CanLoopCheck, CanLoopClaim, CanLoopUnlink, CanLoopReady, CanLoopEnd, CanDispatch, CanWaitTake,
         CanWaitUnlink, CanWaitFree, CanReapDone, CanWaitAdd, CanSleep, CanYield, CanAgain, CanRelease;
    hide DoLock, DoLeave, DoPush, DoPop, DoRefUp, DoUnref, DoUnrefLast, DoNewPort, DoStartLoop, DoLoopCheck,
         DoLoopClaim, DoLoopUnlink, DoLoopReady, DoLoopEnd, DoDispatch, DoWaitTake, DoWaitUnlink, DoWaitFree,
         DoReapDone, DoWaitAdd, DoSleep, DoYield, DoAgain, DoRelease;
    match a
    case Lock(c, b) => LockInv(s, c, b);
    case Leave(c) => LeaveInv(s, c);
    case Push(c, port, cost) => PushInv(s, c, port, cost);
    case Pop(c, port) => PopInv(s, c, port);
    case RefUp(c, port, holder) => RefUpInv(s, c, port, holder);
    case Unref(c, port, holder, lastReceiver) => UnrefInv(s, c, port, holder, lastReceiver);
    case UnrefLast(c, port, holder) => UnrefLastInv(s, c, port, holder);
    case NewPort(c, port, holder) => NewPortInv(s, c, port, holder);
    case StartLoop(c) => StartLoopInv(s, c);
    case LoopCheck(c) => LoopCheckInv(s, c);
    case LoopClaim(c) => LoopClaimInv(s, c);
    case LoopUnlink(c) => LoopUnlinkInv(s, c);
    case LoopReady(c) => LoopReadyInv(s, c);
    case LoopEnd(c) => LoopEndInv(s, c);
    case Dispatch(c, p) => DispatchInv(s, c, p);
    case WaitTake(c) => WaitTakeInv(s, c);
    case WaitUnlink(c) => WaitUnlinkInv(s, c);
    case WaitFree(c) => WaitFreeInv(s, c);
    case ReapDone(c) => ReapDoneInv(s, c);
    case WaitAdd(c, port, send, w) => WaitAddInv(s, c, port, send, w);
    case Sleep(c, wants) => SleepInv(s, c, wants);
    case Yield(c) => YieldInv(s, c);
    case Again(c) => AgainInv(s, c);
    case Release(c) => ReleaseInv(s, c);
  }
}
