/** The wake protocol over whole runs: no lost wakeup, one wakeup per sleep, no stranded sleeper, and no
    use of a waiter record after it is freed. */
module WakeTheorems {
  import opened Options
  import opened Wake
  import opened WakeInv

  /** Any interleaving of any cpus' steps from a machine with nobody asleep. */
  ghost predicate Run(states: seq<State>, actions: seq<Action>)
  {
    && |states| == |actions| + 1
    && Init(states[0])
    && forall i | 0 <= i < |actions| :: Step(states[i], actions[i], states[i + 1])
  }

  lemma {:induction false} RunInv(states: seq<State>, actions: seq<Action>, i: nat)
    requires Run(states, actions) && i < |states|
    ensures Inv(states[i])
  {
    if i == 0 {
      InitInv(states[0]);
    } else {
      RunInv(states, actions, i - 1);
      assert Step(states[i - 1], actions[i - 1], states[i]);
      StepInv(states[i - 1], actions[i - 1], states[i]);
    }
  }

  /** Asleep, and nobody has claimed the wakeup. */
  predicate Sleeper(s: State, p: nat)
  {
    p in s.procs && s.procs[p].status == BLOCKED && !s.procs[p].woken
  }

  /** What an unclaimed sleeper asked for has not happened yet, once nobody is working on the port. */
  lemma StillUnmet(states: seq<State>, actions: seq<Action>, i: nat, p: nat, want: Want)
    requires Run(states, actions) && i < |states| && Sleeper(states[i], p)
    requires want in states[i].procs[p].wants && Bucket(want.port) !in states[i].owner
    ensures want.port in states[i].ports && Unsatisfied(states[i].ports[want.port], p, want)
  {
    RunInv(states, actions, i);
    assert SleepOk(states[i], p);
    assert WantOk(states[i], p, want, states[i].procs[p].wants[want]);
  }

  /** Every record an unclaimed sleeper has registered is on its port's list, and stands for something asked
      for there that has not happened: no wakeup has been lost. */
  lemma NoLostWakeup(states: seq<State>, actions: seq<Action>, i: nat, p: nat, w: nat) returns (want: Want)
    requires Run(states, actions) && i < |states| && Sleeper(states[i], p) && w in states[i].procs[p].waits
    requires w in states[i].recs ==> Bucket(states[i].recs[w].port) !in states[i].owner
    ensures w in states[i].recs && want in states[i].procs[p].wants
    ensures states[i].recs[w] == Waiter(p, want.port, IsSend(want), true)
    ensures want.port in states[i].ports && w in states[i].ports[want.port].waiters
    ensures Unsatisfied(states[i].ports[want.port], p, want)
  {
    var s := states[i];
    RunInv(states, actions, i);
    assert SleepOk(s, p);
    want :| want in s.procs[p].wants && s.procs[p].wants[want] == w;
    assert WantOk(s, p, want, w);
    assert RecOk(s, w);
    StillUnmet(states, actions, i, p, want);
  }

  /** sys.block, sys.call and sys.alt: an unclaimed sleeper waits to receive only on empty ports, and where it
      asked to hear of a hangup somebody else still holds the port. */
  lemma ReceiverFacesEmptyPort(states: seq<State>, actions: seq<Action>, i: nat, p: nat, w: nat)
    requires Run(states, actions) && i < |states| && Sleeper(states[i], p) && w in states[i].procs[p].waits
    requires w in states[i].recs ==> !states[i].recs[w].send && Bucket(states[i].recs[w].port) !in states[i].owner
    ensures w in states[i].recs && var port := states[i].recs[w].port;
            && port in states[i].ports && states[i].ports[port].queue == []
            && (Message(port, true) in states[i].procs[p].wants ==> exists h ::
                  h != Hand(p) && h in states[i].ports[port].refs)
  {
    var want := NoLostWakeup(states, actions, i, p, w);
    var port := want.port;
    if Message(port, true) in states[i].procs[p].wants {
      StillUnmet(states, actions, i, p, Message(port, true));
      SomeOtherHolder(states[i].ports[port].refs, p);
    }
  }

  lemma SomeOtherHolder(refs: multiset<Holder>, p: nat)
    requires |refs| > refs[Hand(p)]
    ensures exists h :: h != Hand(p) && h in refs
  {
    var others := refs[Hand(p) := 0];
    assert |others| == |refs| - refs[Hand(p)];
    assert others != multiset{};
    var h :| h in others;
    assert h != Hand(p) && h in refs;
  }

  /** sys.sendblock and sys.alt: an unclaimed sleeper waits to send only on live ports, for room that really is
      not there. */
  lemma SenderFacesFullPort(states: seq<State>, actions: seq<Action>, i: nat, p: nat, w: nat)
    requires Run(states, actions) && i < |states| && Sleeper(states[i], p) && w in states[i].procs[p].waits
    requires w in states[i].recs ==> states[i].recs[w].send && Bucket(states[i].recs[w].port) !in states[i].owner
    ensures w in states[i].recs && var port := states[i].recs[w].port;
            && port in states[i].ports && !states[i].ports[port].dead
            && (exists need: nat :: Room(port, need) in states[i].procs[p].wants)
            && (forall need: nat | Room(port, need) in states[i].procs[p].wants ::
                  Sum(states[i].ports[port].queue) + need > MAXQUEUE)
  {
    var want := NoLostWakeup(states, actions, i, p, w);
    var port := want.port;
    assert want == Room(port, want.need);
    RunInv(states, actions, i);
    assert PortOk(states[i], port);
    forall need: nat | Room(port, need) in states[i].procs[p].wants
      ensures Sum(states[i].ports[port].queue) + need > MAXQUEUE
    {
      StillUnmet(states, actions, i, p, Room(port, need));
    }
  }

  /** A claimed sleeper is in the hands of exactly one cpu, which is about to make it ready. */
  lemma ClaimedByOne(states: seq<State>, actions: seq<Action>, i: nat, p: nat)
    requires Run(states, actions) && i < |states|
    requires p in states[i].procs && states[i].procs[p].status == BLOCKED && states[i].procs[p].woken
    ensures exists c :: c in states[i].cpus && Claims(states[i].cpus[c], p)
    ensures forall c, d | c in states[i].cpus && d in states[i].cpus ::
      Claims(states[i].cpus[c], p) && Claims(states[i].cpus[d], p) ==> c == d
  {
    RunInv(states, actions, i);
    assert SleepOk(states[i], p);
    forall c | c in states[i].cpus && Claims(states[i].cpus[c], p)
      ensures c == states[i].procs[p].winner
    {
      assert CpuOk(states[i], c);
    }
  }

  /** Sleeps and wakeups alternate: a sleep is ended by one make_ready and by no more. */
  lemma OneWakePerSleep(states: seq<State>, actions: seq<Action>, i: nat, p: nat)
    requires Run(states, actions) && i < |states| && p in states[i].procs
    ensures states[i].procs[p].wakes <= states[i].procs[p].blocks <= states[i].procs[p].wakes + 1
    ensures states[i].procs[p].blocks == states[i].procs[p].wakes + 1 <==> states[i].procs[p].status == BLOCKED
  {
    RunInv(states, actions, i);
    assert HandOk(states[i], p);
  }

  /** make_ready is only ever called on a proc that is asleep and that this cpu alone has claimed. */
  lemma ReadiesOnlySleepers(states: seq<State>, actions: seq<Action>, i: nat)
    requires Run(states, actions) && i < |actions| && actions[i].LoopReady?
    ensures CanLoopReady(states[i], actions[i].c)
    ensures var p := states[i].cpus[actions[i].c].loop.who;
            p in states[i].procs && states[i].procs[p].status == BLOCKED && states[i].procs[p].winner == actions[i].c
  {
    RunInv(states, actions, i);
    assert Step(states[i], actions[i], states[i + 1]);
    assert CpuOk(states[i], actions[i].c);
  }

  /** A wake loop never holds a freed record: the cursor's records exist and sit on the loop's port. */
  lemma NoUseAfterFree(states: seq<State>, actions: seq<Action>, i: nat, c: nat, w: nat)
    requires Run(states, actions) && i < |states| && c in states[i].cpus
    requires states[i].cpus[c].loop.Loop? && w in states[i].cpus[c].loop.rest
    ensures w in states[i].recs && states[i].recs[w].onport && states[i].recs[w].port == states[i].cpus[c].loop.port
    ensures states[i].recs[w].proc in states[i].procs
  {
    RunInv(states, actions, i);
    assert CpuOk(states[i], c);
    assert PortOk(states[i], states[i].cpus[c].loop.port);
    assert RecOk(states[i], w);
  }

  /** Nor does wait_reap: the record it has taken exists until it frees it, and belongs to the proc it reaps. */
  lemma ReapsItsOwn(states: seq<State>, actions: seq<Action>, i: nat, p: nat)
    requires Run(states, actions) && i < |states| && p in states[i].procs && states[i].procs[p].cur.Some?
    ensures states[i].procs[p].cur.value in states[i].recs && states[i].recs[states[i].procs[p].cur.value].proc == p
    ensures states[i].recs[states[i].procs[p].cur.value].port in states[i].ports
  {
    RunInv(states, actions, i);
    assert ListsOk(states[i], p);
    assert RecOk(states[i], states[i].procs[p].cur.value);
  }

  /** A loop is never stuck: whatever record or proc its next access needs is there. */
  lemma LoopsAdvance(states: seq<State>, actions: seq<Action>, i: nat, c: nat)
    requires Run(states, actions) && i < |states| && c in states[i].cpus && states[i].cpus[c].loop.Loop?
    ensures var s := states[i];
            CanLoopCheck(s, c) || CanLoopClaim(s, c) || CanLoopUnlink(s, c) || CanLoopReady(s, c) || CanLoopEnd(s, c)
  {
    hide Run, Recs, Ports, Lists, Hands, Sleeps, Cpus;
    hide CanLoopCheck, CanLoopClaim, CanLoopUnlink, CanLoopReady, CanLoopEnd;
    RunInv(states, actions, i);
    LoopAdvances(states[i], c);
  }

  lemma LoopAdvances(s: State, c: nat)
    requires Recs(s) && Ports(s) && Cpus(s) && c in s.cpus && s.cpus[c].loop.Loop?
    ensures CanLoopCheck(s, c) || CanLoopClaim(s, c) || CanLoopUnlink(s, c) || CanLoopReady(s, c) || CanLoopEnd(s, c)
  {
    assert CpuOk(s, c);
    var l := s.cpus[c].loop;
    if l.rest != [] {
      assert l.rest[0] in s.ports[l.port].waiters;
      assert PortOk(s, l.port);
      assert RecOk(s, l.rest[0]);
    }
    hide Recs, Ports, Cpus;
  }
}
