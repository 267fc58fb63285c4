/** Blocking and waking over ports, as atomic steps of any number of cpus, procs and ports.

    A cpu owns lock buckets, and only the owner of a port's bucket touches that port's queue and waiter
    list. A wake loop is broken at every access to state another cpu can reach: the status test, the
    compare-exchange on `woken`, the unlink, and the hand-over to the scheduler. The woken proc collects
    its leftover waits one record at a time. */
module Wake {
  import opened Options

  const NIPCLOCK: nat := 8
  const MAXQUEUE: nat := 65536

  datatype Status = READY | BLOCKED

  /** Who holds a reference to a port: a proc's handle, a queued message, or the kernel. */
  datatype Holder = Hand(proc: nat) | Flight | Kernel

  /** What a sleeper is waiting for: a message (or, with hup, the last other holder leaving), or room. */
  datatype Want = Message(port: nat, hup: bool) | Room(port: nat, need: nat)

  /** struct waiter. */
  datatype Waiter = Waiter(proc: nat, port: nat, send: bool, onport: bool)

  /** The wait-related part of struct kproc. `cur` is the record wait_reap has in hand. The last four
      fields are history: what the sleep asked for and through which record, who won the claim, and how
      often the proc has been put to sleep and made ready. */
  datatype Proc = Proc(status: Status, woken: bool, waits: seq<nat>, cur: Option<nat>, oncpu: Option<nat>,
                       wants: map<Want, nat>, winner: nat, blocks: nat, wakes: nat)

  /** The part of struct kport that waking depends on; `refs` stands for nrights. */
  datatype Port = Port(queue: seq<nat>, qbytes: nat, dead: bool, refs: multiset<Holder>, waiters: seq<nat>)

  datatype Task = Task(port: nat, send: bool)

  datatype Phase = Check | Claim | Unlink | Ready

  /** A running wake_receivers or wake_senders: the records still to visit and the proc in hand. */
  datatype Loop = NoLoop | Loop(port: nat, send: bool, rest: seq<nat>, phase: Phase, who: nat)

  datatype Mode = Idle | Reap | User | Yielded

  datatype Cpu = Cpu(mode: Mode, p: nat, tasks: seq<Task>, loop: Loop)

  datatype State = State(procs: map<nat, Proc>, ports: map<nat, Port>, recs: map<nat, Waiter>,
                         cpus: map<nat, Cpu>, owner: map<nat, nat>)

  function Bucket(port: nat): nat
  {
    port % NIPCLOCK
  }

  predicate Covers(s: State, c: nat, port: nat)
  {
    Bucket(port) in s.owner && s.owner[Bucket(port)] == c
  }

  predicate Wide(s: State, c: nat)
  {
    forall b: nat | b < NIPCLOCK :: b in s.owner && s.owner[b] == c
  }

  predicate Quiet(u: Cpu)
  {
    u.tasks == [] && u.loop == NoLoop
  }

  function Sum(q: seq<nat>): nat
  {
    if q == [] then 0 else q[0] + Sum(q[1..])
  }

  predicate Distinct(q: seq<nat>)
  {
    forall i, j :: 0 <= i < j < |q| ==> q[i] != q[j]
  }

  function Without(q: seq<nat>, w: nat): (r: seq<nat>)
    ensures forall x :: x in r ==> x in q && x != w
    ensures forall x :: x in q && x != w ==> x in r
  {
    if q == [] then [] else if q[0] == w then Without(q[1..], w) else [q[0]] + Without(q[1..], w)
  }

  predicate IsSend(want: Want)
  {
    want.Room?
  }

  /** Nothing has happened yet that would let this sleeper go on. */
  predicate Unsatisfied(q: Port, p: nat, want: Want)
  {
    match want
    case Message(_, hup) => q.queue == [] && (hup ==> |q.refs| > q.refs[Hand(p)])
    case Room(_, need) => !q.dead && q.qbytes + need > MAXQUEUE
  }

  function WithCpu(s: State, c: nat, u: Cpu): State
  {
    s.(cpus := s.cpus[c := u])
  }

  function WithProc(s: State, p: nat, x: Proc): State
  {
    s.(procs := s.procs[p := x])
  }

  function WithPort(s: State, port: nat, x: Port): State
  {
    s.(ports := s.ports[port := x])
  }

  /** Take record w off its port's list. */
  function Detach(s: State, w: nat): State
    requires w in s.recs && s.recs[w].port in s.ports
  {
    var q := s.recs[w].port;
    WithPort(s, q, s.ports[q].(waiters := Without(s.ports[q].waiters, w)))
      .(recs := s.recs[w := s.recs[w].(onport := false)])
  }

  function Skip(l: Loop): Loop
    requires l.Loop? && l.rest != []
  {
    l.(rest := l.rest[1..], phase := Check)
  }

  predicate InPhase(u: Cpu, phase: Phase)
  {
    u.loop.Loop? && u.loop.phase == phase
  }

  predicate InMode(s: State, c: nat, mode: Mode)
  {
    c in s.cpus && s.cpus[c].mode == mode && s.cpus[c].p in s.procs
  }

  /** In wait_reap before a resume, or in wait_clear inside a blocking call. */
  predicate Collects(s: State, c: nat)
  {
    InMode(s, c, Reap) || InMode(s, c, User)
  }

  /** The proc this cpu has in hand. */
  function Running(s: State, c: nat): Proc
    requires c in s.cpus && s.cpus[c].p in s.procs
  {
    s.procs[s.cpus[c].p]
  }

  /** The port a region may change: this cpu owns its bucket and has no wake loop under way. */
  predicate MayChange(s: State, c: nat, port: nat)
  {
    c in s.cpus && port in s.ports && Covers(s, c, port) && s.cpus[c].loop == NoLoop
  }

  /** A proc drops only its own rights, and not the last one to a port it is registering a wait on. */
  predicate MayDrop(s: State, c: nat, port: nat, holder: Holder)
    requires holder.Hand? && port in s.ports
  {
    && InMode(s, c, User) && s.cpus[c].p == holder.proc
    && (s.ports[port].refs[holder] == 1 ==> forall w | w in s.recs && s.recs[w].proc == holder.proc ::
          s.recs[w].port != port)
  }

  /** A case of a blocking call: still unready under the bucket, and registered on its port. */
  predicate SleepCase(s: State, c: nat, want: Want, w: nat)
    requires c in s.cpus && s.cpus[c].p in s.procs
  {
    && want.port in s.ports && Covers(s, c, want.port) && Unsatisfied(s.ports[want.port], s.cpus[c].p, want)
    && w in Running(s, c).waits && w in s.recs && s.recs[w].port == want.port && s.recs[w].send == IsSend(want)
  }

  /* ---- the steps ---- */

  /** Take one bucket, above every bucket already held. */
  predicate CanLock(s: State, c: nat, b: nat)
  {
    c in s.cpus &&
    (b < NIPCLOCK && b !in s.owner && forall b' | b' in s.owner && s.owner[b'] == c :: b' < b)
  }

  function DoLock(s: State, c: nat, b: nat): State
    requires CanLock(s, c, b)
  {
    s.(owner := s.owner[b := c])
  }

  /** Release every bucket; a region ends with its wakes done, and not between registering and sleeping. */
  predicate CanLeave(s: State, c: nat)
  {
    c in s.cpus &&
    Quiet(s.cpus[c]) &&
    (s.cpus[c].mode == User && s.cpus[c].p in s.procs ==>
       s.procs[s.cpus[c].p].waits == [] && s.procs[s.cpus[c].p].cur == None)
  }

  function DoLeave(s: State, c: nat): State
    requires CanLeave(s, c)
  {
    s.(owner := map b | b in s.owner && s.owner[b] != c :: s.owner[b])
  }

  /** port_push_owned accepting a message. */
  predicate CanPush(s: State, c: nat, port: nat, cost: nat)
  {
    c in s.cpus &&
    (MayChange(s, c, port) && !s.ports[port].dead && s.ports[port].qbytes + cost <= MAXQUEUE)
  }

  function DoPush(s: State, c: nat, port: nat, cost: nat): State
    requires CanPush(s, c, port, cost)
  {
    var q := s.ports[port];
    WithCpu(WithPort(s, port, q.(queue := q.queue + [cost], qbytes := q.qbytes + cost)),
            c, s.cpus[c].(tasks := s.cpus[c].tasks + [Task(port, false)]))
  }

  /** port_pop with a message to take. */
  predicate CanPop(s: State, c: nat, port: nat)
  {
    c in s.cpus &&
    (MayChange(s, c, port) && s.ports[port].queue != [] && s.ports[port].qbytes >= s.ports[port].queue[0])
  }

  function DoPop(s: State, c: nat, port: nat): State
    requires CanPop(s, c, port)
  {
    var q := s.ports[port];
    WithCpu(WithPort(s, port, q.(queue := q.queue[1..], qbytes := q.qbytes - q.queue[0])),
            c, s.cpus[c].(tasks := s.cpus[c].tasks + [Task(port, true)]))
  }

  /** Serialize or right_new taking a reference, with no bucket held. */
  predicate CanRefUp(s: State, c: nat, port: nat, holder: Holder)
  {
    && c in s.cpus
    && port in s.ports
    && (holder.Hand? ==> s.cpus[c].mode == User && s.cpus[c].p == holder.proc)
  }

  function DoRefUp(s: State, c: nat, port: nat, holder: Holder): State
    requires CanRefUp(s, c, port, holder)
  {
    WithPort(s, port, s.ports[port].(refs := s.ports[port].refs + multiset{holder}))
  }

  /** port_unref while references remain; the last receive right going marks the port dead and flushes it. */
  predicate CanUnref(s: State, c: nat, port: nat, holder: Holder, lastReceiver: bool)
  {
    && c in s.cpus
    && Wide(s, c) && MayChange(s, c, port) && holder in s.ports[port].refs && |s.ports[port].refs| > 1
    && (holder.Hand? ==> MayDrop(s, c, port, holder))
  }

  function DoUnref(s: State, c: nat, port: nat, holder: Holder, lastReceiver: bool): State
    requires CanUnref(s, c, port, holder, lastReceiver)
  {
    var q := s.ports[port].(refs := s.ports[port].refs - multiset{holder});
    WithCpu(WithPort(s, port, if lastReceiver then q.(dead := true, queue := [], qbytes := 0) else q),
            c, s.cpus[c].(tasks := s.cpus[c].tasks + [Task(port, true), Task(port, false)]))
  }

  /** port_unref of the last reference. No chain of queued rights leads from a port's queue back to it,
      so a port with wakes still pending is not freed under them. */
  predicate CanUnrefLast(s: State, c: nat, port: nat, holder: Holder)
  {
    && c in s.cpus
    && Wide(s, c) && MayChange(s, c, port) && s.ports[port].refs == multiset{holder}
    && (holder.Hand? ==> MayDrop(s, c, port, holder))
    && (forall t | t in s.cpus[c].tasks :: t.port != port)
  }

  function DoUnrefLast(s: State, c: nat, port: nat, holder: Holder): State
    requires CanUnrefLast(s, c, port, holder)
  {
    s.(ports := s.ports - {port})
  }

  /** port_new and its first reference, in a slot nothing occupies. */
  predicate CanNewPort(s: State, c: nat, port: nat, holder: Holder)
  {
    c in s.cpus &&
    (port !in s.ports && Wide(s, c) && (holder.Hand? ==> s.cpus[c].mode == User && s.cpus[c].p == holder.proc))
  }

  function DoNewPort(s: State, c: nat, port: nat, holder: Holder): State
    requires CanNewPort(s, c, port, holder)
  {
    WithPort(s, port, Port([], 0, false, multiset{holder}, []))
  }

  /** Enter wake_receivers or wake_senders. */
  predicate CanStartLoop(s: State, c: nat)
  {
    c in s.cpus &&
    (s.cpus[c].tasks != [] && s.cpus[c].loop == NoLoop && s.cpus[c].tasks[|s.cpus[c].tasks| - 1].port in s.ports)
  }

  function DoStartLoop(s: State, c: nat): State
    requires CanStartLoop(s, c)
  {
    var u := s.cpus[c];
    var t := u.tasks[|u.tasks| - 1];
    WithCpu(s, c, u.(tasks := u.tasks[..|u.tasks| - 1],
                     loop := Loop(t.port, t.send, s.ports[t.port].waiters, Check, 0)))
  }

  /** The kind and status test. */
  predicate CanLoopCheck(s: State, c: nat)
  {
    && c in s.cpus
    && InPhase(s.cpus[c], Check) && s.cpus[c].loop.rest != []
    && s.cpus[c].loop.rest[0] in s.recs && s.recs[s.cpus[c].loop.rest[0]].proc in s.procs
  }

  function DoLoopCheck(s: State, c: nat): State
    requires CanLoopCheck(s, c)
  {
    var l := s.cpus[c].loop;
    var r := s.recs[l.rest[0]];
    WithCpu(s, c, s.cpus[c].(loop := if r.send != l.send || s.procs[r.proc].status != BLOCKED then Skip(l)
                                     else l.(phase := Claim, who := r.proc)))
  }

  /** wake_claim's compare-exchange. */
  predicate CanLoopClaim(s: State, c: nat)
  {
    c in s.cpus &&
    (InPhase(s.cpus[c], Claim) && s.cpus[c].loop.rest != [] && s.cpus[c].loop.who in s.procs)
  }

  function DoLoopClaim(s: State, c: nat): State
    requires CanLoopClaim(s, c)
  {
    var l := s.cpus[c].loop;
    var x := s.procs[l.who];
    WithCpu(WithProc(s, l.who, if x.woken then x else x.(woken := true, winner := c)),
            c, s.cpus[c].(loop := if x.woken then Skip(l) else l.(phase := Unlink)))
  }

  /** Take the claimed record off this port. */
  predicate CanLoopUnlink(s: State, c: nat)
  {
    && c in s.cpus
    && InPhase(s.cpus[c], Unlink) && s.cpus[c].loop.rest != []
    && s.cpus[c].loop.rest[0] in s.recs && s.recs[s.cpus[c].loop.rest[0]].port in s.ports
  }

  function DoLoopUnlink(s: State, c: nat): State
    requires CanLoopUnlink(s, c)
  {
    var l := s.cpus[c].loop;
    WithCpu(Detach(s, l.rest[0]), c, s.cpus[c].(loop := l.(rest := l.rest[1..], phase := Ready)))
  }

  /** make_ready. */
  predicate CanLoopReady(s: State, c: nat)
  {
    c in s.cpus &&
    (InPhase(s.cpus[c], Ready) && s.cpus[c].loop.who in s.procs)
  }

  function DoLoopReady(s: State, c: nat): State
    requires CanLoopReady(s, c)
  {
    var l := s.cpus[c].loop;
    var x := s.procs[l.who];
    WithCpu(WithProc(s, l.who, x.(status := READY, wakes := x.wakes + 1)), c, s.cpus[c].(loop := l.(phase := Check)))
  }

  predicate CanLoopEnd(s: State, c: nat)
  {
    c in s.cpus &&
    (InPhase(s.cpus[c], Check) && s.cpus[c].loop.rest == [])
  }

  function DoLoopEnd(s: State, c: nat): State
    requires CanLoopEnd(s, c)
  {
    WithCpu(s, c, s.cpus[c].(loop := NoLoop))
  }

  /** dispatch takes a ready proc and run_proc reaps before resuming. */
  predicate CanDispatch(s: State, c: nat, p: nat)
  {
    c in s.cpus &&
    (s.cpus[c].mode == Idle && Quiet(s.cpus[c]) && p in s.procs && s.procs[p].oncpu == None
     && s.procs[p].status == READY)
  }

  function DoDispatch(s: State, c: nat, p: nat): State
    requires CanDispatch(s, c, p)
  {
    WithCpu(WithProc(s, p, s.procs[p].(oncpu := Some(c))), c, s.cpus[c].(mode := Reap, p := p))
  }

  /** SLIST_REMOVE_HEAD in wait_reap, and in wait_clear when alt finds a case ready after all. */
  predicate CanWaitTake(s: State, c: nat)
  {
    c in s.cpus &&
    (Collects(s, c) && Running(s, c).cur == None && Running(s, c).waits != [])
  }

  function DoWaitTake(s: State, c: nat): State
    requires CanWaitTake(s, c)
  {
    var x := Running(s, c);
    WithProc(s, s.cpus[c].p, x.(cur := Some(x.waits[0]), waits := x.waits[1..]))
  }

  /** The re-read and removal under the bucket. */
  predicate CanWaitUnlink(s: State, c: nat)
  {
    && c in s.cpus
    && Collects(s, c) && Running(s, c).cur.Some? && Running(s, c).cur.value in s.recs
    && MayChange(s, c, s.recs[Running(s, c).cur.value].port)
  }

  function DoWaitUnlink(s: State, c: nat): State
    requires CanWaitUnlink(s, c)
  {
    var w := Running(s, c).cur.value;
    if s.recs[w].onport then Detach(s, w) else s
  }

  /** free(w), or w0used = 0; reached when onport reads 0, with or without the bucket. */
  predicate CanWaitFree(s: State, c: nat)
  {
    c in s.cpus &&
    (Collects(s, c) && Running(s, c).cur.Some? && Running(s, c).cur.value in s.recs
     && !s.recs[Running(s, c).cur.value].onport)
  }

  function DoWaitFree(s: State, c: nat): State
    requires CanWaitFree(s, c)
  {
    var w := Running(s, c).cur.value;
    WithProc(s, s.cpus[c].p, Running(s, c).(cur := None)).(recs := s.recs - {w})
  }

  /** The list is empty: re-arm and resume. */
  predicate CanReapDone(s: State, c: nat)
  {
    c in s.cpus &&
    (InMode(s, c, Reap) && Running(s, c).cur == None && Running(s, c).waits == [])
  }

  function DoReapDone(s: State, c: nat): State
    requires CanReapDone(s, c)
  {
    WithCpu(WithProc(s, s.cpus[c].p, Running(s, c).(woken := false)), c, s.cpus[c].(mode := User))
  }

  /** wait_add by a blocking call, under the bucket, on a port it holds a right to. */
  predicate CanWaitAdd(s: State, c: nat, port: nat, send: bool, w: nat)
  {
    && c in s.cpus
    && InMode(s, c, User) && Quiet(s.cpus[c]) && Running(s, c).cur == None && MayChange(s, c, port)
    && w !in s.recs && s.ports[port].refs[Hand(s.cpus[c].p)] >= 1
  }

  function DoWaitAdd(s: State, c: nat, port: nat, send: bool, w: nat): State
    requires CanWaitAdd(s, c, port, send, w)
  {
    var q := s.ports[port];
    var x := Running(s, c);
    WithPort(WithProc(s, s.cpus[c].p, x.(waits := [w] + x.waits)), port, q.(waiters := q.waiters + [w]))
      .(recs := s.recs[w := Waiter(s.cpus[c].p, port, send, true)])
  }

  /** proc_block: every case still unready under its bucket, and registered; and every record registered is a case's. */
  predicate CanSleep(s: State, c: nat, wants: map<Want, nat>)
  {
    && c in s.cpus
    && InMode(s, c, User) && Quiet(s.cpus[c]) && Running(s, c).cur == None
    && (forall want | want in wants :: SleepCase(s, c, want, wants[want]))
    && (forall w | w in Running(s, c).waits :: w in wants.Values)
  }

  function DoSleep(s: State, c: nat, wants: map<Want, nat>): State
    requires CanSleep(s, c, wants)
  {
    var x := Running(s, c);
    WithCpu(WithProc(s, s.cpus[c].p, x.(status := BLOCKED, wants := wants, blocks := x.blocks + 1)),
            c, s.cpus[c].(mode := Yielded))
  }

  predicate CanYield(s: State, c: nat)
  {
    c in s.cpus &&
    (InMode(s, c, User) && Quiet(s.cpus[c]) && Running(s, c).waits == [] && Running(s, c).cur == None)
  }

  function DoYield(s: State, c: nat): State
    requires CanYield(s, c)
  {
    WithCpu(s, c, s.cpus[c].(mode := Yielded))
  }

  /** run_proc spending more weight. */
  predicate CanAgain(s: State, c: nat)
  {
    c in s.cpus &&
    (InMode(s, c, Yielded) && Quiet(s.cpus[c]) && Running(s, c).status == READY)
  }

  function DoAgain(s: State, c: nat): State
    requires CanAgain(s, c)
  {
    WithCpu(s, c, s.cpus[c].(mode := Reap))
  }

  /** release_claim. */
  predicate CanRelease(s: State, c: nat)
  {
    c in s.cpus &&
    (InMode(s, c, Yielded) && Quiet(s.cpus[c]))
  }

  function DoRelease(s: State, c: nat): State
    requires CanRelease(s, c)
  {
    WithCpu(WithProc(s, s.cpus[c].p, Running(s, c).(oncpu := None)), c, s.cpus[c].(mode := Idle))
  }

  datatype Action =
    | Lock(c: nat, b: nat)
    | Leave(c: nat)
    | Push(c: nat, port: nat, cost: nat)
    | Pop(c: nat, port: nat)
    | RefUp(c: nat, port: nat, holder: Holder)
    | Unref(c: nat, port: nat, holder: Holder, lastReceiver: bool)
    | UnrefLast(c: nat, port: nat, holder: Holder)
    | NewPort(c: nat, port: nat, holder: Holder)
    | StartLoop(c: nat)
    | LoopCheck(c: nat)
    | LoopClaim(c: nat)
    | LoopUnlink(c: nat)
    | LoopReady(c: nat)
    | LoopEnd(c: nat)
    | Dispatch(c: nat, p: nat)
    | WaitTake(c: nat)
    | WaitUnlink(c: nat)
    | WaitFree(c: nat)
    | ReapDone(c: nat)
    | WaitAdd(c: nat, port: nat, send: bool, w: nat)
    | Sleep(c: nat, wants: map<Want, nat>)
    | Yield(c: nat)
    | Again(c: nat)
    | Release(c: nat)

  /** One atomic step of one cpu. */
  predicate Step(s: State, a: Action, s': State)
  {
    match a
    case Lock(c, b) => CanLock(s, c, b) && s' == DoLock(s, c, b)
    case Leave(c) => CanLeave(s, c) && s' == DoLeave(s, c)
    case Push(c, port, cost) => CanPush(s, c, port, cost) && s' == DoPush(s, c, port, cost)
    case Pop(c, port) => CanPop(s, c, port) && s' == DoPop(s, c, port)
    case RefUp(c, port, holder) => CanRefUp(s, c, port, holder) && s' == DoRefUp(s, c, port, holder)
    case Unref(c, port, holder, lastReceiver) =>
      CanUnref(s, c, port, holder, lastReceiver) && s' == DoUnref(s, c, port, holder, lastReceiver)
    case UnrefLast(c, port, holder) => CanUnrefLast(s, c, port, holder) && s' == DoUnrefLast(s, c, port, holder)
    case NewPort(c, port, holder) => CanNewPort(s, c, port, holder) && s' == DoNewPort(s, c, port, holder)
    case StartLoop(c) => CanStartLoop(s, c) && s' == DoStartLoop(s, c)
    case LoopCheck(c) => CanLoopCheck(s, c) && s' == DoLoopCheck(s, c)
    case LoopClaim(c) => CanLoopClaim(s, c) && s' == DoLoopClaim(s, c)
    case LoopUnlink(c) => CanLoopUnlink(s, c) && s' == DoLoopUnlink(s, c)
    case LoopReady(c) => CanLoopReady(s, c) && s' == DoLoopReady(s, c)
    case LoopEnd(c) => CanLoopEnd(s, c) && s' == DoLoopEnd(s, c)
    case Dispatch(c, p) => CanDispatch(s, c, p) && s' == DoDispatch(s, c, p)
    case WaitTake(c) => CanWaitTake(s, c) && s' == DoWaitTake(s, c)
    case WaitUnlink(c) => CanWaitUnlink(s, c) && s' == DoWaitUnlink(s, c)
    case WaitFree(c) => CanWaitFree(s, c) && s' == DoWaitFree(s, c)
    case ReapDone(c) => CanReapDone(s, c) && s' == DoReapDone(s, c)
    case WaitAdd(c, port, send, w) => CanWaitAdd(s, c, port, send, w) && s' == DoWaitAdd(s, c, port, send, w)
    case Sleep(c, wants) => CanSleep(s, c, wants) && s' == DoSleep(s, c, wants)
    case Yield(c) => CanYield(s, c) && s' == DoYield(s, c)
    case Again(c) => CanAgain(s, c) && s' == DoAgain(s, c)
    case Release(c) => CanRelease(s, c) && s' == DoRelease(s, c)
  }
}
