/** Whole runs of the scheduler, and the code of its regions. */
module SchedRuns {
  import opened Options
  import opened RunQueue
  import opened Sched
  import opened SchedTurns

  /** One schedlock region. */
  datatype Action =
    | ASpawn(p: nat)
    | AReady(p: nat, pri: int)
    | ABlock(c: nat)
    | AFinish(c: nat, how: Status)
    | ARelease(c: nat)
    | AClaimIdle(c: nat, p: nat)
    | AClaimHeap(c: nat, p: nat)
    | AReleaseHeap(c: nat)
    | AFreeze(p: nat)
    | AThaw(p: nat)
    | ASwap
    | ADispatch(c: nat, high: bool, i: nat, budget: nat)

  /** Region a, run by some cpu, takes s to t. A proc's slot is not reused; a cpu holds one dispatched proc at a
      time, and one claimed besides. */
  ghost predicate Step(s: State, a: Action, t: State)
  {
    Shape(s) &&
    match a
    case ASpawn(p) => p !in s.procs && t == Spawn(s, p)
    case AReady(p, pri) =>
      p in s.procs && (s.procs[p].onq.Some? ==> s.procs[p].onq.value < 2) && t == MakeReady(s, p, pri)
    case ABlock(c) => c in s.hand && s.hand[c] in s.procs && s.procs[s.hand[c]].onq == None && t == Block(s, c)
    case AFinish(c, how) =>
      c in s.hand && s.hand[c] in s.procs && (how == Dead || how == Broke) && t == Finish(s, c, how)
    case ARelease(c) => c in s.hand && s.hand[c] in s.procs && t == Release(s, c)
    case AClaimIdle(c, p) => c !in s.hand && Claimable(s, p) && t == ClaimIdle(s, c, p)
    case AClaimHeap(c, p) => c !in s.claim && Claimable(s, p) && t == ClaimHeap(s, c, p)
    case AReleaseHeap(c) => c in s.claim && s.claim[c] in s.procs && t == ReleaseHeap(s, c)
    case AFreeze(p) => p in s.procs && t == Freeze(s, p)
    case AThaw(p) => p in s.procs && t == Thaw(s, p)
    case ASwap => t == Swap(s)
    case ADispatch(c, high, i, budget) =>
      Inv(s) && c !in s.hand && i <= budget && t == Dispatch(s, c, high, i, budget).0
  }

  /** In a state satisfying the invariant, the guards above that are not the code's own always hold. */
  lemma GuardsHold(s: State, p: nat, c: nat)
    requires Inv(s)
    ensures Shape(s)
    ensures p in s.procs && s.procs[p].onq.Some? ==> s.procs[p].onq.value < 2
    ensures c in s.hand ==> s.hand[c] in s.procs && s.procs[s.hand[c]].onq == None
    ensures c in s.claim ==> s.claim[c] in s.procs
  {
    hide Sorted, Once, Exact, RqBucket, NoneLost, Held;
  }

  lemma StepInv(s: State, a: Action, t: State)
    requires Inv(s) && Step(s, a, t)
    ensures Inv(t)
  {
    hide Inv, MakeReady, Dispatch, Release, ReleaseHeap, Claimable, Swap;
    match a {
      case ASpawn(p) => SpawnInv(s, p);
      case AReady(p, pri) => MakeReadyInv(s, p, pri);
      case ABlock(c) => BlockInv(s, c);
      case AFinish(c, how) => FinishInv(s, c, how);
      case ARelease(c) => ReleaseInv(s, c);
      case AClaimIdle(c, p) => ClaimIdleInv(s, c, p);
      case AClaimHeap(c, p) => ClaimHeapInv(s, c, p);
      case AReleaseHeap(c) => ReleaseHeapInv(s, c);
      case AFreeze(p) => FrozenInv(s, p, s.procs[p].frozen + 1);
      case AThaw(p) => if s.procs[p].frozen > 0 { FrozenInv(s, p, s.procs[p].frozen - 1); }
      case ASwap => SwapInv(s);
      case ADispatch(c, high, i, budget) => DispatchedInv(s, c, high, i, budget);
    }
  }

  lemma DispatchedInv(s: State, c: nat, high: bool, i: nat, budget: nat)
    requires Inv(s) && Shape(s) && c !in s.hand && i <= budget
    ensures Inv(Dispatch(s, c, high, i, budget).0)
    ensures forall p | p in s.procs && s.procs[p].oncpu == 0 && s.procs[p].frozen > 0 ::
      var t := Dispatch(s, c, high, i, budget).0;
      p in t.procs && t.procs[p].oncpu == 0 && t.procs[p].frozen == s.procs[p].frozen
  {
    hide Inv, Dispatch;
    DispatchInv(s, c, high, i, budget);
  }

  ghost function Init(): (s: State)
    ensures Inv(s)
  {
    var none := RqSet(seq(NRQ, _ => []), {}, 0);
    var s := State(map[], [none, none], 0, map[], map[]);
    assert Inv(s) by { EmptyLengths(none.q); }
    s
  }

  lemma {:induction false} EmptyLengths(q: seq<seq<nat>>)
    requires forall b | 0 <= b < |q| :: q[b] == []
    ensures Lengths(q) == 0
    decreases |q|
  {
    if q != [] {
      EmptyLengths(q[1..]);
    }
  }

  /** The regions of run, in that order, take s to t. */
  ghost predicate Runs(s: State, run: seq<Action>, t: State)
    decreases |run|
  {
    if run == [] then t == s else exists u :: Step(s, run[0], u) && Runs(u, run[1..], t)
  }

  /** Ownership holds in every state any interleaving reaches: queues exact, at most one owner, nothing lost. */
  lemma {:induction false} RunInv(s: State, run: seq<Action>, t: State)
    requires Inv(s) && Runs(s, run, t)
    ensures Inv(t)
    decreases |run|
  {
    hide Inv, Step;
    if run != [] {
      var u :| Step(s, run[0], u) && Runs(u, run[1..], t);
      StepInv(s, run[0], u);
      RunInv(u, run[1..], t);
    }
  }

  /** Two cpus never have the same proc, nor does a queue have one a cpu has; a READY proc is somewhere. */
  lemma OneOwner(run: seq<Action>, t: State, p: nat, c: nat, d: nat)
    requires Runs(Init(), run, t) && p in t.procs
    ensures Holds(t, c, p) && Holds(t, d, p) ==> c == d
    ensures Holds(t, c, p) ==> t.procs[p].onq == None && forall i, b | 0 <= i < |t.sets| && 0 <= b < |t.sets[i].q| ::
      p !in t.sets[i].q[b]
    ensures t.procs[p].status == Ready ==>
      t.procs[p].onq.Some? || (t.procs[p].oncpu > 0 && Holds(t, t.procs[p].oncpu - 1, p))
  {
    hide Inv, Runs, Init;
    RunInv(Init(), run, t);
    Owners(t, p, c, d);
  }

  lemma Owners(t: State, p: nat, c: nat, d: nat)
    requires Inv(t) && p in t.procs
    ensures Holds(t, c, p) && Holds(t, d, p) ==> c == d
    ensures Holds(t, c, p) ==> t.procs[p].onq == None && forall i, b | 0 <= i < |t.sets| && 0 <= b < |t.sets[i].q| ::
      p !in t.sets[i].q[b]
    ensures t.procs[p].status == Ready ==>
      t.procs[p].onq.Some? || (t.procs[p].oncpu > 0 && Holds(t, t.procs[p].oncpu - 1, p))
  {
    hide Linked, Once, Exact, RqBucket;
  }

  /* ---- waking ---- */

  /** Whether a proc is runnable is changed only by waking it, by the cpu that has it blocking or ending it; so a proc
      woken while a cpu has it is READY until that cpu next blocks it, and by NoneLost queued once it is let go. */
  lemma StatusStep(s: State, a: Action, t: State, p: nat)
    requires Inv(s) && Step(s, a, t) && p in s.procs
    ensures p in t.procs && (a.ABlock? || a.AFinish? ==> a.c in s.hand)
    ensures t.procs[p].status == (
      match a
      case AReady(q, _) => if q == p && s.procs[p].status !in {Stopped, Broke} then Ready else s.procs[p].status
      case ABlock(c) => if s.hand[c] == p then Blocked else s.procs[p].status
      case AFinish(c, how) => if s.hand[c] == p then how else s.procs[p].status
      case _ => s.procs[p].status)
  {
    hide Inv, MakeReady, Dispatch, Release, ReleaseHeap, Requeued;
    match a {
      case AReady(q, pri) => MakeReadyIs(s, q, pri);
      case ARelease(c) => ReleaseIs(s, c);
      case AReleaseHeap(c) => ReleaseHeapIs(s, c);
      case ADispatch(c, high, i, budget) => DispatchInv(s, c, high, i, budget);
      case _ =>
    }
  }

  /** The regions of run take s to t, and in none of them does the cpu that runs p block it or end it. */
  ghost predicate Undone(s: State, run: seq<Action>, t: State, p: nat)
    decreases |run|
  {
    if run == [] then t == s else exists u ::
      && Step(s, run[0], u) && Undone(u, run[1..], t, p)
      && !((run[0].ABlock? || run[0].AFinish?) && run[0].c in s.hand && s.hand[run[0].c] == p)
  }

  /** No wakeup is lost: from the region that makes p READY, whatever the other cpus do, it is READY, and queued or in
      the hands of a cpu, until the cpu running it blocks it or ends it. */
  lemma {:induction false} WakeKept(s: State, run: seq<Action>, t: State, p: nat)
    requires Inv(s) && p in s.procs && s.procs[p].status == Ready && Undone(s, run, t, p)
    ensures p in t.procs && t.procs[p].status == Ready
    ensures t.procs[p].onq.Some? || (t.procs[p].oncpu > 0 && Holds(t, t.procs[p].oncpu - 1, p))
    decreases |run|
  {
    hide Inv, Step, Holds;
    if run == [] {
      Owners(t, p, 0, 0);
    } else {
      var u :| && Step(s, run[0], u) && Undone(u, run[1..], t, p)
               && !((run[0].ABlock? || run[0].AFinish?) && run[0].c in s.hand && s.hand[run[0].c] == p);
      StepInv(s, run[0], u);
      StatusStep(s, run[0], u, p);
      WakeKept(u, run[1..], t, p);
    }
  }

  /* ---- freezing ---- */

  /** No prefix of the run thaws p more than it freezes it: the freeze we start from is never the one undone. */
  ghost predicate Unmatched(run: seq<Action>, p: nat, n: nat)
    decreases |run|
  {
    && n > 0
    && (run == []
        || (var m := if run[0] == AFreeze(p) then n + 1 else if run[0] == AThaw(p) then n - 1 else n;
            Unmatched(run[1..], p, m)))
  }

  lemma FrozenStays(s: State, a: Action, t: State, p: nat)
    requires Inv(s) && Step(s, a, t) && p in s.procs && s.procs[p].frozen > 0 && s.procs[p].oncpu == 0
    ensures p in t.procs && t.procs[p].oncpu == 0
    ensures t.procs[p].frozen == (if a == AFreeze(p) then s.procs[p].frozen + 1
                                  else if a == AThaw(p) then s.procs[p].frozen - 1
                                  else s.procs[p].frozen)
  {
    hide Inv, MakeReady, Dispatch, Release, ReleaseHeap;
    match a {
      case AReady(q, pri) => ReadyFields(s, q, pri);
      case ARelease(c) => ReleaseFields(s, c);
      case AReleaseHeap(c) => ReleaseHeapFields(s, c);
      case ADispatch(c, high, i, budget) => DispatchedInv(s, c, high, i, budget);
      case _ =>
    }
  }

  lemma ReadyFields(s: State, p: nat, pri: int)
    requires Inv(s) && p in s.procs
    ensures s.procs[p].onq.Some? ==> s.procs[p].onq.value < 2
    ensures forall q | q in s.procs ::
      && q in MakeReady(s, p, pri).procs && MakeReady(s, p, pri).procs[q].oncpu == s.procs[q].oncpu
      && MakeReady(s, p, pri).procs[q].frozen == s.procs[q].frozen
  {
    hide Sorted, Linked, Once, Exact, RqBucket, NoneLost, Held, Without, SetQ;
    QueuedAt(s, p);
  }

  lemma LetGoFields(s: State, p: nat)
    requires Shape(s) && p in s.procs
    ensures forall q | q in s.procs :: q in LetGo(s, p).procs && LetGo(s, p).procs[q].frozen == s.procs[q].frozen
    ensures forall q | q in s.procs && q != p :: LetGo(s, p).procs[q].oncpu == s.procs[q].oncpu
    ensures LetGo(s, p).procs[p].oncpu == 0
  {}

  lemma ReleaseFields(s: State, c: nat)
    requires Inv(s) && c in s.hand
    ensures s.hand[c] in s.procs && Shape(s)
    ensures forall q | q in s.procs ::
      && q in Release(s, c).procs && Release(s, c).procs[q].frozen == s.procs[q].frozen
      && (s.procs[q].oncpu == 0 ==> Release(s, c).procs[q].oncpu == 0)
  {
    hide Sorted, Linked, Once, Exact, RqBucket, NoneLost, Held, LetGo;
    LetGoFields(s.(hand := s.hand - {c}), s.hand[c]);
  }

  lemma ReleaseHeapFields(s: State, c: nat)
    requires Inv(s) && c in s.claim
    ensures s.claim[c] in s.procs && Shape(s)
    ensures forall q | q in s.procs ::
      && q in ReleaseHeap(s, c).procs && ReleaseHeap(s, c).procs[q].frozen == s.procs[q].frozen
      && (s.procs[q].oncpu == 0 ==> ReleaseHeap(s, c).procs[q].oncpu == 0)
  {
    hide Sorted, Linked, Once, Exact, RqBucket, NoneLost, Held, LetGo;
    LetGoFields(s.(claim := s.claim - {c}), s.claim[c]);
  }

  /** proc_freeze that reports not running keeps its word: until the thaw that matches it, whatever the other cpus
      do, no cpu has the proc. */
  lemma {:induction false} FrozenRuns(s: State, run: seq<Action>, t: State, p: nat)
    requires Inv(s) && Runs(s, run, t) && p in s.procs && s.procs[p].oncpu == 0 && Unmatched(run, p, s.procs[p].frozen)
    ensures p in t.procs && t.procs[p].oncpu == 0 && t.procs[p].frozen > 0 && forall c: nat :: !Holds(t, c, p)
    decreases |run|
  {
    hide Inv, Step, Holds;
    if run == [] {
      NotHeld(t, p);
    } else {
      var u :| Step(s, run[0], u) && Runs(u, run[1..], t);
      StepInv(s, run[0], u);
      FrozenStays(s, run[0], u, p);
      FrozenRuns(u, run[1..], t, p);
    }
  }

  lemma NotHeld(t: State, p: nat)
    requires Inv(t) && p in t.procs && t.procs[p].oncpu == 0
    ensures forall c: nat :: !Holds(t, c, p)
  {}

  /* ---- the code ---- */

  /** p is what a take in that order finds. */
  ghost predicate IsFirst(s: State, high: bool, p: nat)
  {
    && Shape(s) && First(s, high).Some? && First(s, high).value < NRQ && s.sets[s.run].q[First(s, high).value] != []
    && p == s.sets[s.run].q[First(s, high).value][0] && p in s.procs && s.procs[p].onq == Some(s.run)
    && s.procs[p].oncpu == 0
    && (forall j | 0 <= j < NRQ && (if high then First(s, high).value < j else j < First(s, high).value) ::
          s.sets[s.run].q[j] == [])
  }

  lemma FirstFacts(s: State, high: bool)
    requires Inv(s) && Shape(s) && First(s, high).Some?
    ensures First(s, high).value < NRQ && s.sets[s.run].q[First(s, high).value] != []
    ensures IsFirst(s, high, s.sets[s.run].q[First(s, high).value][0])
  {
    TakeLemma(s, high);
  }

  lemma DispatchTurn(s: State, c: nat, high: bool, i: nat, budget: nat)
    requires Inv(s) && Shape(s)
    ensures i >= budget || First(s, high) == None ==> Dispatch(s, c, high, i, budget) == (s, i, None)
  {}

  /** What the turn that takes p comes to. */
  lemma TurnOf(s: State, c: nat, high: bool, i: nat, budget: nat, p: nat)
    requires Inv(s) && Shape(s) && c !in s.hand && i < budget && IsFirst(s, high, p)
    ensures Shape(RqDel(s, p)) && RqDel(s, p).procs == s.procs[p := s.procs[p].(onq := None)] && p in s.procs
    ensures s.procs[p].oncpu == 0
    ensures RqDel(s, p).hand == s.hand && RqDel(s, p).run == s.run && s.procs[p].onq == Some(s.run)
    ensures s.procs[p].frozen == 0 ==>
      Dispatch(s, c, high, i, budget) == (Hold(RqDel(s, p), c, p).(hand := s.hand[c := p]), i + 1, Some(p))
    ensures s.procs[p].frozen > 0 ==>
      var u := RqAdd(RqDel(s, p), 1 - s.run, p);
      Inv(u) && Shape(u) && u.hand == s.hand && Dispatch(s, c, high, i, budget) == Dispatch(u, c, high, i + 1, budget)
  {
    hide Sorted, Linked, Once, Exact, Hands, Held, NoneLost, First, RqDel, RqAdd;
    DispatchStep(s, c, high);
    DelFields(s, p);
  }

  lemma DelFields(s: State, p: nat)
    requires Inv(s) && p in s.procs && s.procs[p].onq == Some(s.run)
    ensures RqDel(s, p).procs == s.procs[p := s.procs[p].(onq := None)] && RqDel(s, p).hand == s.hand
    ensures RqDel(s, p).run == s.run
  {
    hide Inv;
    DelInv(s, p);
  }

  /** p is at the front of the highest, or the lowest, bucket of the running set with anything in it. */
  ghost predicate IsHead(s: State, high: bool, p: nat)
  {
    && Shape(s) && p in s.procs && s.procs[p].onq == Some(s.run)
    && var b := RqBucket(s.procs[p].pri);
       && s.sets[s.run].q[b] != [] && s.sets[s.run].q[b][0] == p
       && forall j | 0 <= j < NRQ && After(high, j, b) :: s.sets[s.run].q[j] == []
  }

  lemma HeadTaken(s: State, high: bool)
    requires Inv(s) && Shape(s) && First(s, high).Some?
    ensures First(s, high).value < NRQ && s.sets[s.run].q[First(s, high).value] != []
    ensures var p := s.sets[s.run].q[First(s, high).value][0];
      && p in s.procs && s.procs[p].onq == Some(s.run) && IsHead(s, high, p) && Requeued(s, RqDel(s, p), p)
      && RqDel(s, p).run == s.run && RqDel(s, p).hand == s.hand && RqDel(s, p).claim == s.claim
  {
    hide Inv, First, RqDel, Without;
    HeadOff(s, high);
    HeadBucket(s, high);
    var p := s.sets[s.run].q[First(s, high).value][0];
    DelBuckets(s, p);
    DelInv(s, p);
  }

  lemma NotOver(s: State, high: bool)
    requires Inv(s) && Shape(s) && LapOver(s)
    ensures First(s, high).None?
  {
    hide Inv, First;
    TakeLemma(s, high);
  }

  class Scheduler {
    var procs: map<nat, Proc>
    var sets: seq<RqSet>
    var run: nat
    var hand: map<nat, nat>
    var claim: map<nat, nat>

    ghost function View(): State
      reads this
    {
      State(procs, sets, run, hand, claim)
    }

    /** rq_init. */
    constructor ()
      ensures View() == Init() && Inv(View())
    {
      var none := RqSet(seq(NRQ, _ => []), {}, 0);
      procs, sets, run, hand, claim := map[], [none, none], 0, map[], map[];
    }

    /** rq_add. */
    method Add(i: nat, p: nat)
      requires Shape(View()) && i < 2 && p in procs
      modifies this
      ensures View() == RqAdd(old(View()), i, p)
    {
      var t := sets[i];
      var b := RqBucket(procs[p].pri);
      t := RqSet(t.q[b := t.q[b] + [p]], t.mask + {b}, t.n + 1);
      sets := sets[i := t];
      procs := procs[p := procs[p].(onq := Some(i))];
    }

    /** rq_del: nothing, if p is on no queue. */
    method Del(p: nat)
      requires QueuesOk(View()) && p in procs
      modifies this
      ensures procs == old(procs)[p := old(procs)[p].(onq := None)]
      ensures old(procs)[p].onq.Some? ==> old(procs)[p].onq.value < 2 && View() == RqDel(old(View()), p)
      ensures old(procs)[p].onq.None? ==> View() == old(View())
    {
      hide Exact;
      RqDelOk(View(), p);
      if procs[p].onq == None {
        return;
      }
      var i := procs[p].onq.value;
      var t := sets[i];
      var b := RqBucket(procs[p].pri);
      assert p in t.q[b];
      var r := Without(t.q[b], p);
      t := RqSet(t.q[b := r], if r == [] then t.mask - {b} else t.mask, t.n - 1);
      assert r != [] ==> t.mask == t.mask + {b} by { MaskHas(View(), i, b); }
      sets := sets[i := t];
      procs := procs[p := procs[p].(onq := None)];
    }

    /** The scan both takes share: down from the top bucket, or up from the bottom one. */
    method Scan(high: bool) returns (b: Option<nat>)
      requires Shape(View())
      ensures b == First(View(), high)
    {
      var j := if high then NRQ - 1 else 0;
      while 0 <= j < NRQ
        invariant if high then -1 <= j < NRQ else 0 <= j <= NRQ
        invariant First(View(), high) == Pick(sets[run].mask, high, j)
        decreases if high then j else NRQ - j
      {
        if j in sets[run].mask {
          return Some(j);
        }
        j := if high then j - 1 else j + 1;
      }
      b := None;
    }

    /** make_ready's region. */
    method Ready(p: nat, pri: int)
      requires Inv(View()) && p in procs
      modifies this
      ensures old(procs)[p].status in {Stopped, Broke} ==> View() == old(View())
      ensures old(procs)[p].status !in {Stopped, Broke} ==>
        var k := old(procs)[p];
        var i := if k.oncpu != 0 then None else if k.onq.Some? then k.onq else Some(run);
        && procs == old(procs)[p := k.(status := RunQueue.Ready, pri := pri, onq := i)]
        && Requeued(old(View()), View(), p)
      ensures run == old(run) && hand == old(hand) && claim == old(claim)
      ensures Inv(View()) && Shape(old(View())) && (old(procs)[p].onq.Some? ==> old(procs)[p].onq.value < 2)
      ensures View() == MakeReady(old(View()), p, pri)
    {
      ghost var s := View();
      MakeReadyInv(s, p, pri);
      MakeReadyIs(s, p, pri);
      QueuedAt(s, p);
      hide Inv, Requeued;
      if procs[p].status == Stopped || procs[p].status == Broke {
        return;
      }
      if procs[p].oncpu != 0 {
        procs := procs[p := procs[p].(status := RunQueue.Ready, pri := pri)];
        return;
      }
      Rebucket(p, pri);
    }

    /** Its last half: p, which no cpu has, moves to the back of the bucket its new price names. */
    method Rebucket(p: nat, pri: int)
      requires Inv(View()) && p in procs && procs[p].oncpu == 0 && procs[p].status !in {Stopped, Broke}
      modifies this
      ensures Shape(old(View())) && (old(procs)[p].onq.Some? ==> old(procs)[p].onq.value < 2)
      ensures View() == MakeReady(old(View()), p, pri)
    {
      ghost var s := View();
      QueuedAt(s, p);
      InvShape(s);
      DelInv(s, p);
      InvButShape(RqDel(s, p), Some(p));
      InvQueues(s);
      hide Inv, InvBut, QueuesOk, RqAdd;
      var keep := procs[p].onq;
      if keep.Some? {
        Del(p);
      }
      procs := procs[p := procs[p].(status := RunQueue.Ready, pri := pri)];
      Add(if keep.Some? then keep.value else run, p);
    }

    /** rq_take_high and rq_take_any: the first of the highest, or the lowest, nonempty bucket. */
    method Take(high: bool) returns (p: Option<nat>)
      requires Inv(View()) && Shape(View())
      modifies this
      ensures p.None? <==> LapOver(old(View()))
      ensures p.None? ==> View() == old(View())
      ensures p.Some? ==>
        && IsHead(old(View()), high, p.value) && procs == old(procs)[p.value := old(procs)[p.value].(onq := None)]
        && Requeued(old(View()), View(), p.value)
      ensures run == old(run) && hand == old(hand) && claim == old(claim)
      ensures p.None? <==> First(old(View()), high) == None
      ensures p.Some? ==> IsFirst(old(View()), high, p.value) && View() == RqDel(old(View()), p.value)
    {
      hide Inv, First, RqBucket, Requeued, IsHead, LapOver, RqDel, IsFirst;
      ghost var s := View();
      var b := Scan(high);
      NonePassed(s, high);
      if LapOver(s) {
        NotOver(s, high);
      }
      if b == None {
        return None;
      }
      FirstFacts(s, high);
      HeadTaken(s, high);
      InvQueues(s);
      p := Some(sets[run].q[b.value][0]);
      Del(p.value);
    }

    /** dispatch_phase's region: set frozen procs aside, hold the first other. The abort is dead code. */
    method Next(c: nat, high: bool, i0: nat, budget: nat) returns (i: nat, p: Option<nat>)
      requires Inv(View()) && c !in hand && i0 <= budget && Shape(View())
      modifies this
      ensures Passed(old(View()), View(), high, p) && i0 <= i <= budget
      ensures |sets| == |old(sets)| == 2 && run == old(run) < 2 && sets[run].n == old(sets)[run].n - (i - i0)
      ensures p.None? ==> i == budget || LapOver(View())
      ensures p.Some? ==>
        && p.value in old(procs) && p.value in procs && old(procs)[p.value].onq == Some(run)
        && procs[p.value] == old(procs)[p.value].(onq := None, oncpu := c + 1)
      ensures Dispatched(old(View()), View(), c, p)
      ensures (View(), i, p) == Dispatch(old(View()), c, high, i0, budget)
    {
      hide Inv, Dispatched, First, Dispatch, RqDel, RqAdd, IsFirst, IsHead, Undisturbed, Passed, LapOver, Requeued;
      ghost var s := View();
      DispatchInv(s, c, high, i0, budget);
      DispatchOrder(s, c, high, i0, budget);
      i := i0;
      while i < budget
        invariant i0 <= i <= budget && Inv(View()) && Shape(View()) && c !in hand
        invariant Dispatch(View(), c, high, i, budget) == Dispatch(s, c, high, i0, budget)
      {
        ghost var u := View();
        DispatchTurn(u, c, high, i, budget);
        p := Take(high);
        if p == None {
          return;
        }
        var q := p.value;
        TurnOf(u, c, high, i, budget, q);
        if procs[q].frozen == 0 {
          if procs[q].oncpu != 0 {
            assert false;
          }
          procs := procs[q := procs[q].(oncpu := c + 1)];
          hand := hand[c := q];
          i := i + 1;
          return;
        }
        Add(1 - run, q);
        i := i + 1;
      }
      p := None;
      DispatchTurn(View(), c, high, i, budget);
    }

    /** proc_freeze: raised either way; says whether some cpu has the proc now. */
    method ProcFreeze(p: nat) returns (running: bool)
      requires Inv(View()) && p in procs
      modifies this
      ensures procs == old(procs)[p := old(procs)[p].(frozen := old(procs)[p].frozen + 1)]
      ensures sets == old(sets) && run == old(run) && hand == old(hand) && claim == old(claim)
      ensures Inv(View()) && View() == Freeze(old(View()), p)
      ensures running <==> exists c: nat :: Holds(View(), c, p)
    {
      hide QueuesOk, NoneLost;
      FrozenInv(View(), p, procs[p].frozen + 1);
      procs := procs[p := procs[p].(frozen := procs[p].frozen + 1)];
      running := procs[p].oncpu != 0;
      if running {
        assert Holds(View(), procs[p].oncpu - 1, p);
      }
    }

    /** proc_thaw. */
    method ProcThaw(p: nat)
      requires Inv(View()) && p in procs
      modifies this
      ensures var n := old(procs)[p].frozen;
        procs == old(procs)[p := old(procs)[p].(frozen := if n > 0 then n - 1 else 0)]
      ensures sets == old(sets) && run == old(run) && hand == old(hand) && claim == old(claim)
      ensures Inv(View()) && View() == Thaw(old(View()), p)
    {
      hide QueuesOk, NoneLost, Owned;
      if procs[p].frozen > 0 {
        FrozenInv(View(), p, procs[p].frozen - 1);
        procs := procs[p := procs[p].(frozen := procs[p].frozen - 1)];
      }
    }

    /** proc_heaps_release's claim of one proc: its own is used as it is, a parked one is claimed, any other is left. */
    method HeapClaim(c: nat, p: nat) returns (use: bool, claimed: bool)
      requires Inv(View()) && c !in claim
      modifies this
      ensures claimed <==>
        && p in old(procs) && old(procs)[p].status == Blocked && old(procs)[p].oncpu == 0
        && old(procs)[p].frozen == 0 && old(procs)[p].onq == None
      ensures use <==> claimed || (p in old(procs) && old(procs)[p].frozen == 0 && Holds(old(View()), c, p))
      ensures claimed ==>
        && procs == old(procs)[p := old(procs)[p].(oncpu := c + 1)] && claim == old(claim)[c := p]
        && sets == old(sets) && run == old(run) && hand == old(hand)
      ensures !claimed ==> View() == old(View())
      ensures use ==> p in procs && procs[p].frozen == 0 && Holds(View(), c, p)
      ensures Inv(View()) && (claimed ==> Claimable(old(View()), p) && View() == ClaimHeap(old(View()), c, p))
    {
      hide QueuesOk, NoneLost;
      if p !in procs || procs[p].frozen > 0 {
        return false, false;
      }
      if procs[p].oncpu == c + 1 {
        return true, false;
      }
      if procs[p].oncpu != 0 || procs[p].status != Blocked || procs[p].onq != None {
        return false, false;
      }
      ClaimHeapInv(View(), c, p);
      procs := procs[p := procs[p].(oncpu := c + 1)];
      claim := claim[c := p];
      return true, true;
    }

    /** release_claim's region. */
    method LetGo(c: nat)
      requires Inv(View()) && c in hand
      modifies this
      ensures old(hand)[c] in old(procs) && old(run) == run < 2
      ensures var p := old(hand)[c];
        var i := if old(procs)[p].status == RunQueue.Ready then Some(1 - run) else None;
        procs == old(procs)[p := old(procs)[p].(oncpu := 0, onq := i)] && Requeued(old(View()), View(), p)
      ensures hand == old(hand) - {c} && claim == old(claim)
      ensures Inv(View()) && Shape(old(View())) && View() == Release(old(View()), c)
    {
      hide Inv, Requeued;
      ReleaseInv(View(), c);
      ReleaseIs(View(), c);
      var p := hand[c];
      hand := hand - {c};
      procs := procs[p := procs[p].(oncpu := 0)];
      if procs[p].status == RunQueue.Ready && procs[p].onq == None {
        Add(1 - run, p);
      }
    }
  }

  lemma MaskHas(s: State, i: nat, b: nat)
    requires QueuesOk(s) && i < 2 && b < NRQ && s.sets[i].q[b] != []
    ensures b in s.sets[i].mask
  {}

  lemma InvQueues(s: State)
    requires Inv(s)
    ensures QueuesOk(s)
  {}
}
