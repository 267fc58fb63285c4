/** Who has each proc: the run queues, a cpu that dispatched it, or a cpu that claimed it. Every schedlock region
    is one step; any interleaving of cpus is a sequence of them. */
module Sched {
  import opened Options
  import opened RunQueue

  /* ---- ownership ---- */

  /** What a cpu has in hand, or claims, says so. */
  ghost predicate Hands(s: State)
  {
    && (forall c | c in s.hand :: s.hand[c] in s.procs && s.procs[s.hand[c]].oncpu == c + 1)
    && (forall c | c in s.claim :: s.claim[c] in s.procs && s.procs[s.claim[c]].oncpu == c + 1)
    && (forall c | c in s.hand && c in s.claim :: s.hand[c] != s.claim[c])
  }

  /** oncpu names a cpu that has the proc. */
  ghost predicate Held(s: State)
  {
    forall p | p in s.procs && s.procs[p].oncpu != 0 :: Holds(s, s.procs[p].oncpu - 1, p)
  }

  /** A queued proc is READY and in nobody's hands. */
  ghost predicate Waiting(s: State)
  {
    forall p | p in s.procs && s.procs[p].onq.Some? :: s.procs[p].oncpu == 0 && s.procs[p].status == Ready
  }

  ghost predicate Owned(s: State)
  {
    Hands(s) && Held(s) && Waiting(s)
  }

  ghost predicate Holds(s: State, c: int, p: nat)
  {
    c >= 0 && ((c in s.hand && s.hand[c] == p) || (c in s.claim && s.claim[c] == p))
  }

  /** Every READY proc is queued or in some cpu's hands; x is one in between, inside a region. */
  ghost predicate NoneLost(s: State, x: Option<nat>)
  {
    forall p | p in s.procs && s.procs[p].status == Ready && x != Some(p) ::
      s.procs[p].onq.Some? || s.procs[p].oncpu != 0
  }

  ghost predicate InvBut(s: State, x: Option<nat>)
  {
    QueuesOk(s) && Owned(s) && NoneLost(s, x)
  }

  ghost predicate Inv(s: State)
  {
    InvBut(s, None)
  }

  /* ---- taking from a queue ---- */

  lemma FirstIs(s: State, i: nat, b: nat)
    requires QueuesOk(s) && Owned(s) && i < 2 && b < NRQ && s.sets[i].q[b] != []
    ensures var p := s.sets[i].q[b][0];
      && p in s.procs && s.procs[p].onq == Some(i) && RqBucket(s.procs[p].pri) == b
      && s.procs[p].oncpu == 0 && s.procs[p].status == Ready
  {
    hide Exact, RqBucket;
    assert s.sets[i].q[b][0] in s.sets[i].q[b];
  }

  lemma DelInv(s: State, p: nat)
    requires Inv(s) && p in s.procs
    ensures s.procs[p].onq.Some? ==> s.procs[p].onq.value < |s.sets| && |s.sets[s.procs[p].onq.value].q| == NRQ
    ensures InvBut(RqDel(s, p), Some(p)) && RqDel(s, p).procs == s.procs[p := s.procs[p].(onq := None)]
    ensures RqDel(s, p).hand == s.hand && RqDel(s, p).claim == s.claim && RqDel(s, p).run == s.run
  {
    hide QueuesOk, Without, RqBucket, SetQ;
    RqDelOk(s, p);
  }

  lemma AddInv(s: State, i: nat, p: nat)
    requires InvBut(s, Some(p)) && i < 2 && p in s.procs && s.procs[p].onq == None && s.procs[p].oncpu == 0
    requires s.procs[p].status == Ready
    ensures Shape(s) && Inv(RqAdd(s, i, p))
  {
    hide Sorted, Linked, Once, Exact, RqBucket, SetQ;
    RqAddOk(s, i, p);
  }

  /* ---- the regions ---- */

  /** A proc table entry is filled. */
  function Spawn(s: State, p: nat): State
  {
    s.(procs := s.procs[p := Proc(Hatching, 0, 0, None, 0)])
  }

  /** make_ready: price it and queue it, unless a cpu has it, which will queue it on letting go. */
  function MakeReady(s: State, p: nat, pri: int): State
    requires p in s.procs && Shape(s) && (s.procs[p].onq.Some? ==> s.procs[p].onq.value < 2)
  {
    var k := s.procs[p];
    if k.status == Stopped || k.status == Broke then s
    else if k.oncpu != 0 then s.(procs := s.procs[p := k.(status := Ready, pri := pri)])
    else
      var t := RqDel(s, p);
      var u := t.(procs := t.procs[p := t.procs[p].(status := Ready, pri := pri)]);
      RqAdd(u, if k.onq.Some? then k.onq.value else s.run, p)
  }

  /** proc_block, by the proc cpu c runs. */
  function Block(s: State, c: nat): State
    requires c in s.hand && s.hand[c] in s.procs && s.procs[s.hand[c]].onq == None
  {
    var p := s.hand[c];
    s.(procs := s.procs[p := s.procs[p].(status := Blocked)])
  }

  /** The proc cpu c runs ends, or breaks. */
  function Finish(s: State, c: nat, how: Status): State
    requires c in s.hand && s.hand[c] in s.procs
  {
    var p := s.hand[c];
    s.(procs := s.procs[p := s.procs[p].(status := how)])
  }

  /** Letting go of p: clear oncpu and queue it for the next lap if a wakeup arrived meanwhile. */
  function LetGo(s: State, p: nat): State
    requires p in s.procs && Shape(s)
  {
    var t := s.(procs := s.procs[p := s.procs[p].(oncpu := 0)]);
    if t.procs[p].status == Ready && t.procs[p].onq == None then RqAdd(t, 1 - s.run, p) else t
  }

  /** release_claim, and the end of a turn of gc_idle_sweep. */
  function Release(s: State, c: nat): State
    requires c in s.hand && s.hand[c] in s.procs && Shape(s)
  {
    LetGo(s.(hand := s.hand - {c}), s.hand[c])
  }

  /** The end of a turn of proc_heaps_release that claimed a proc. */
  function ReleaseHeap(s: State, c: nat): State
    requires c in s.claim && s.claim[c] in s.procs && Shape(s)
  {
    LetGo(s.(claim := s.claim - {c}), s.claim[c])
  }

  /** A parked proc nobody has and nobody is reading may be claimed. */
  predicate Claimable(s: State, p: nat)
  {
    && p in s.procs && s.procs[p].status == Blocked && s.procs[p].oncpu == 0 && s.procs[p].frozen == 0
    && s.procs[p].onq == None
  }

  function Hold(s: State, c: nat, p: nat): State
    requires p in s.procs
  {
    s.(procs := s.procs[p := s.procs[p].(oncpu := c + 1)])
  }

  /** gc_idle_sweep's claim. */
  function ClaimIdle(s: State, c: nat, p: nat): State
    requires p in s.procs
  {
    Hold(s, c, p).(hand := s.hand[c := p])
  }

  /** proc_heaps_release's claim. */
  function ClaimHeap(s: State, c: nat, p: nat): State
    requires p in s.procs
  {
    Hold(s, c, p).(claim := s.claim[c := p])
  }

  function Freeze(s: State, p: nat): State
    requires p in s.procs
  {
    s.(procs := s.procs[p := s.procs[p].(frozen := s.procs[p].frozen + 1)])
  }

  function Thaw(s: State, p: nat): State
    requires p in s.procs
  {
    if s.procs[p].frozen > 0 then s.(procs := s.procs[p := s.procs[p].(frozen := s.procs[p].frozen - 1)]) else s
  }

  /** dispatch_lap's end: whoever finds the lap empty starts the next. */
  function Swap(s: State): State
    requires Shape(s)
  {
    if s.sets[s.run].n == 0 && s.sets[1 - s.run].n > 0 then s.(run := 1 - s.run) else s
  }

  /** The first nonempty bucket in the order asked for: from the top, or from the bottom. */
  function Pick(mask: set<nat>, high: bool, b: int): Option<nat>
    requires -1 <= b <= NRQ
    decreases if high then b else NRQ - b
  {
    if b < 0 || b >= NRQ then None
    else if b in mask then Some(b)
    else if high then Pick(mask, high, b - 1) else Pick(mask, high, b + 1)
  }

  function First(s: State, high: bool): Option<nat>
    requires Shape(s)
  {
    Pick(s.sets[s.run].mask, high, if high then NRQ - 1 else 0)
  }

  /** dispatch_phase's region: take in order, put a frozen proc aside for the next lap, hold the first that is not. */
  function Dispatch(s: State, c: nat, high: bool, i: nat, budget: nat): (State, nat, Option<nat>)
    requires Inv(s)
    decreases budget - i
  {
    if i >= budget || First(s, high) == None then (s, i, None) else
      TakeLemma(s, high);
      var p := s.sets[s.run].q[First(s, high).value][0];
      var t := RqDel(s, p);
      if s.procs[p].frozen > 0 then
        AsideLemma(s, high);
        Dispatch(RqAdd(t, 1 - s.run, p), c, high, i + 1, budget)
      else
        (Hold(t, c, p).(hand := s.hand[c := p]), i + 1, Some(p))
  }

  lemma {:induction false} PickIn(mask: set<nat>, high: bool, b: int)
    requires if high then -1 <= b < NRQ else 0 <= b <= NRQ
    ensures Pick(mask, high, b).Some? ==> Pick(mask, high, b).value in mask && Pick(mask, high, b).value < NRQ
    ensures Pick(mask, high, b).Some? && high ==>
      Pick(mask, high, b).value <= b && forall j | Pick(mask, high, b).value < j <= b && j < NRQ :: j !in mask
    ensures Pick(mask, high, b).Some? && !high ==>
      b <= Pick(mask, high, b).value && forall j | b <= j < Pick(mask, high, b).value && 0 <= j :: j !in mask
    ensures Pick(mask, high, b).None? ==> forall j | 0 <= j < NRQ && (if high then j <= b else b <= j) :: j !in mask
    decreases if high then b else NRQ - b
  {
    if 0 <= b < NRQ && b !in mask {
      PickIn(mask, high, if high then b - 1 else b + 1);
    }
  }

  /** What is taken is the first of the highest, or lowest, bucket with anything in it, and nobody has it. */
  lemma TakeLemma(s: State, high: bool)
    requires Inv(s)
    ensures First(s, high) == None <==> forall b | 0 <= b < NRQ :: s.sets[s.run].q[b] == []
    ensures First(s, high).Some? ==>
      var b := First(s, high).value;
      && b < NRQ && s.sets[s.run].q[b] != []
      && (forall j | 0 <= j < NRQ && (if high then b < j else j < b) :: s.sets[s.run].q[j] == [])
      && var p := s.sets[s.run].q[b][0];
         && p in s.procs && s.procs[p].onq == Some(s.run) && RqBucket(s.procs[p].pri) == b
         && s.procs[p].oncpu == 0 && s.procs[p].status == Ready
  {
    hide Sorted, Linked, Once, RqBucket, Owned;
    PickIn(s.sets[s.run].mask, high, if high then NRQ - 1 else 0);
    if First(s, high).Some? {
      FirstIs(s, s.run, First(s, high).value);
    }
  }

  lemma AsideLemma(s: State, high: bool)
    requires Inv(s) && First(s, high).Some?
    ensures First(s, high).value < NRQ && s.sets[s.run].q[First(s, high).value] != []
    ensures var p := s.sets[s.run].q[First(s, high).value][0];
      && p in s.procs && (s.procs[p].onq == Some(s.run)) && Shape(RqDel(s, p)) && p in RqDel(s, p).procs
      && Inv(RqAdd(RqDel(s, p), 1 - s.run, p))
  {
    hide Sorted, Linked, Once, RqBucket, Owned, Exact;
    TakeLemma(s, high);
    var p := s.sets[s.run].q[First(s, high).value][0];
    DelInv(s, p);
    AddInv(RqDel(s, p), 1 - s.run, p);
  }

  /* ---- every region keeps the invariant ---- */

  lemma SpawnInv(s: State, p: nat)
    requires Inv(s) && p !in s.procs
    ensures Inv(Spawn(s, p))
  {
    hide QueuesOk, Owned;
    SpawnQueues(s, p);
    SpawnOwned(s, p);
  }

  lemma SpawnOwned(s: State, p: nat)
    requires Owned(s) && p !in s.procs
    ensures Owned(Spawn(s, p))
  {}

  lemma SpawnQueues(s: State, p: nat)
    requires QueuesOk(s) && p !in s.procs
    ensures QueuesOk(Spawn(s, p))
  {
    hide Exact, RqBucket;
  }

  lemma FieldInv(s: State, p: nat, k: Proc, x: Option<nat>)
    requires InvBut(s, x) && p in s.procs && k.onq == s.procs[p].onq && (k.pri == s.procs[p].pri || k.onq == None)
    requires k.oncpu == s.procs[p].oncpu && (k.onq.Some? ==> k.status == Ready)
    requires (k.status == Ready ==> s.procs[p].status == Ready || k.oncpu != 0)
    ensures InvBut(s.(procs := s.procs[p := k]), x)
  {
    hide QueuesOk, RqBucket;
    ProcField(s, p, k);
  }

  lemma MakeReadyInv(s: State, p: nat, pri: int)
    requires Inv(s) && p in s.procs
    ensures s.procs[p].onq.Some? ==> s.procs[p].onq.value < 2
    ensures Inv(MakeReady(s, p, pri))
  {
    hide Sorted, Linked, Once, Exact, RqBucket, Owned, RqAdd, Without, SetQ, NoneLost;
    QueuedAt(s, p);
    var k := s.procs[p];
    if k.status == Stopped || k.status == Broke {
    } else if k.oncpu != 0 {
      FieldInv(s, p, k.(status := Ready, pri := pri), None);
    } else {
      DelInv(s, p);
      var t := RqDel(s, p);
      PriceInv(t, p, pri);
      AddInv(t.(procs := t.procs[p := t.procs[p].(status := Ready, pri := pri)]),
             if k.onq.Some? then k.onq.value else s.run, p);
    }
  }

  lemma QueuedAt(s: State, p: nat)
    requires Inv(s) && p in s.procs
    ensures s.procs[p].onq.Some? ==> s.procs[p].onq.value < 2 && s.procs[p].oncpu == 0 && s.procs[p].status == Ready
    ensures s.procs[p].oncpu != 0 ==> s.procs[p].onq == None
  {}

  lemma PriceInv(s: State, p: nat, pri: int)
    requires InvBut(s, Some(p)) && p in s.procs && s.procs[p].onq == None && s.procs[p].oncpu == 0
    ensures InvBut(s.(procs := s.procs[p := s.procs[p].(status := Ready, pri := pri)]), Some(p))
  {
    hide QueuesOk, RqBucket;
    ProcField(s, p, s.procs[p].(status := Ready, pri := pri));
  }

  lemma HandAt(s: State, c: nat)
    requires Inv(s)
    ensures c in s.hand ==> s.hand[c] in s.procs && s.procs[s.hand[c]].oncpu == c + 1 && s.procs[s.hand[c]].onq == None
    ensures c in s.claim ==>
      s.claim[c] in s.procs && s.procs[s.claim[c]].oncpu == c + 1 && s.procs[s.claim[c]].onq == None
  {}

  lemma BlockInv(s: State, c: nat)
    requires Inv(s) && c in s.hand
    ensures s.hand[c] in s.procs && s.procs[s.hand[c]].onq == None && Inv(Block(s, c))
  {
    hide Sorted, Linked, Once, Exact, RqBucket, Owned, NoneLost;
    HandAt(s, c);
    FieldInv(s, s.hand[c], s.procs[s.hand[c]].(status := Blocked), None);
  }

  lemma FinishInv(s: State, c: nat, how: Status)
    requires Inv(s) && c in s.hand && (how == Dead || how == Broke)
    ensures s.hand[c] in s.procs && Inv(Finish(s, c, how))
  {
    hide Sorted, Linked, Once, Exact, RqBucket, Owned, NoneLost;
    HandAt(s, c);
    FieldInv(s, s.hand[c], s.procs[s.hand[c]].(status := how), None);
  }

  /** Cpu c's hold on p is taken away: p leaves its hands, and oncpu is cleared. */
  ghost predicate Dropped(s: State, t: State, p: nat)
  {
    && p in s.procs && s.procs[p].oncpu != 0 && t.procs == s.procs[p := s.procs[p].(oncpu := 0)] && t.sets == s.sets
    && t.run == s.run
    && var c := s.procs[p].oncpu - 1;
       || (c in s.hand && s.hand[c] == p && t.hand == s.hand - {c} && t.claim == s.claim)
       || (c in s.claim && s.claim[c] == p && t.claim == s.claim - {c} && t.hand == s.hand)
  }

  lemma DroppedHands(s: State, t: State, p: nat)
    requires Hands(s) && Dropped(s, t, p)
    ensures Hands(t)
  {}

  lemma DroppedHeld(s: State, t: State, p: nat)
    requires Held(s) && Hands(s) && Dropped(s, t, p)
    ensures Held(t)
  {}

  lemma DroppedInv(s: State, t: State, p: nat)
    requires Inv(s) && Dropped(s, t, p)
    ensures InvBut(t, Some(p)) && t.procs[p].onq == None && t.procs[p].oncpu == 0 && Shape(t)
  {
    hide QueuesOk, RqBucket, Hands, Held;
    QueuedAt(s, p);
    ProcField(s, p, s.procs[p].(oncpu := 0));
    ShapeOf(s);
    SameQueues(s.(procs := t.procs), t);
    DroppedHands(s, t, p);
    DroppedHeld(s, t, p);
  }

  lemma LetGoInv(s0: State, s: State, p: nat)
    requires Inv(s0) && p in s.procs && Dropped(s0, s.(procs := s.procs[p := s.procs[p].(oncpu := 0)]), p)
    ensures Shape(s) && Inv(LetGo(s, p))
  {
    hide Sorted, Linked, Once, Exact, RqBucket, RqAdd, Hands, Held, Waiting, Dropped;
    var t := s.(procs := s.procs[p := s.procs[p].(oncpu := 0)]);
    DroppedInv(s0, t, p);
    if t.procs[p].status == Ready {
      AddInv(t, 1 - s.run, p);
    } 
  }

  lemma ShapeOf(s: State)
    requires QueuesOk(s)
    ensures Shape(s)
  {}

  lemma SameQueues(s: State, t: State)
    requires QueuesOk(s) && t.procs == s.procs && t.sets == s.sets && t.run < 2
    ensures QueuesOk(t)
  {}

  lemma ReleaseInv(s: State, c: nat)
    requires Inv(s) && c in s.hand
    ensures s.hand[c] in s.procs && Shape(s) && Inv(Release(s, c))
  {
    hide Sorted, Linked, Once, Exact, RqBucket, Owned, NoneLost, LetGo;
    HandAt(s, c);
    LetGoInv(s, s.(hand := s.hand - {c}), s.hand[c]);
  }

  lemma ReleaseHeapInv(s: State, c: nat)
    requires Inv(s) && c in s.claim
    ensures s.claim[c] in s.procs && Shape(s) && Inv(ReleaseHeap(s, c))
  {
    hide Sorted, Linked, Once, Exact, RqBucket, Owned, NoneLost, LetGo;
    HandAt(s, c);
    LetGoInv(s, s.(claim := s.claim - {c}), s.claim[c]);
  }

  /** p, in nobody's hands, is taken into cpu c's. */
  ghost predicate Taken(s: State, t: State, c: nat, p: nat)
  {
    && p in s.procs && s.procs[p].oncpu == 0 && s.procs[p].onq == None
    && t.procs == s.procs[p := s.procs[p].(oncpu := c + 1)] && t.sets == s.sets && t.run == s.run
    && ((c !in s.hand && t.hand == s.hand[c := p] && t.claim == s.claim)
        || (c !in s.claim && t.claim == s.claim[c := p] && t.hand == s.hand))
  }

  lemma TakenHands(s: State, t: State, c: nat, p: nat)
    requires Hands(s) && Taken(s, t, c, p)
    ensures Hands(t)
  {}

  lemma TakenHeld(s: State, t: State, c: nat, p: nat)
    requires Held(s) && Taken(s, t, c, p)
    ensures Held(t)
  {}

  lemma TakenInv(s: State, t: State, c: nat, p: nat)
    requires InvBut(s, Some(p)) && Taken(s, t, c, p)
    ensures Inv(t)
  {
    hide QueuesOk, RqBucket, Hands, Held;
    ProcField(s, p, s.procs[p].(oncpu := c + 1));
    ShapeOf(s);
    SameQueues(s.(procs := t.procs), t);
    TakenHands(s, t, c, p);
    TakenHeld(s, t, c, p);
  }

  lemma ClaimIdleInv(s: State, c: nat, p: nat)
    requires Inv(s) && Claimable(s, p) && c !in s.hand
    ensures Inv(ClaimIdle(s, c, p))
  {
    hide QueuesOk, RqBucket, Owned;
    TakenInv(s, ClaimIdle(s, c, p), c, p);
  }

  lemma ClaimHeapInv(s: State, c: nat, p: nat)
    requires Inv(s) && Claimable(s, p) && c !in s.claim
    ensures Inv(ClaimHeap(s, c, p))
  {
    hide QueuesOk, RqBucket, Owned;
    TakenInv(s, ClaimHeap(s, c, p), c, p);
  }

  lemma FrozenInv(s: State, p: nat, n: nat)
    requires Inv(s) && p in s.procs
    ensures Inv(s.(procs := s.procs[p := s.procs[p].(frozen := n)]))
  {
    hide QueuesOk, RqBucket, Owned, NoneLost;
    QueuedAt(s, p);
    FieldInv(s, p, s.procs[p].(frozen := n), None);
  }

  lemma SwapInv(s: State)
    requires Inv(s)
    ensures Shape(s) && Inv(Swap(s))
  {
    hide Exact, RqBucket;
  }

  /** The outcome of a dispatch region. */
  ghost predicate Dispatched(s: State, t: State, c: nat, p: Option<nat>)
  {
    && Inv(t) && t.claim == s.claim && t.run == s.run && t.procs.Keys == s.procs.Keys
    && (p.None? ==> t.hand == s.hand)
    && (p.Some? ==>
          && p.value in s.procs && s.procs[p.value].oncpu == 0 && s.procs[p.value].frozen == 0
          && s.procs[p.value].status == Ready && t.hand == s.hand[c := p.value])
    && Undisturbed(s, t, p)
  }

  /** Only x's hold may have changed, and nobody's freeze, status or priority. */
  ghost predicate Undisturbed(s: State, t: State, x: Option<nat>)
  {
    forall q | q in s.procs ::
      q in t.procs && t.procs[q].frozen == s.procs[q].frozen && t.procs[q].status == s.procs[q].status
                               && t.procs[q].pri == s.procs[q].pri
                               && (x != Some(q) ==> t.procs[q].oncpu == s.procs[q].oncpu)
  }

  /** Dispatching: the queues stay exact, at most budget are taken, and what is held was READY, unfrozen and in
      nobody's hands -- so the two-cpu abort cannot be reached. */
  lemma {:induction false} DispatchInv(s: State, c: nat, high: bool, i: nat, budget: nat)
    requires Inv(s) && c !in s.hand && i <= budget && Shape(s)
    ensures
      var (t, j, p) := Dispatch(s, c, high, i, budget);
      i <= j <= budget && Dispatched(s, t, c, p) && (p.Some? ==> i < j)
    decreases budget - i
  {
    hide Inv, First, Dispatched, RqAdd, RqDel, Undisturbed;
    if i < budget && First(s, high).Some? {
      DispatchStep(s, c, high);
      var p := s.sets[s.run].q[First(s, high).value][0];
      if s.procs[p].frozen > 0 {
        var u := RqAdd(RqDel(s, p), 1 - s.run, p);
        InvShape(u);
        DispatchInv(u, c, high, i + 1, budget);
        var (t, j, r) := Dispatch(u, c, high, i + 1, budget);
        DispatchedAfter(s, u, t, c, r);
      }
    } else {
      DispatchedNone(s, c);
    }
  }

  lemma InvShape(s: State)
    requires Inv(s)
    ensures Shape(s)
  {}

  lemma DispatchedNone(s: State, c: nat)
    requires Inv(s)
    ensures Dispatched(s, s, c, None)
  {}

  lemma DispatchedAfter(s: State, u: State, t: State, c: nat, r: Option<nat>)
    requires u.hand == s.hand && u.claim == s.claim && u.run == s.run && u.procs.Keys == s.procs.Keys
    requires Undisturbed(s, u, None) && Dispatched(u, t, c, r)
    ensures Dispatched(s, t, c, r)
  {}

  /** One turn: the proc is put aside, or held. */
  lemma DispatchStep(s: State, c: nat, high: bool)
    requires Inv(s) && c !in s.hand && Shape(s) && First(s, high).Some?
    ensures First(s, high).value < NRQ && s.sets[s.run].q[First(s, high).value] != []
    ensures var p := s.sets[s.run].q[First(s, high).value][0];
      && p in s.procs && s.procs[p].onq == Some(s.run) && Shape(RqDel(s, p)) && p in RqDel(s, p).procs
      && (s.procs[p].frozen > 0 ==>
            var u := RqAdd(RqDel(s, p), 1 - s.run, p);
            && Inv(u) && u.hand == s.hand && u.claim == s.claim && u.run == s.run
            && u.procs.Keys == s.procs.Keys && Undisturbed(s, u, None))
      && (s.procs[p].frozen == 0 ==> Dispatched(s, Hold(RqDel(s, p), c, p).(hand := s.hand[c := p]), c, Some(p)))
  {
    hide Sorted, Linked, Once, Exact, RqBucket, Owned, NoneLost, Pick, RqDel, RqAdd;
    TakeLemma(s, high);
    var p := s.sets[s.run].q[First(s, high).value][0];
    DelInv(s, p);
    AsideLemma(s, high);
    var t := RqDel(s, p);
    AddFields(t, 1 - s.run, p);
    if s.procs[p].frozen == 0 {
      TakenInv(t, Hold(t, c, p).(hand := s.hand[c := p]), c, p);
    }
  }

  lemma AddFields(s: State, i: nat, p: nat)
    requires i < |s.sets| && p in s.procs && |s.sets[i].q| == NRQ
    ensures
      var t := RqAdd(s, i, p);
      && t.procs == s.procs[p := s.procs[p].(onq := Some(i))]
      && t.hand == s.hand && t.claim == s.claim && t.run == s.run
  {}
}
