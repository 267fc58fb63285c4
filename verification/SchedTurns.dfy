/** Where each region leaves every proc: in which bucket, behind whom, and in whose hands. */
module SchedTurns {
  import opened Options
  import opened RunQueue
  import opened Sched

  /** Where p first stands. */
  function Find(q: seq<nat>, p: nat): (k: nat)
    requires p in q
    ensures k < |q| && q[k] == p && p !in q[..k]
  {
    if q[0] == p then 0 else
      assert q == [q[0]] + q[1..];
      var k := 1 + Find(q[1..], p);
      assert q[..k] == [q[0]] + q[1..][..k - 1];
      k
  }

  /** Taking p out of a bucket closes the gap and moves nothing else. */
  lemma {:induction false} WithoutIs(q: seq<nat>, p: nat)
    ensures if p in q then Without(q, p) == q[..Find(q, p)] + q[Find(q, p) + 1..] else Without(q, p) == q
  {
    if p in q && q[0] != p {
      var r := q[1..];
      assert q == [q[0]] + r;
      WithoutIs(r, p);
      var k := Find(r, p);
      assert q[..k + 1] == [q[0]] + r[..k];
      assert q[k + 1 + 1..] == r[k + 1..];
    }
  }

  /** In t every bucket holds what it held in s, in the order it had, but for p, which stands last in the bucket its
      priority names of the set it says it is on, if it is on one. */
  ghost predicate Requeued(s: State, t: State, p: nat)
  {
    && Shape(s) && Shape(t) && p in t.procs
    && forall i, b | 0 <= i < 2 && 0 <= b < NRQ ::
      t.sets[i].q[b] == Without(s.sets[i].q[b], p) + Tail(t.procs[p], i, b, p)
  }

  ghost function Tail(k: Proc, i: nat, b: nat, p: nat): seq<nat>
  {
    if k.onq == Some(i) && RqBucket(k.pri) == b then [p] else []
  }

  /** A proc on no set is in no bucket. */
  lemma OffQueue(s: State, p: nat)
    requires Inv(s) && p in s.procs && s.procs[p].onq == None
    ensures Shape(s) && forall i, b | 0 <= i < 2 && 0 <= b < NRQ :: p !in s.sets[i].q[b]
  {
    hide Exact, RqBucket;
  }

  /** One on a set is in no bucket but its own. */
  lemma OnQueue(s: State, p: nat, i: nat, b: nat)
    requires Inv(s) && p in s.procs && i < 2 && b < NRQ
    requires s.procs[p].onq != Some(i) || RqBucket(s.procs[p].pri) != b
    ensures Shape(s) && p !in s.sets[i].q[b]
  {
    hide Exact, RqBucket;
  }

  lemma DelBuckets(s: State, p: nat)
    requires Inv(s) && p in s.procs
    ensures s.procs[p].onq.Some? ==> s.procs[p].onq.value < |s.sets| && |s.sets[s.procs[p].onq.value].q| == NRQ
    ensures Shape(s) && Shape(RqDel(s, p))
    ensures forall i, b | 0 <= i < 2 && 0 <= b < NRQ :: RqDel(s, p).sets[i].q[b] == Without(s.sets[i].q[b], p)
  {
    hide Inv, InvBut, RqBucket, Without, RqDel;
    InvShape(s);
    DelInv(s, p);
    InvButShape(RqDel(s, p), Some(p));
    forall i, b | 0 <= i < 2 && 0 <= b < NRQ
      ensures RqDel(s, p).sets[i].q[b] == Without(s.sets[i].q[b], p)
    {
      DelBucket(s, p, i, b);
    }
  }

  lemma DelBucket(s: State, p: nat, i: nat, b: nat)
    requires Inv(s) && p in s.procs && i < 2 && b < NRQ && Shape(s)
    requires s.procs[p].onq.Some? ==> s.procs[p].onq.value < 2
    ensures |RqDel(s, p).sets| == 2 && |RqDel(s, p).sets[i].q| == NRQ
    ensures RqDel(s, p).sets[i].q[b] == Without(s.sets[i].q[b], p)
  {
    hide Inv, RqBucket, Without;
    if s.procs[p].onq != Some(i) || RqBucket(s.procs[p].pri) != b {
      OnQueue(s, p, i, b);
    }
  }

  lemma InvButShape(s: State, x: Option<nat>)
    requires InvBut(s, x)
    ensures Shape(s)
  {}

  lemma AddBuckets(s: State, i: nat, p: nat)
    requires Shape(s) && i < 2 && p in s.procs
    ensures Shape(RqAdd(s, i, p)) && p in RqAdd(s, i, p).procs
    ensures forall j, b | 0 <= j < 2 && 0 <= b < NRQ ::
      RqAdd(s, i, p).sets[j].q[b] == s.sets[j].q[b] + Tail(RqAdd(s, i, p).procs[p], j, b, p)
  {
    hide RqBucket;
  }

  /** make_ready: a held or broken proc is left as it is. Any other is READY at its new price; one a cpu has stays off
      the queues; one that was queued goes to the back of its new bucket in the set it was on, one that was not to
      the back of the running set's; and nobody else is moved. */
  lemma MakeReadyIs(s: State, p: nat, pri: int)
    requires Inv(s) && p in s.procs
    ensures s.procs[p].onq.Some? ==> s.procs[p].onq.value < 2
    ensures Shape(s)
    ensures s.procs[p].status in {Stopped, Broke} ==> MakeReady(s, p, pri) == s
    ensures s.procs[p].status !in {Stopped, Broke} ==>
      var k := s.procs[p];
      var i := if k.oncpu != 0 then None else if k.onq.Some? then k.onq else Some(s.run);
      var t := MakeReady(s, p, pri);
      && t.procs == s.procs[p := k.(status := Ready, pri := pri, onq := i)] && Requeued(s, t, p)
      && t.run == s.run && t.hand == s.hand && t.claim == s.claim
  {
    hide Inv, RqBucket, RqAdd, RqDel, Without, Tail, Requeued;
    InvShape(s);
    QueuedAt(s, p);
    var k := s.procs[p];
    if k.status !in {Stopped, Broke} {
      if k.oncpu != 0 {
        OffQueue(s, p);
        StaysOff(s, p, k.(status := Ready, pri := pri));
      } else {
        DelInv(s, p);
        InvButShape(RqDel(s, p), Some(p));
        Reprice(s, p, pri, if k.onq.Some? then k.onq.value else s.run);
      }
    }
  }

  lemma StaysOff(s: State, p: nat, k: Proc)
    requires Inv(s) && p in s.procs && s.procs[p].onq == None && k.onq == None
    ensures Requeued(s, s.(procs := s.procs[p := k]), p)
  {
    hide Inv, RqBucket, Without;
    OffQueue(s, p);
  }

  lemma Reprice(s: State, p: nat, pri: int, i: nat)
    requires Inv(s) && p in s.procs && i < 2
    requires s.procs[p].onq.Some? ==> s.procs[p].onq.value < |s.sets| && |s.sets[s.procs[p].onq.value].q| == NRQ
    requires Shape(RqDel(s, p)) && RqDel(s, p).procs == s.procs[p := s.procs[p].(onq := None)]
    ensures var t := RqDel(s, p);
      var u := RqAdd(t.(procs := t.procs[p := t.procs[p].(status := Ready, pri := pri)]), i, p);
      && Requeued(s, u, p) && u.procs == s.procs[p := s.procs[p].(status := Ready, pri := pri, onq := Some(i))]
      && u.run == t.run && u.hand == t.hand && u.claim == t.claim
  {
    hide Inv, RqBucket, RqAdd, RqDel, Without, Tail;
    DelBuckets(s, p);
    var t := RqDel(s, p);
    var u := t.(procs := t.procs[p := t.procs[p].(status := Ready, pri := pri)]);
    AddBuckets(u, i, p);
    AddFields(u, i, p);
  }

  /** Giving a proc back: one that is READY joins the back of its bucket for the next lap, any other is on no queue,
      and nobody else is moved. */
  lemma LetGoIs(s0: State, s: State, p: nat)
    requires Inv(s0) && p in s.procs && Dropped(s0, s.(procs := s.procs[p := s.procs[p].(oncpu := 0)]), p)
    requires s.procs == s0.procs && s.sets == s0.sets && s.run == s0.run
    ensures Shape(s) && Requeued(s0, LetGo(s, p), p)
    ensures var i := if s.procs[p].status == Ready then Some(1 - s.run) else None;
      LetGo(s, p).procs == s.procs[p := s.procs[p].(oncpu := 0, onq := i)]
    ensures LetGo(s, p).hand == s.hand && LetGo(s, p).claim == s.claim && LetGo(s, p).run == s.run
  {
    hide Inv, RqBucket, RqAdd, Without, Tail, Requeued, Dropped;
    var t := s.(procs := s.procs[p := s.procs[p].(oncpu := 0)]);
    DroppedInv(s0, t, p);
    DroppedOff(s0, t, p);
    InvShape(s0);
    if s.procs[p].status == Ready {
      AddFields(t, 1 - s.run, p);
      JoinsOthers(s0, t, p, 1 - s.run);
    } else {
      StaysOff(s0, p, t.procs[p]);
      SameBuckets(s0, s0.(procs := t.procs), t, p);
    }
  }

  lemma DroppedOff(s0: State, t: State, p: nat)
    requires Inv(s0) && Dropped(s0, t, p)
    ensures p in s0.procs && s0.procs[p].onq == None && t.sets == s0.sets
  {
    hide Inv;
    QueuedAt(s0, p);
  }

  lemma SameBuckets(s: State, t: State, u: State, p: nat)
    requires Requeued(s, t, p) && u.sets == t.sets && u.procs == t.procs && u.run < 2
    ensures Requeued(s, u, p)
  {}

  lemma JoinsOthers(s: State, t: State, p: nat, i: nat)
    requires Inv(s) && p in s.procs && s.procs[p].onq == None && i < 2 && p in t.procs && Shape(t) && t.sets == s.sets
    ensures Requeued(s, RqAdd(t, i, p), p)
  {
    hide Inv, RqBucket, RqAdd, Without, Tail;
    OffQueue(s, p);
    AddBuckets(t, i, p);
  }

  lemma ReleaseIs(s: State, c: nat)
    requires Inv(s) && c in s.hand
    ensures s.hand[c] in s.procs && Shape(s)
    ensures var p := s.hand[c];
      var i := if s.procs[p].status == Ready then Some(1 - s.run) else None;
      var t := Release(s, c);
      && t.procs == s.procs[p := s.procs[p].(oncpu := 0, onq := i)] && Requeued(s, t, p)
      && t.hand == s.hand - {c} && t.claim == s.claim && t.run == s.run
  {
    hide Inv, LetGo, Requeued;
    HandAt(s, c);
    InvShape(s);
    LetGoIs(s, s.(hand := s.hand - {c}), s.hand[c]);
  }

  lemma ReleaseHeapIs(s: State, c: nat)
    requires Inv(s) && c in s.claim
    ensures s.claim[c] in s.procs && Shape(s)
    ensures var p := s.claim[c];
      var i := if s.procs[p].status == Ready then Some(1 - s.run) else None;
      var t := ReleaseHeap(s, c);
      && t.procs == s.procs[p := s.procs[p].(oncpu := 0, onq := i)] && Requeued(s, t, p)
      && t.claim == s.claim - {c} && t.hand == s.hand && t.run == s.run
  {
    hide Inv, LetGo, Requeued;
    HandAt(s, c);
    InvShape(s);
    LetGoIs(s, s.(claim := s.claim - {c}), s.claim[c]);
  }

  /* ---- what a dispatch passes over ---- */

  ghost predicate AllFrozen(s: State, q: seq<nat>)
  {
    forall p | p in q :: p in s.procs && s.procs[p].frozen > 0
  }

  /** From q, a bucket of the running set, a dispatch took procs from the front, in order, and left r. All it took
      were frozen, and joined the back of d, the same bucket of the next lap, to make e; but the last may be p,
      which is held. */
  ghost predicate Took(s: State, q: seq<nat>, r: seq<nat>, d: seq<nat>, e: seq<nat>, p: Option<nat>)
  {
    && |r| <= |q|
    && var k := |q| - |r|;
       var aside := if p.Some? && k > 0 && q[k - 1] == p.value then q[..k - 1] else q[..k];
       r == q[k..] && AllFrozen(s, aside) && e == d + aside
  }

  ghost predicate PassedAt(s: State, t: State, p: Option<nat>, b: nat)
    requires Shape(s) && Shape(t) && b < NRQ
  {
    Took(s, s.sets[s.run].q[b], t.sets[s.run].q[b], s.sets[1 - s.run].q[b], t.sets[1 - s.run].q[b], p)
  }

  /** Bucket j comes after bucket b. */
  predicate After(high: bool, b: int, j: int)
  {
    if high then j < b else b < j
  }

  /** Every bucket was passed over so, and none was touched while an earlier one held anything. */
  ghost predicate Passed(s: State, t: State, high: bool, p: Option<nat>)
  {
    && Shape(s) && Shape(t) && t.run == s.run
    && (forall b | 0 <= b < NRQ :: PassedAt(s, t, p, b))
    && (forall b, j | 0 <= b < NRQ && 0 <= j < NRQ && After(high, b, j) && t.sets[s.run].q[b] != [] ::
          t.sets[s.run].q[j] == s.sets[s.run].q[j])
  }

  /** The running set holds nothing. */
  ghost predicate LapOver(s: State)
  {
    Shape(s) && forall b | 0 <= b < NRQ :: s.sets[s.run].q[b] == []
  }

  /** Taking the head of the first bucket that holds anything. */
  lemma HeadOff(s: State, high: bool)
    requires Inv(s) && First(s, high).Some?
    ensures First(s, high).value < NRQ && Shape(s) && s.sets[s.run].q[First(s, high).value] != []
    ensures var b := First(s, high).value;
      var p := s.sets[s.run].q[b][0];
      && p in s.procs && s.procs[p].onq == Some(s.run)
      && (forall j | 0 <= j < NRQ && After(high, j, b) :: s.sets[s.run].q[j] == [])
      && RqDel(s, p).sets == s.sets[s.run := RqDel(s, p).sets[s.run]]
      && RqDel(s, p).sets[s.run].q == s.sets[s.run].q[b := s.sets[s.run].q[b][1..]]
      && RqDel(s, p).sets[s.run].n == s.sets[s.run].n - 1
      && RqDel(s, p).procs == s.procs[p := s.procs[p].(onq := None)] && RqDel(s, p).run == s.run
  {
    hide Inv, First, RqBucket;
    InvShape(s);
    TakeLemma(s, high);
  }

  /** Putting it aside. */
  lemma HeadAside(s: State, high: bool)
    requires Inv(s) && First(s, high).Some?
    ensures First(s, high).value < NRQ && Shape(s) && s.sets[s.run].q[First(s, high).value] != []
    ensures var b := First(s, high).value;
      var p := s.sets[s.run].q[b][0];
      && p in s.procs && s.procs[p].onq == Some(s.run)
      && |RqDel(s, p).sets| == 2 && |RqDel(s, p).sets[1 - s.run].q| == NRQ && p in RqDel(s, p).procs
      && var u := RqAdd(RqDel(s, p), 1 - s.run, p);
         && |u.sets| == 2 && u.run == s.run && u.sets[s.run] == RqDel(s, p).sets[s.run]
         && u.sets[1 - s.run].q == s.sets[1 - s.run].q[b := s.sets[1 - s.run].q[b] + [p]]
         && u.procs == s.procs[p := s.procs[p].(onq := Some(1 - s.run))]
  {
    hide Inv, First, RqBucket, RqDel;
    HeadOff(s, high);
    HeadBucket(s, high);
  }

  lemma HeadBucket(s: State, high: bool)
    requires Inv(s) && First(s, high).Some?
    ensures First(s, high).value < NRQ && Shape(s) && s.sets[s.run].q[First(s, high).value] != []
    ensures var p := s.sets[s.run].q[First(s, high).value][0];
      p in s.procs && RqBucket(s.procs[p].pri) == First(s, high).value
  {
    hide Inv, First, RqBucket;
    InvShape(s);
    TakeLemma(s, high);
  }

  lemma NonePassed(s: State, high: bool)
    requires Inv(s)
    ensures Shape(s) && Passed(s, s, high, None) && (First(s, high).None? ==> LapOver(s))
  {
    hide Inv, First;
    InvShape(s);
    TakeLemma(s, high);
  }

  lemma HeldPassed(s: State, c: nat, high: bool)
    requires Inv(s) && First(s, high).Some?
    ensures First(s, high).value < NRQ && Shape(s) && s.sets[s.run].q[First(s, high).value] != []
    ensures var p := s.sets[s.run].q[First(s, high).value][0];
      && p in s.procs && s.procs[p].onq == Some(s.run) && p in RqDel(s, p).procs
      && var t := Hold(RqDel(s, p), c, p).(hand := s.hand[c := p]);
         && Shape(t) && Passed(s, t, high, Some(p)) && t.run == s.run && t.sets[s.run].n == s.sets[s.run].n - 1
         && t.procs[p] == s.procs[p].(onq := None, oncpu := c + 1)
  {
    hide Inv, First, RqDel;
    HeadOff(s, high);
  }

  /** A frozen head put aside, and then what the rest of the region does. */
  lemma AsidePassed(s: State, u: State, t: State, high: bool, r: Option<nat>)
    requires Inv(s) && First(s, high).Some?
    requires First(s, high).value < NRQ && Shape(s) && s.sets[s.run].q[First(s, high).value] != []
    requires var p := s.sets[s.run].q[First(s, high).value][0];
      && p in s.procs && s.procs[p].frozen > 0 && (s.procs[p].onq == Some(s.run)) && p in RqDel(s, p).procs
      && Shape(RqDel(s, p)) && u == RqAdd(RqDel(s, p), 1 - s.run, p)
    requires Passed(u, t, high, r) && (r.Some? ==> r.value in s.procs && s.procs[r.value].frozen == 0)
    ensures Passed(s, t, high, r) && u.sets[s.run].n == s.sets[s.run].n - 1 && u.run == s.run
    ensures var p := s.sets[s.run].q[First(s, high).value][0];
      u.procs == s.procs[p := s.procs[p].(onq := Some(1 - s.run))]
  {
    hide Inv, First, RqDel, RqAdd, PassedAt;
    HeadOff(s, high);
    HeadAside(s, high);
    forall b | 0 <= b < NRQ
      ensures PassedAt(s, t, r, b)
    {
      AsideAt(s, u, t, r, First(s, high).value, b);
    }
    PassedShort(u, t, high, r);
  }

  lemma PassedShort(u: State, t: State, high: bool, r: Option<nat>)
    requires Passed(u, t, high, r)
    ensures forall b | 0 <= b < NRQ :: |t.sets[u.run].q[b]| <= |u.sets[u.run].q[b]|
  {
    forall b | 0 <= b < NRQ
      ensures |t.sets[u.run].q[b]| <= |u.sets[u.run].q[b]|
    {
      assert PassedAt(u, t, r, b);
    }
  }

  lemma AsideAt(s: State, u: State, t: State, r: Option<nat>, h: nat, b: nat)
    requires Shape(s) && Shape(u) && Shape(t) && u.run == s.run && h < NRQ && b < NRQ && s.sets[s.run].q[h] != []
    requires var p := s.sets[s.run].q[h][0];
      && p in s.procs && s.procs[p].frozen > 0 && u.procs == s.procs[p := s.procs[p].(onq := Some(1 - s.run))]
      && u.sets[s.run].q == s.sets[s.run].q[h := s.sets[s.run].q[h][1..]]
      && u.sets[1 - s.run].q == s.sets[1 - s.run].q[h := s.sets[1 - s.run].q[h] + [p]]
    requires PassedAt(u, t, r, b) && (r.Some? ==> r.value in s.procs && s.procs[r.value].frozen == 0)
    ensures PassedAt(s, t, r, b)
  {
    hide Took;
    var q, d := s.sets[s.run].q[b], s.sets[1 - s.run].q[b];
    SameFrozen(s, u, s.sets[s.run].q[h][0], u.sets[s.run].q[b], t.sets[s.run].q[b], u.sets[1 - s.run].q[b],
               t.sets[1 - s.run].q[b], r);
    if b == h {
      TookMore(s, q, t.sets[s.run].q[b], d, t.sets[1 - s.run].q[b], r);
    }
  }

  lemma SameFrozen(s: State, u: State, x: nat, q: seq<nat>, r: seq<nat>, d: seq<nat>, e: seq<nat>, p: Option<nat>)
    requires s.run < 2 && x in s.procs && u.procs == s.procs[x := s.procs[x].(onq := Some(1 - s.run))]
    requires Took(u, q, r, d, e, p)
    ensures Took(s, q, r, d, e, p)
  {
    assert forall a :: AllFrozen(u, a) ==> AllFrozen(s, a);
  }

  lemma TookMore(s: State, q: seq<nat>, r: seq<nat>, d: seq<nat>, e: seq<nat>, p: Option<nat>)
    requires q != [] && q[0] in s.procs && s.procs[q[0]].frozen > 0 && Took(s, q[1..], r, d + [q[0]], e, p)
    requires p.Some? ==> p.value in s.procs && s.procs[p.value].frozen == 0
    ensures Took(s, q, r, d, e, p)
  {
    hide AllFrozen;
    var k := |q| - |r|;
    assert r == q[1..][k - 1..] == q[k..];
    if p.Some? && k > 1 && q[k - 1] == p.value {
      assert q[..k - 1] == [q[0]] + q[1..][..k - 2];
      FrozenCons(s, q[0], q[1..][..k - 2]);
    } else {
      assert q[..k] == [q[0]] + q[1..][..k - 1];
      FrozenCons(s, q[0], q[1..][..k - 1]);
    }
  }

  lemma FrozenCons(s: State, x: nat, a: seq<nat>)
    requires x in s.procs && s.procs[x].frozen > 0 && AllFrozen(s, a)
    ensures AllFrozen(s, [x] + a)
  {}

  /** What dispatch_phase's region takes, in what order, and why it stops: it holds the first unfrozen proc in the
      order asked for, having put the frozen ones before it aside for the next lap; it holds none only when the
      budget is spent or the lap has nothing left. */
  lemma {:induction false} DispatchOrder(s: State, c: nat, high: bool, i: nat, budget: nat)
    requires Inv(s) && c !in s.hand && i <= budget && Shape(s)
    ensures
      var (t, j, p) := Dispatch(s, c, high, i, budget);
      && Shape(t) && Passed(s, t, high, p) && t.run == s.run && t.sets[s.run].n == s.sets[s.run].n - (j - i)
      && (p.None? ==> j == budget || LapOver(t))
      && (p.Some? ==> p.value in s.procs && p.value in t.procs && s.procs[p.value].onq == Some(s.run)
                      && t.procs[p.value] == s.procs[p.value].(onq := None, oncpu := c + 1))
    decreases budget - i
  {
    hide Inv, First, Dispatched, RqAdd, RqDel, Undisturbed, Passed, LapOver;
    if i < budget && First(s, high).Some? {
      DispatchStep(s, c, high);
      var p := s.sets[s.run].q[First(s, high).value][0];
      if s.procs[p].frozen > 0 {
        var u := RqAdd(RqDel(s, p), 1 - s.run, p);
        InvShape(u);
        DispatchOrder(u, c, high, i + 1, budget);
        DispatchInv(u, c, high, i + 1, budget);
        var (t, j, r) := Dispatch(u, c, high, i + 1, budget);
        Unfrozen(s, u, t, c, p, r);
        AsidePassed(s, u, t, high, r);
      } else {
        HeldPassed(s, c, high);
      }
    } else {
      NonePassed(s, high);
    }
  }

  lemma Unfrozen(s: State, u: State, t: State, c: nat, p: nat, r: Option<nat>)
    requires p in s.procs && s.procs[p].frozen > 0 && u.procs.Keys == s.procs.Keys
    requires Undisturbed(s, u, None) && Dispatched(u, t, c, r)
    ensures r.Some? ==> r.value in s.procs && s.procs[r.value].frozen == 0 && r.value != p
  {}

  /* ---- the end of a lap ---- */

  lemma {:induction false} NoLengths(q: seq<seq<nat>>)
    ensures Lengths(q) == 0 <==> forall b | 0 <= b < |q| :: q[b] == []
    decreases |q|
  {
    if q != [] {
      NoLengths(q[1..]);
      assert forall b | 0 <= b < |q[1..]| :: q[1..][b] == q[b + 1];
    }
  }

  /** The swap touches no proc and no bucket. A lap with anything left in it goes on; and once it is done, the lap in
      progress has nothing in it only if nothing at all is queued. */
  lemma SwapTurns(s: State)
    requires Inv(s)
    ensures Shape(s) && Swap(s).procs == s.procs && Swap(s).sets == s.sets
    ensures Swap(s).hand == s.hand && Swap(s).claim == s.claim
    ensures !LapOver(s) ==> Swap(s) == s
    ensures LapOver(Swap(s)) ==> forall p | p in s.procs :: s.procs[p].onq == None
  {
    hide Inv, RqBucket;
    SwapInv(s);
    InvShape(s);
    CountExact(s, 0);
    CountExact(s, 1);
    if LapOver(Swap(s)) {
      assert LapOver(s) && LapOver(s.(run := 1 - s.run));
      forall p | p in s.procs
        ensures s.procs[p].onq == None
      {
        NotQueued(s, p);
      }
    }
  }

  lemma CountExact(s: State, i: nat)
    requires Inv(s) && i < 2
    ensures Shape(s) && (s.sets[i].n == 0 <==> LapOver(s.(run := i))) && s.sets[i].n >= 0
  {
    hide Sorted, Linked, Once, Owned;
    NoLengths(s.sets[i].q);
  }

  lemma NotQueued(s: State, p: nat)
    requires Inv(s) && p in s.procs && LapOver(s.(run := 0)) && LapOver(s.(run := 1))
    ensures s.procs[p].onq == None
  {
    hide Exact, RqBucket;
  }
}
