/** The machine's one pair of run queues: sixteen priority buckets each, a mask of the nonempty ones, and a count. */
module RunQueue {
  import opened Options

  const NRQ: nat := 16
  const MAXWEIGHT: nat := 16
  const PRI_BASE: nat := 10

  datatype Status = Hatching | Ready | Blocked | Stopped | Broke | Dead

  /** A proc as the scheduler sees it. oncpu is 0, or one more than the cpu that has it in hand. */
  datatype Proc = Proc(status: Status, pri: int, oncpu: nat, onq: Option<nat>, frozen: nat)

  datatype RqSet = RqSet(q: seq<seq<nat>>, mask: set<nat>, n: int)

  /** run is the index of the lap in progress; the other set holds those that have had a turn. hand is what each
      cpu dispatched or is collecting; claim is what it holds besides, to release the heap of. */
  datatype State = State(procs: map<nat, Proc>, sets: seq<RqSet>, run: nat, hand: map<nat, nat>, claim: map<nat, nat>)

  /** rq_bucket: a priority's bucket, clamped to the range that exists. */
  function RqBucket(pri: int): (b: nat)
    ensures b < NRQ
    ensures pri <= 0 ==> b == 0
    ensures pri >= MAXWEIGHT * PRI_BASE ==> b == NRQ - 1
  {
    var top := MAXWEIGHT * PRI_BASE;
    var p := if pri < 0 then 0 else if pri > top then top else pri;
    p * (NRQ - 1) / top
  }

  /** A higher priority is never in a lower bucket. */
  lemma BucketMonotone(p: int, q: int)
    requires p <= q
    ensures RqBucket(p) <= RqBucket(q)
  {}

  /* ---- queue contents ---- */

  ghost predicate Distinct(q: seq<nat>)
  {
    forall i, j | 0 <= i < j < |q| :: q[i] != q[j]
  }

  ghost function Lengths(q: seq<seq<nat>>): nat
  {
    if q == [] then 0 else |q[0]| + Lengths(q[1..])
  }

  lemma {:induction false} LengthsSet(q: seq<seq<nat>>, b: nat, r: seq<nat>)
    requires b < |q|
    ensures Lengths(q[b := r]) == Lengths(q) - |q[b]| + |r|
    decreases |q|
  {
    if b == 0 {
      assert q[b := r][1..] == q[1..];
    } else {
      assert q[b := r][1..] == q[1..][b - 1 := r];
      LengthsSet(q[1..], b - 1, r);
    }
  }

  function Without(q: seq<nat>, p: nat): (r: seq<nat>)
    ensures p !in q ==> r == q
    ensures p in q ==> |r| == |q| - 1
  {
    if q == [] then [] else if q[0] == p then q[1..] else [q[0]] + Without(q[1..], p)
  }

  lemma {:induction false} WithoutIn(q: seq<nat>, p: nat)
    requires Distinct(q)
    ensures Distinct(Without(q, p)) && forall x :: x in Without(q, p) <==> x in q && x != p
  {
    if q != [] {
      assert q == [q[0]] + q[1..];
      assert Distinct(q[1..]);
      assert forall j | 0 <= j < |q[1..]| :: q[1..][j] == q[j + 1];
      assert q[0] !in q[1..];
      WithoutIn(q[1..], p);
      if q[0] != p {
        var r := Without(q[1..], p);
        assert q[0] !in r;
        assert Distinct([q[0]] + r);
      }
    }
  }

  /* ---- the queues' invariant ---- */

  ghost predicate Shape(s: State)
  {
    |s.sets| == 2 && s.run < 2 && |s.sets[0].q| == NRQ && |s.sets[1].q| == NRQ
  }

  /** What is in a bucket belongs there. */
  ghost predicate Sorted(s: State)
    requires Shape(s)
  {
    forall i, b, p | 0 <= i < 2 && 0 <= b < NRQ && p in s.sets[i].q[b] ::
      p in s.procs && s.procs[p].onq == Some(i) && RqBucket(s.procs[p].pri) == b
  }

  /** What says it is queued is in its bucket. */
  ghost predicate Linked(s: State)
    requires Shape(s)
  {
    forall p | p in s.procs && s.procs[p].onq.Some? ::
      s.procs[p].onq.value < 2 && p in s.sets[s.procs[p].onq.value].q[RqBucket(s.procs[p].pri)]
  }

  ghost predicate Once(s: State)
    requires Shape(s)
  {
    forall i, b | 0 <= i < 2 && 0 <= b < NRQ :: Distinct(s.sets[i].q[b])
  }

  /** Mask and count are exact. */
  ghost predicate Exact(t: RqSet)
    requires |t.q| == NRQ
  {
    (forall b :: b in t.mask <==> 0 <= b < NRQ && t.q[b] != []) && t.n == Lengths(t.q)
  }

  ghost predicate QueuesOk(s: State)
  {
    Shape(s) && Sorted(s) && Linked(s) && Once(s) && Exact(s.sets[0]) && Exact(s.sets[1])
  }

  /** The consequence: a proc is in at most one bucket of one set, the one its priority names. */
  lemma OneBucket(s: State, p: nat, i: nat, b: nat, j: nat, c: nat)
    requires QueuesOk(s) && i < 2 && j < 2 && b < NRQ && c < NRQ && p in s.sets[i].q[b] && p in s.sets[j].q[c]
    ensures i == j && b == c && p in s.procs && b == RqBucket(s.procs[p].pri) && s.procs[p].onq == Some(i)
  {
    hide Exact, RqBucket;
    assert s.procs[p].onq == Some(i) && RqBucket(s.procs[p].pri) == b;
    assert s.procs[p].onq == Some(j) && RqBucket(s.procs[p].pri) == c;
  }

  /* ---- rq_add and rq_del ---- */

  function SetQ(t: RqSet, b: nat, r: seq<nat>): RqSet
    requires b < |t.q|
  {
    RqSet(t.q[b := r], if r == [] then t.mask - {b} else t.mask + {b}, t.n - |t.q[b]| + |r|)
  }

  lemma SetQExact(t: RqSet, b: nat, r: seq<nat>)
    requires |t.q| == NRQ && Exact(t) && b < NRQ
    ensures Exact(SetQ(t, b, r))
  {
    LengthsSet(t.q, b, r);
  }

  function RqAdd(s: State, i: nat, p: nat): State
    requires i < |s.sets| && p in s.procs && |s.sets[i].q| == NRQ
  {
    var b := RqBucket(s.procs[p].pri);
    s.(sets := s.sets[i := SetQ(s.sets[i], b, s.sets[i].q[b] + [p])],
       procs := s.procs[p := s.procs[p].(onq := Some(i))])
  }

  lemma RqAddOk(s: State, i: nat, p: nat)
    requires QueuesOk(s) && i < 2 && p in s.procs && s.procs[p].onq == None
    ensures QueuesOk(RqAdd(s, i, p))
  {
    hide Exact, RqBucket, Lengths;
    var b := RqBucket(s.procs[p].pri);
    var r := s.sets[i].q[b] + [p];
    SetQExact(s.sets[i], b, r);
    var t := RqAdd(s, i, p);
    assert p !in s.sets[i].q[b];
    assert r[|r| - 1] == p;
    forall q | q in t.procs && t.procs[q].onq.Some?
      ensures t.procs[q].onq.value < 2 && q in t.sets[t.procs[q].onq.value].q[RqBucket(t.procs[q].pri)]
    {
      if q != p {
        assert q in s.sets[s.procs[q].onq.value].q[RqBucket(s.procs[q].pri)];
      }
    }
  }

  function RqDel(s: State, p: nat): State
    requires p in s.procs
    requires (s.procs[p].onq.Some? ==> s.procs[p].onq.value < |s.sets| && |s.sets[s.procs[p].onq.value].q| == NRQ)
  {
    if s.procs[p].onq == None then s else
      var i := s.procs[p].onq.value;
      var b := RqBucket(s.procs[p].pri);
      s.(sets := s.sets[i := SetQ(s.sets[i], b, Without(s.sets[i].q[b], p))],
         procs := s.procs[p := s.procs[p].(onq := None)])
  }

  lemma RqDelOk(s: State, p: nat)
    requires QueuesOk(s) && p in s.procs
    ensures s.procs[p].onq.Some? ==> s.procs[p].onq.value < |s.sets| && |s.sets[s.procs[p].onq.value].q| == NRQ
    ensures QueuesOk(RqDel(s, p)) && RqDel(s, p).procs == s.procs[p := s.procs[p].(onq := None)]
  {
    hide Exact, RqBucket, Lengths;
    if s.procs[p].onq.Some? {
      var i := s.procs[p].onq.value;
      var b := RqBucket(s.procs[p].pri);
      WithoutIn(s.sets[i].q[b], p);
      SetQExact(s.sets[i], b, Without(s.sets[i].q[b], p));
      var t := RqDel(s, p);
      forall q | q in t.procs && t.procs[q].onq.Some?
        ensures t.procs[q].onq.value < 2 && q in t.sets[t.procs[q].onq.value].q[RqBucket(t.procs[q].pri)]
      {
        assert q in s.sets[s.procs[q].onq.value].q[RqBucket(s.procs[q].pri)];
      }
    }
  }

  /** Fields the queues do not read may change. */
  lemma ProcField(s: State, p: nat, k: Proc)
    requires QueuesOk(s) && p in s.procs && k.onq == s.procs[p].onq && (k.pri == s.procs[p].pri || k.onq == None)
    ensures QueuesOk(s.(procs := s.procs[p := k]))
  {
    hide Exact, RqBucket, Lengths;
    var t := s.(procs := s.procs[p := k]);
    forall q | q in t.procs && t.procs[q].onq.Some?
      ensures t.procs[q].onq.value < 2 && q in t.sets[t.procs[q].onq.value].q[RqBucket(t.procs[q].pri)]
    {
      assert q in s.procs && s.procs[q].onq.Some?;
    }
  }
}
