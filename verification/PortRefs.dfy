/** Reference counts of ports against everything that holds a reference: handle tables, messages in
    flight, and the kernel's own pointers.

    A port is named by its slot in portv and by the generation stamped into it. Every table entry keeps the
    generation its port had when the reference was taken, as a pointer would. */
module PortRefs {
  import opened Options

  const MAXRIGHTS: nat := 512
  const MAXMSGRIGHTS: nat := 32
  const MAXQUEUE: nat := 65536

  /** A reference: the slot, the generation named when it was taken, and whether it is a receive right. */
  datatype Ref = Ref(idx: nat, gen: nat, recv: bool)

  datatype Port = Port(gen: nat, nrights: int, nrecv: int, dead: bool, queue: seq<nat>, qbytes: int)

  /** A message: how many references it was given, the port it is queued on, if any, and what it took off that
      port's budget. */
  datatype Msg = Msg(nrefs: nat, at: Option<nat>, cost: nat)

  /* ---- counting ---- */

  ghost function Keys<K>(t: map<K, Ref>, i: nat): set<K>
  {
    set k | k in t && t[k].idx == i
  }

  ghost function RecvKeys<K>(t: map<K, Ref>, i: nat): set<K>
  {
    set k | k in t && t[k].idx == i && t[k].recv
  }

  ghost function Count<K>(t: map<K, Ref>, i: nat): nat
  {
    |Keys(t, i)|
  }

  ghost function CountRecv<K>(t: map<K, Ref>, i: nat): nat
  {
    |RecvKeys(t, i)|
  }

  ghost function Hits(r: Ref, i: nat): nat
  {
    if r.idx == i then 1 else 0
  }

  ghost function RecvHits(r: Ref, i: nat): nat
  {
    if r.idx == i && r.recv then 1 else 0
  }

  lemma CountAdd<K>(t: map<K, Ref>, k: K, r: Ref, i: nat)
    requires k !in t
    ensures Count(t[k := r], i) == Count(t, i) + Hits(r, i)
    ensures CountRecv(t[k := r], i) == CountRecv(t, i) + RecvHits(r, i)
  {
    KeysAdd(t, k, r, i);
    hide Keys, RecvKeys;
  }

  lemma KeysAdd<K>(t: map<K, Ref>, k: K, r: Ref, i: nat)
    requires k !in t
    ensures k !in Keys(t, i) && Keys(t[k := r], i) == if r.idx == i then Keys(t, i) + {k} else Keys(t, i)
    ensures k !in RecvKeys(t, i)
    ensures RecvKeys(t[k := r], i) == if r.idx == i && r.recv then RecvKeys(t, i) + {k} else RecvKeys(t, i)
  {}

  lemma CountRemove<K>(t: map<K, Ref>, k: K, i: nat)
    requires k in t
    ensures Count(t, i) == Count(t - {k}, i) + Hits(t[k], i)
    ensures CountRecv(t, i) == CountRecv(t - {k}, i) + RecvHits(t[k], i)
  {
    CountAdd(t - {k}, k, t[k], i);
    assert (t - {k})[k := t[k]] == t;
  }

  lemma CountPositive<K>(t: map<K, Ref>, k: K)
    requires k in t
    ensures Count(t, t[k].idx) >= 1 && (t[k].recv ==> CountRecv(t, t[k].idx) >= 1)
  {
    CountRemove(t, k, t[k].idx);
  }

  ghost predicate Named<K>(portv: map<nat, Port>, t: map<K, Ref>)
  {
    forall k | k in t :: t[k].idx in portv && portv[t[k].idx].gen == t[k].gen
  }

  /** Everything the reference counts are about. */
  datatype State = State(
    portv: map<nat, Port>,
    portgen: nat,
    rights: map<(nat, nat), Ref>,    // (proc, handle)
    flight: map<(nat, nat), Ref>,    // (message, position in its refs)
    kernel: map<nat, Ref>,           // timer slots
    msgs: map<nat, Msg>              // every message not yet freed
  )

  ghost function Refs(s: State, i: nat): nat
  {
    Count(s.rights, i) + Count(s.flight, i) + Count(s.kernel, i)
  }

  ghost function RecvRefs(s: State, i: nat): nat
  {
    CountRecv(s.rights, i) + CountRecv(s.flight, i) + CountRecv(s.kernel, i)
  }

  /** Every reference names a live port of the generation it was taken from; a timer's is never a receive right. */
  ghost predicate AllNamed(s: State)
  {
    && Named(s.portv, s.rights) && Named(s.portv, s.flight) && Named(s.portv, s.kernel)
    && forall k | k in s.kernel :: !s.kernel[k].recv
  }

  /** All the references the message was given are still counted as in flight. */
  ghost predicate Whole(s: State, m: nat)
  {
    m in s.msgs && forall j: nat | j < s.msgs[m].nrefs :: (m, j) in s.flight
  }

  /** A queued message sits on one queue, once; an in-flight reference belongs to a message. */
  ghost predicate LinksOk(s: State)
  {
    && (forall i, m | i in s.portv && m in s.portv[i].queue :: m in s.msgs && s.msgs[m].at == Some(i))
    && (forall i, j, k | i in s.portv && 0 <= j < k < |s.portv[i].queue| :: s.portv[i].queue[j] != s.portv[i].queue[k])
    && (forall m | m in s.msgs && s.msgs[m].at.Some? ::
          s.msgs[m].at.value in s.portv && m in s.portv[s.msgs[m].at.value].queue)
    && (forall k | k in s.flight :: k.0 in s.msgs && k.1 < s.msgs[k.0].nrefs)
  }

  /** Every queued message is whole. */
  ghost predicate WholeOk(s: State)
  {
    forall m | m in s.msgs && s.msgs[m].at.Some? :: Whole(s, m)
  }

  ghost predicate DeadOk(s: State)
  {
    forall i | i in s.portv && s.portv[i].dead :: s.portv[i].queue == [] && s.portv[i].nrecv == 0
  }

  /** What the messages of a queue cost together. */
  ghost function Cost(msgs: map<nat, Msg>, q: seq<nat>): nat
    requires forall m | m in q :: m in msgs
  {
    if q == [] then 0 else msgs[q[0]].cost + Cost(msgs, q[1..])
  }

  /** Each queue's bytes are exact and within the budget. */
  ghost predicate BudgetOk(s: State)
  {
    forall i | i in s.portv ::
      && (forall m | m in s.portv[i].queue :: m in s.msgs)
      && s.portv[i].qbytes == Cost(s.msgs, s.portv[i].queue) <= MAXQUEUE
  }

  lemma {:induction false} CostSame(ms: map<nat, Msg>, ns: map<nat, Msg>, q: seq<nat>)
    requires forall m | m in q :: m in ms && m in ns && ns[m].cost == ms[m].cost
    ensures Cost(ns, q) == Cost(ms, q)
    decreases |q|
  {
    if q != [] {
      CostSame(ms, ns, q[1..]);
    }
  }

  lemma {:induction false} CostAdd(ms: map<nat, Msg>, q: seq<nat>, m: nat)
    requires m in ms && forall n | n in q :: n in ms
    ensures Cost(ms, q + [m]) == Cost(ms, q) + ms[m].cost
    decreases |q|
  {
    if q != [] {
      assert (q + [m])[1..] == q[1..] + [m];
      CostAdd(ms, q[1..], m);
    }
  }

  lemma QueuedAt(s: State, i: nat)
    requires LinksOk(s) && i in s.portv
    ensures forall m | m in s.portv[i].queue :: m in s.msgs && s.msgs[m].at == Some(i)
  {}

  /** Queues that stay, with the messages on them, keep their bytes; the others are empty. */
  lemma BudgetKept(s: State, t: State)
    requires BudgetOk(s) && LinksOk(s) && t.portv.Keys <= s.portv.Keys
    requires forall m | m in s.msgs && s.msgs[m].at.Some? :: m in t.msgs && t.msgs[m].cost == s.msgs[m].cost
    requires forall i | i in t.portv ::
      || (t.portv[i].queue == s.portv[i].queue && t.portv[i].qbytes == s.portv[i].qbytes)
      || (t.portv[i].queue == [] && t.portv[i].qbytes == 0)
    ensures BudgetOk(t)
  {
    hide LinksOk;
    forall i | i in t.portv
      ensures (forall m | m in t.portv[i].queue :: m in t.msgs)
      ensures t.portv[i].qbytes == Cost(t.msgs, t.portv[i].queue) <= MAXQUEUE
    {
      assert i in s.portv.Keys;
      QueuedAt(s, i);
      if t.portv[i].queue == s.portv[i].queue {
        CostSame(s.msgs, t.msgs, s.portv[i].queue);
      }
    }
  }

  /** Slots are in range and every generation ever given out is used by at most one port. */
  ghost predicate SlotsOk(s: State)
  {
    && (forall i | i in s.portv :: 0 < s.portv[i].gen <= s.portgen)
    && (forall i, j | i in s.portv && j in s.portv && i != j :: s.portv[i].gen != s.portv[j].gen)
  }

  /** Conservation, with `extra` references already struck from the tables but not yet from port x's count. */
  ghost predicate Counted(s: State, x: nat, extra: nat)
  {
    forall i | i in s.portv ::
      && s.portv[i].nrights == Refs(s, i) + (if i == x then extra else 0)
      && s.portv[i].nrecv == RecvRefs(s, i)
  }

  ghost predicate ValidBut(s: State, x: nat, extra: nat)
  {
    AllNamed(s) && LinksOk(s) && WholeOk(s) && DeadOk(s) && SlotsOk(s) && BudgetOk(s) && Counted(s, x, extra)
  }

  ghost predicate Valid(s: State)
  {
    ValidBut(s, 0, 0)
  }

  /** What dropping references may do to the rest: free messages and ports, flush and mark ports dead, no more.
      A message off every queue belongs to whoever holds it and is left alone. */
  ghost predicate Shrinks(s: State, t: State)
  {
    && t.rights == s.rights && t.kernel == s.kernel && t.portgen == s.portgen
    && (forall k | k in t.flight :: k in s.flight && t.flight[k] == s.flight[k])
    && (forall m | m in t.msgs :: m in s.msgs)
    && (forall m | m in s.msgs && s.msgs[m].at == None :: m in t.msgs && t.msgs[m] == s.msgs[m])
    && (forall k | k in s.flight && k.0 in s.msgs && s.msgs[k.0].at == None :: k in t.flight)
    && (forall i | i in t.portv ::
          i in s.portv && t.portv[i].gen == s.portv[i].gen && (s.portv[i].dead ==> t.portv[i].dead))
    && (forall i | i in t.portv :: t.portv[i].queue == s.portv[i].queue || t.portv[i].queue == [])
    && t.flight.Keys <= s.flight.Keys
  }

  /** Only a port somebody held a reference to can go away. */
  ghost predicate FreesOnlyHeld(s: State, t: State)
  {
    forall i | i in s.portv && i !in t.portv :: Refs(s, i) > 0
  }

  lemma UnheldStays(s: State, t: State, x: nat)
    requires FreesOnlyHeld(s, t) && x in s.portv && Refs(s, x) == 0
    ensures x in t.portv
  {}

  ghost predicate FreesOthersHeld(s: State, t: State, x: nat)
  {
    forall i | i in s.portv && i != x && i !in t.portv :: Refs(s, i) > 0
  }

  /** Counting down and then flushing, or not, and then freeing x or not. */
  lemma FreesAfterCount(s: State, t: State, v: State, u: State, x: nat)
    requires x in s.portv && t == WithPort(s, x, s.portv[x].(nrights := s.portv[x].nrights - 1))
    requires (v == t || FreesOnlyHeld(t, v)) && (u.portv == v.portv || u.portv == v.portv - {x})
    ensures FreesOthersHeld(s, u, x)
  {
    hide Count;
    forall i | i in s.portv && i != x && i !in u.portv
      ensures Refs(s, i) > 0
    {
      assert Refs(t, i) == Refs(s, i);
    }
  }

  lemma ShrinksTrans(s: State, t: State, u: State)
    requires Shrinks(s, t) && Shrinks(t, u)
    ensures Shrinks(s, u)
  {}

  lemma ShrinksRefs(s: State, t: State, i: nat)
    requires Shrinks(s, t)
    ensures Refs(t, i) <= Refs(s, i) && RecvRefs(t, i) <= RecvRefs(s, i)
  {
    assert Keys(t.flight, i) <= Keys(s.flight, i);
    assert RecvKeys(t.flight, i) <= RecvKeys(s.flight, i);
    SubsetSize(Keys(t.flight, i), Keys(s.flight, i));
    SubsetSize(RecvKeys(t.flight, i), RecvKeys(s.flight, i));
  }

  lemma SubsetSize<T>(a: set<T>, b: set<T>)
    requires a <= b
    ensures |a| <= |b|
  {
    assert b == a + (b - a);
  }

  lemma FreesTrans(s: State, t: State, u: State)
    requires Shrinks(s, t) && FreesOnlyHeld(s, t) && FreesOnlyHeld(t, u)
    ensures FreesOnlyHeld(s, u)
  {
    forall i | i in s.portv && i !in u.portv
      ensures Refs(s, i) > 0
    {
      ShrinksRefs(s, t, i);
    }
  }

  /* ---- single mutations ---- */

  function WithPort(s: State, i: nat, p: Port): State
  {
    s.(portv := s.portv[i := p])
  }

  ghost predicate SubMap<K>(t: map<K, Ref>, s: map<K, Ref>)
  {
    forall k | k in t :: k in s && t[k] == s[k]
  }

  /** The same ports, and references only disappear. */
  ghost predicate SameGens(s: State, t: State)
  {
    && t.portgen == s.portgen && t.portv.Keys == s.portv.Keys
    && (forall i | i in s.portv :: t.portv[i].gen == s.portv[i].gen)
    && SubMap(t.rights, s.rights) && SubMap(t.flight, s.flight) && SubMap(t.kernel, s.kernel)
  }

  /** Only counts differ, and references only disappear. */
  ghost predicate SameShape(s: State, t: State)
  {
    && SameGens(s, t) && t.msgs == s.msgs
    && (forall i | i in s.portv :: t.portv[i].queue == s.portv[i].queue && t.portv[i].qbytes == s.portv[i].qbytes)
    && (forall k | k in s.flight && k.0 in s.msgs && s.msgs[k.0].at.Some? :: k in t.flight)
  }

  lemma GensKept(s: State, t: State)
    requires SameGens(s, t) && AllNamed(s) && SlotsOk(s)
    ensures AllNamed(t) && SlotsOk(t)
  {}

  lemma ShapeLinks(s: State, t: State)
    requires SameShape(s, t) && LinksOk(s)
    ensures LinksOk(t)
  {}

  lemma ShapeWhole(s: State, t: State)
    requires SameShape(s, t) && WholeOk(s)
    ensures WholeOk(t)
  {}

  lemma ShapeKept(s: State, t: State)
    requires SameShape(s, t) && AllNamed(s) && LinksOk(s) && WholeOk(s) && SlotsOk(s) && BudgetOk(s)
    ensures AllNamed(t) && LinksOk(t) && WholeOk(t) && SlotsOk(t) && BudgetOk(t)
  {
    hide AllNamed, LinksOk, WholeOk, SlotsOk, BudgetOk;
    GensKept(s, t);
    BudgetKept(s, t);
    ShapeLinks(s, t);
    ShapeWhole(s, t);
  }

  function DropRecv(p: Port, recv: bool): Port
  {
    if recv then p.(nrecv := p.nrecv - 1) else p
  }

  lemma NamedAt<K>(portv: map<nat, Port>, t: map<K, Ref>, k: K)
    requires Named(portv, t) && k in t
    ensures t[k].idx in portv && portv[t[k].idx].gen == t[k].gen
  {}

  /** Striking an in-flight reference, as release_inflight does before port_unref. */
  function StrikeFlight(s: State, k: (nat, nat)): State
    requires k in s.flight && s.flight[k].idx in s.portv
  {
    var r := s.flight[k];
    WithPort(s, r.idx, DropRecv(s.portv[r.idx], r.recv)).(flight := s.flight - {k})
  }

  lemma StrikeFlightValid(s: State, k: (nat, nat))
    requires Valid(s) && k in s.flight && k.0 in s.msgs && s.msgs[k.0].at == None
    ensures ValidBut(StrikeFlight(s, k), s.flight[k].idx, 1)
  {
    hide Named, LinksOk, WholeOk, SlotsOk, BudgetOk, Count, CountRecv;
    NamedAt(s.portv, s.flight, k);
    var t := StrikeFlight(s, k);
    ShapeKept(s, t);
    CountPositive(s.flight, k);
    forall i | i in t.portv
      ensures t.portv[i].nrights == Refs(t, i) + (if i == s.flight[k].idx then 1 else 0)
      ensures t.portv[i].nrecv == RecvRefs(t, i)
    {
      CountRemove(s.flight, k, i);
    }
  }

  /** Striking a handle, as right_drop does before port_unref. */
  function StrikeRight(s: State, k: (nat, nat)): State
    requires k in s.rights && s.rights[k].idx in s.portv
  {
    var r := s.rights[k];
    WithPort(s, r.idx, DropRecv(s.portv[r.idx], r.recv)).(rights := s.rights - {k})
  }

  lemma StrikeRightValid(s: State, k: (nat, nat))
    requires Valid(s) && k in s.rights
    ensures ValidBut(StrikeRight(s, k), s.rights[k].idx, 1)
  {
    hide Named, LinksOk, WholeOk, SlotsOk, BudgetOk, Count, CountRecv;
    NamedAt(s.portv, s.rights, k);
    var t := StrikeRight(s, k);
    ShapeKept(s, t);
    CountPositive(s.rights, k);
    forall i | i in t.portv
      ensures t.portv[i].nrights == Refs(t, i) + (if i == s.rights[k].idx then 1 else 0)
      ensures t.portv[i].nrecv == RecvRefs(t, i)
    {
      CountRemove(s.rights, k, i);
    }
  }

  function StrikeKernel(s: State, k: nat): State
    requires k in s.kernel
  {
    s.(kernel := s.kernel - {k})
  }

  lemma StrikeKernelValid(s: State, k: nat)
    requires Valid(s) && k in s.kernel
    ensures ValidBut(StrikeKernel(s, k), s.kernel[k].idx, 1)
  {
    hide Named, LinksOk, WholeOk, SlotsOk, BudgetOk, Count, CountRecv;
    var t := StrikeKernel(s, k);
    ShapeKept(s, t);
    CountPositive(s.kernel, k);
    forall i | i in t.portv
      ensures t.portv[i].nrights == Refs(t, i) + (if i == s.kernel[k].idx then 1 else 0)
      ensures t.portv[i].nrecv == RecvRefs(t, i)
    {
      CountRemove(s.kernel, k, i);
    }
  }

  lemma CountDown(s: State, x: nat)
    requires ValidBut(s, x, 1) && x in s.portv
    ensures Valid(WithPort(s, x, s.portv[x].(nrights := s.portv[x].nrights - 1)))
  {
    hide Named, LinksOk, WholeOk, SlotsOk, BudgetOk, Count, CountRecv;
    var t := WithPort(s, x, s.portv[x].(nrights := s.portv[x].nrights - 1));
    ShapeKept(s, t);
    assert forall i :: Refs(t, i) == Refs(s, i) && RecvRefs(t, i) == RecvRefs(s, i);
  }

  /** Emptying port x's queue, its messages now belonging to the flush; the port may be marked dead with it. */
  function TakeQueue(s: State, x: nat, dead: bool): State
    requires x in s.portv
  {
    WithPort(s, x, s.portv[x].(queue := [], qbytes := 0, dead := dead))
      .(msgs := map m | m in s.msgs :: if s.msgs[m].at == Some(x) then s.msgs[m].(at := None) else s.msgs[m])
  }

  lemma TakeQueueLinks(s: State, x: nat, dead: bool)
    requires LinksOk(s) && x in s.portv
    ensures LinksOk(TakeQueue(s, x, dead))
  {}

  lemma TakeQueueWhole(s: State, x: nat, dead: bool)
    requires WholeOk(s) && x in s.portv
    ensures WholeOk(TakeQueue(s, x, dead))
    ensures forall m | m in s.msgs && s.msgs[m].at == Some(x) :: Whole(TakeQueue(s, x, dead), m)
  {}

  lemma TakeQueueShrinks(s: State, x: nat, dead: bool)
    requires x in s.portv && (s.portv[x].dead ==> dead)
    ensures Shrinks(s, TakeQueue(s, x, dead))
  {}

  lemma TakeQueueValid(s: State, x: nat, dead: bool)
    requires Valid(s) && x in s.portv && (s.portv[x].dead ==> dead) && (dead ==> s.portv[x].nrecv == 0)
    ensures Valid(TakeQueue(s, x, dead))
  {
    hide AllNamed, SlotsOk, LinksOk, WholeOk, BudgetOk, Counted, DeadOk;
    var t := TakeQueue(s, x, dead);
    TakeQueueLinks(s, x, dead);
    TakeQueueWhole(s, x, dead);
    BudgetKept(s, t);
    GensKept(s, t);
    TakeQueueCounts(s, x, dead);
  }

  lemma TakeQueueCounts(s: State, x: nat, dead: bool)
    requires Counted(s, 0, 0) && DeadOk(s) && x in s.portv
    requires (s.portv[x].dead ==> dead) && (dead ==> s.portv[x].nrecv == 0)
    ensures Counted(TakeQueue(s, x, dead), 0, 0) && DeadOk(TakeQueue(s, x, dead))
  {
    hide Count, CountRecv;
    var t := TakeQueue(s, x, dead);
    assert forall i :: Refs(t, i) == Refs(s, i) && RecvRefs(t, i) == RecvRefs(s, i);
  }

  lemma NoRefsNone<K>(t: map<K, Ref>, i: nat)
    requires Count(t, i) == 0
    ensures forall k | k in t :: t[k].idx != i
  {
    forall k | k in t
      ensures t[k].idx != i
    {
      if t[k].idx == i {
        CountPositive(t, k);
      }
    }
  }

  lemma RemovePortLinks(s: State, x: nat)
    requires LinksOk(s) && x in s.portv && s.portv[x].queue == []
    ensures LinksOk(s.(portv := s.portv - {x}))
  {}

  lemma RemovePortNamed(s: State, x: nat)
    requires AllNamed(s) && SlotsOk(s) && x in s.portv && Refs(s, x) == 0
    ensures AllNamed(s.(portv := s.portv - {x})) && SlotsOk(s.(portv := s.portv - {x}))
  {
    NoRefsNone(s.rights, x);
    NoRefsNone(s.flight, x);
    NoRefsNone(s.kernel, x);
  }

  lemma RemovePortValid(s: State, x: nat)
    requires Valid(s) && x in s.portv && Refs(s, x) == 0 && s.portv[x].queue == []
    ensures Valid(s.(portv := s.portv - {x}))
  {
    hide AllNamed, SlotsOk, LinksOk, BudgetOk, Count, CountRecv;
    var t := s.(portv := s.portv - {x});
    RemovePortNamed(s, x);
    RemovePortLinks(s, x);
    BudgetKept(s, t);
    assert forall i :: Refs(t, i) == Refs(s, i) && RecvRefs(t, i) == RecvRefs(s, i);
  }

  lemma FreeMsgLinks(s: State, m: nat)
    requires LinksOk(s) && WholeOk(s) && m in s.msgs && s.msgs[m].at == None && (forall k | k in s.flight :: k.0 != m)
    ensures LinksOk(s.(msgs := s.msgs - {m})) && WholeOk(s.(msgs := s.msgs - {m}))
  {}

  lemma FreeMsgValid(s: State, m: nat, x: nat, extra: nat)
    requires ValidBut(s, x, extra) && m in s.msgs && s.msgs[m].at == None && (forall k | k in s.flight :: k.0 != m)
    ensures ValidBut(s.(msgs := s.msgs - {m}), x, extra)
  {
    hide AllNamed, SlotsOk, LinksOk, WholeOk, BudgetOk, Count, CountRecv;
    FreeMsgLinks(s, m);
    var t := s.(msgs := s.msgs - {m});
    BudgetKept(s, t);
    GensKept(s, t);
    assert forall i :: Refs(t, i) == Refs(s, i) && RecvRefs(t, i) == RecvRefs(s, i);
  }

  lemma CountAt(s: State, i: nat)
    requires Valid(s) && i in s.portv
    ensures s.portv[i].nrights == Refs(s, i) && s.portv[i].nrecv == RecvRefs(s, i)
    ensures s.portv[i].dead ==> s.portv[i].queue == [] && s.portv[i].nrecv == 0
  {}

  /** Nothing refers to a slot that holds no port. */
  lemma GoneIsUnheld(s: State, i: nat)
    requires Valid(s) && i !in s.portv
    ensures Refs(s, i) == 0 && RecvRefs(s, i) == 0
  {
    assert Keys(s.rights, i) == {} && Keys(s.flight, i) == {} && Keys(s.kernel, i) == {};
    assert RecvKeys(s.rights, i) == {} && RecvKeys(s.flight, i) == {} && RecvKeys(s.kernel, i) == {};
  }

  lemma CountDownShrinks(s: State, x: nat)
    requires x in s.portv
    ensures Shrinks(s, WithPort(s, x, s.portv[x].(nrights := s.portv[x].nrights - 1)))
    ensures forall i :: Refs(WithPort(s, x, s.portv[x].(nrights := s.portv[x].nrights - 1)), i) == Refs(s, i)
  {}

  lemma RemovePortShrinks(s: State, x: nat)
    ensures Shrinks(s, s.(portv := s.portv - {x}))
    ensures Refs(s.(portv := s.portv - {x}), x) == Refs(s, x)
  {}

  /** s with the first j references of message m struck. */
  ghost function Struck(s: State, m: nat, j: nat): State
  {
    s.(flight := map k | k in s.flight && !(k.0 == m && k.1 < j) :: s.flight[k])
  }

  /** s with message m freed and its references gone. */
  ghost function WithoutMsg(s: State, m: nat): State
  {
    s.(flight := map k | k in s.flight && k.0 != m :: s.flight[k], msgs := s.msgs - {m})
  }

  lemma StruckNext(s: State, t: State, m: nat, j: nat)
    requires Shrinks(Struck(s, m, j), t) && (m, j) in t.flight && t.flight[(m, j)].idx in t.portv
    ensures Shrinks(Struck(s, m, j + 1), StrikeFlight(t, (m, j)))
  {}

  lemma StruckAll(s: State, t: State, m: nat)
    requires Valid(s) && m in s.msgs && s.msgs[m].at == None && Shrinks(Struck(s, m, s.msgs[m].nrefs), t)
    ensures m in t.msgs && t.msgs[m].at == None && (forall k | k in t.flight :: k.0 != m)
    ensures Shrinks(WithoutMsg(s, m), t.(msgs := t.msgs - {m}))
    ensures FreesOnlyHeld(s, t) ==> FreesOnlyHeld(s, t.(msgs := t.msgs - {m}))
  {}

  lemma FlightNamed(s: State, k: (nat, nat))
    requires Valid(s) && k in s.flight
    ensures s.flight[k].idx in s.portv && s.portv[s.flight[k].idx].gen == s.flight[k].gen
  {}

  lemma ShrinksSize(s: State, t: State)
    requires Shrinks(s, t)
    ensures |t.flight| <= |s.flight|
  {
    SubsetSize(t.flight.Keys, s.flight.Keys);
  }

  /** A message off every queue, with all its references: whoever popped, built or flushed it owns it. */
  ghost predicate Owned(s: State, m: nat)
  {
    m in s.msgs && s.msgs[m].at == None && Whole(s, m)
  }

  lemma TakeQueueOwned(s: State, x: nat, dead: bool)
    requires Valid(s) && x in s.portv
    ensures forall m | m in s.portv[x].queue :: Owned(TakeQueue(s, x, dead), m) && m in s.msgs && s.msgs[m].at != None
    ensures forall j, k | 0 <= j < k < |s.portv[x].queue| :: s.portv[x].queue[j] != s.portv[x].queue[k]
    ensures FreesOnlyHeld(s, TakeQueue(s, x, dead))
  {}

  lemma ShrinksOwned(s: State, t: State, m: nat)
    requires Shrinks(s, t) && Owned(s, m)
    ensures Owned(t, m)
  {}

  lemma StruckNone(s: State, m: nat)
    ensures Shrinks(Struck(s, m, 0), s) && FreesOnlyHeld(s, s)
  {
    assert Struck(s, m, 0).flight == s.flight;
  }

  lemma StillWhole(s: State, t: State, m: nat, j: nat)
    requires Owned(s, m) && j < s.msgs[m].nrefs && Shrinks(Struck(s, m, j), t)
    ensures (m, j) in t.flight && t.flight[(m, j)] == s.flight[(m, j)] && m in t.msgs && t.msgs[m].at == None
  {}

  lemma RefsMono(s: State, t: State, i: nat)
    requires t.rights == s.rights && t.kernel == s.kernel && SubMap(t.flight, s.flight)
    ensures Refs(t, i) <= Refs(s, i)
  {
    assert Keys(t.flight, i) <= Keys(s.flight, i);
    SubsetSize(Keys(t.flight, i), Keys(s.flight, i));
  }

  /** A port freed by releasing one of m's references, or by what that set off, was held at the start. */
  lemma FreesReleased(s: State, t: State, u: State, m: nat, j: nat)
    requires Shrinks(Struck(s, m, j), t) && FreesOnlyHeld(s, t)
    requires (m, j) in t.flight && t.flight[(m, j)].idx in t.portv
    requires FreesOthersHeld(StrikeFlight(t, (m, j)), u, t.flight[(m, j)].idx)
    ensures FreesOnlyHeld(s, u)
  {
    hide Count, CountRecv;
    forall i | i in s.portv && i !in u.portv
      ensures Refs(s, i) > 0
    {
      if i in t.portv {
        RefsMono(s, t, i);
        RefsMono(s, StrikeFlight(t, (m, j)), i);
        CountPositive(t.flight, (m, j));
      }
    }
  }

  lemma FlushStep(s: State, t: State, u: State, m: nat)
    requires Shrinks(s, t) && m in s.msgs && s.msgs[m].at != None && Shrinks(WithoutMsg(t, m), u)
    ensures Shrinks(s, u)
  {}

  lemma KeepsEmpty(s: State, t: State)
    requires Shrinks(s, t)
    ensures forall i | i in t.portv ::
      i in s.portv && (s.portv[i].queue == [] ==> t.portv[i].queue == []) && (s.portv[i].dead ==> t.portv[i].dead)
  {}

  lemma OwnedElsewhere(s: State, m: nat, o: nat)
    requires Owned(s, o) && o != m
    ensures Owned(WithoutMsg(s, m), o)
  {}

  lemma StruckSize(s: State, t: State, m: nat, j: nat)
    requires Shrinks(Struck(s, m, j), t)
    ensures |t.flight| <= |s.flight|
  {
    SubsetSize(t.flight.Keys, s.flight.Keys);
  }

  /* ---- taking references ---- */

  function AddRecv(p: Port, recv: bool): Port
  {
    p.(nrights := p.nrights + 1, nrecv := if recv then p.nrecv + 1 else p.nrecv)
  }

  /** right_new's effect: a handle and the counts that go with it. */
  function AddRight(s: State, k: (nat, nat), r: Ref): State
    requires r.idx in s.portv
  {
    WithPort(s, r.idx, AddRecv(s.portv[r.idx], r.recv)).(rights := s.rights[k := r])
  }

  /** serialize's effect: one more reference in message m. */
  function AddFlight(s: State, m: nat, r: Ref): State
    requires r.idx in s.portv && m in s.msgs
  {
    WithPort(s, r.idx, AddRecv(s.portv[r.idx], r.recv))
      .(flight := s.flight[(m, s.msgs[m].nrefs) := r], msgs := s.msgs[m := s.msgs[m].(nrefs := s.msgs[m].nrefs + 1)])
  }

  function AddKernel(s: State, k: nat, r: Ref): State
    requires r.idx in s.portv
  {
    WithPort(s, r.idx, AddRecv(s.portv[r.idx], r.recv)).(kernel := s.kernel[k := r])
  }

  /** May a reference be taken: the port is there, is the one meant, and is not past receiving. */
  predicate MayTake(s: State, r: Ref)
  {
    r.idx in s.portv && s.portv[r.idx].gen == r.gen && (r.recv ==> !s.portv[r.idx].dead)
  }

  /** The same ports under the same generations; counts, queues and death may differ. */
  ghost predicate SamePorts(s: State, t: State)
  {
    && t.portgen == s.portgen && t.portv.Keys == s.portv.Keys
    && forall i | i in s.portv :: t.portv[i].gen == s.portv[i].gen
  }

  ghost predicate SameQueues(s: State, t: State)
  {
    && t.portv.Keys == s.portv.Keys && t.msgs == s.msgs && t.flight == s.flight
    && forall i | i in s.portv :: t.portv[i].queue == s.portv[i].queue && t.portv[i].qbytes == s.portv[i].qbytes
  }

  lemma SlotsSame(s: State, t: State)
    requires SamePorts(s, t) && SlotsOk(s)
    ensures SlotsOk(t)
  {}

  lemma LinksSame(s: State, t: State)
    requires SameQueues(s, t) && LinksOk(s)
    ensures LinksOk(t)
  {}

  lemma WholeSame(s: State, t: State)
    requires SameQueues(s, t) && WholeOk(s)
    ensures WholeOk(t)
  {}

  lemma NamedSame<K>(s: State, t: State, tab: map<K, Ref>)
    requires SamePorts(s, t) && Named(s.portv, tab)
    ensures Named(t.portv, tab)
  {}

  lemma NamedAdd<K>(portv: map<nat, Port>, tab: map<K, Ref>, k: K, r: Ref)
    requires Named(portv, tab) && r.idx in portv && portv[r.idx].gen == r.gen
    ensures Named(portv, tab[k := r])
  {}

  lemma AllNamedSame(s: State, t: State)
    requires SamePorts(s, t) && AllNamed(s)
    ensures Named(t.portv, s.rights) && Named(t.portv, s.flight) && Named(t.portv, s.kernel)
  {
    hide Named;
    NamedSame(s, t, s.rights);
    NamedSame(s, t, s.flight);
    NamedSame(s, t, s.kernel);
  }

  lemma TakePorts(s: State, r: Ref)
    requires MayTake(s, r)
    ensures SamePorts(s, WithPort(s, r.idx, AddRecv(s.portv[r.idx], r.recv)))
    ensures SameQueues(s, WithPort(s, r.idx, AddRecv(s.portv[r.idx], r.recv)))
    ensures DeadOk(s) ==> DeadOk(WithPort(s, r.idx, AddRecv(s.portv[r.idx], r.recv)))
  {}

  /** Whatever is owed: taking a reference needs no lock. */
  lemma AddRightValid(s: State, k: (nat, nat), r: Ref, x: nat, extra: nat)
    requires ValidBut(s, x, extra) && k !in s.rights && MayTake(s, r)
    ensures ValidBut(AddRight(s, k, r), x, extra)
  {
    hide Named, LinksOk, WholeOk, SlotsOk, BudgetOk, Count, CountRecv;
    var t := AddRight(s, k, r);
    TakePorts(s, r);
    SlotsSame(s, t);
    LinksSame(s, t);
    WholeSame(s, t);
    BudgetKept(s, t);
    AllNamedSame(s, t);
    NamedAdd(t.portv, s.rights, k, r);
    forall i | i in t.portv
      ensures t.portv[i].nrights == Refs(t, i) + (if i == x then extra else 0) && t.portv[i].nrecv == RecvRefs(t, i)
    {
      CountAdd(s.rights, k, r, i);
    }
  }

  lemma AddKernelValid(s: State, k: nat, r: Ref)
    requires Valid(s) && k !in s.kernel && MayTake(s, r) && !r.recv
    ensures Valid(AddKernel(s, k, r))
  {
    hide Named, LinksOk, WholeOk, SlotsOk, BudgetOk, Count, CountRecv;
    var t := AddKernel(s, k, r);
    TakePorts(s, r);
    SlotsSame(s, t);
    LinksSame(s, t);
    WholeSame(s, t);
    BudgetKept(s, t);
    AllNamedSame(s, t);
    NamedAdd(t.portv, s.kernel, k, r);
    forall i | i in t.portv
      ensures t.portv[i].nrights == Refs(t, i) && t.portv[i].nrecv == RecvRefs(t, i)
    {
      CountAdd(s.kernel, k, r, i);
    }
  }

  lemma AddFlightLinks(s: State, m: nat, r: Ref)
    requires LinksOk(s) && MayTake(s, r) && m in s.msgs && s.msgs[m].at == None
    ensures LinksOk(AddFlight(s, m, r)) && (m, s.msgs[m].nrefs) !in s.flight
  {}

  lemma AddFlightWhole(s: State, m: nat, r: Ref)
    requires WholeOk(s) && MayTake(s, r) && Owned(s, m)
    ensures WholeOk(AddFlight(s, m, r)) && Owned(AddFlight(s, m, r), m)
  {}

  lemma AddFlightValid(s: State, m: nat, r: Ref, x: nat, extra: nat)
    requires ValidBut(s, x, extra) && Owned(s, m) && MayTake(s, r)
    ensures ValidBut(AddFlight(s, m, r), x, extra) && Owned(AddFlight(s, m, r), m)
  {
    hide Named, LinksOk, WholeOk, SlotsOk, BudgetOk, Count, CountRecv, Whole;
    var t := AddFlight(s, m, r);
    TakePorts(s, r);
    SlotsSame(s, t);
    AllNamedSame(s, t);
    AddFlightLinks(s, m, r);
    AddFlightWhole(s, m, r);
    BudgetKept(s, t);
    NamedAdd(t.portv, s.flight, (m, s.msgs[m].nrefs), r);
    forall i | i in t.portv
      ensures t.portv[i].nrights == Refs(t, i) + (if i == x then extra else 0) && t.portv[i].nrecv == RecvRefs(t, i)
    {
      CountAdd(s.flight, (m, s.msgs[m].nrefs), r, i);
    }
  }

  /** A right in hand may always be copied: it is itself a reference of its kind. */
  lemma RightMayTake(s: State, k: (nat, nat), x: nat, extra: nat)
    requires ValidBut(s, x, extra) && k in s.rights
    ensures MayTake(s, s.rights[k]) && MayTake(s, s.rights[k].(recv := false))
  {
    CountPositive(s.rights, k);
  }

  /** So may a right in flight: the port a message names is still the one it named when it was serialized. */
  lemma FlightMayTake(s: State, k: (nat, nat), x: nat, extra: nat)
    requires ValidBut(s, x, extra) && k in s.flight
    ensures MayTake(s, s.flight[k])
  {
    CountPositive(s.flight, k);
  }

  function Fresh(s: State, i: nat): State
  {
    s.(portgen := s.portgen + 1, portv := s.portv[i := Port(s.portgen + 1, 0, 0, false, [], 0)])
  }

  lemma FreshLinks(s: State, i: nat)
    requires LinksOk(s) && WholeOk(s) && i !in s.portv
    ensures LinksOk(Fresh(s, i)) && WholeOk(Fresh(s, i))
  {}

  lemma FreshNamed(s: State, i: nat)
    requires AllNamed(s) && SlotsOk(s) && i !in s.portv
    ensures AllNamed(Fresh(s, i)) && SlotsOk(Fresh(s, i))
  {}

  lemma FreshBudget(s: State, i: nat)
    requires BudgetOk(s) && i !in s.portv
    ensures BudgetOk(Fresh(s, i))
  {}

  lemma FreshValid(s: State, i: nat)
    requires Valid(s) && i !in s.portv
    ensures Valid(Fresh(s, i))
  {
    hide AllNamed, LinksOk, WholeOk, SlotsOk, BudgetOk, Count, CountRecv;
    GoneIsUnheld(s, i);
    var t := Fresh(s, i);
    FreshLinks(s, i);
    FreshNamed(s, i);
    FreshBudget(s, i);
    forall j | j in t.portv
      ensures t.portv[j].nrights == Refs(t, j) && t.portv[j].nrecv == RecvRefs(t, j)
    {
      assert Refs(t, j) == Refs(s, j) && RecvRefs(t, j) == RecvRefs(s, j);
    }
  }

  function WithMsg(s: State, m: nat): State
  {
    s.(msgs := s.msgs[m := Msg(0, None, 0)])
  }

  lemma WithMsgLinks(s: State, m: nat)
    requires LinksOk(s) && WholeOk(s) && m !in s.msgs
    ensures LinksOk(WithMsg(s, m)) && WholeOk(WithMsg(s, m))
  {}

  lemma WithMsgValid(s: State, m: nat, x: nat, extra: nat)
    requires ValidBut(s, x, extra) && m !in s.msgs
    ensures ValidBut(WithMsg(s, m), x, extra)
  {
    hide Named, LinksOk, WholeOk, SlotsOk, BudgetOk, Count, CountRecv;
    WithMsgLinks(s, m);
    BudgetKept(s, WithMsg(s, m));
    SlotsSame(s, WithMsg(s, m));
    assert forall j :: Refs(WithMsg(s, m), j) == Refs(s, j) && RecvRefs(WithMsg(s, m), j) == RecvRefs(s, j);
  }

  function Enqueue(s: State, m: nat, x: nat, cost: nat): State
    requires x in s.portv && m in s.msgs
  {
    WithPort(s, x, s.portv[x].(queue := s.portv[x].queue + [m], qbytes := s.portv[x].qbytes + cost))
      .(msgs := s.msgs[m := s.msgs[m].(at := Some(x), cost := cost)])
  }

  lemma EnqueueLinks(s: State, m: nat, x: nat, cost: nat)
    requires LinksOk(s) && x in s.portv && m in s.msgs && s.msgs[m].at == None
    ensures LinksOk(Enqueue(s, m, x, cost))
  {}

  lemma EnqueueWhole(s: State, m: nat, x: nat, cost: nat)
    requires WholeOk(s) && x in s.portv && Owned(s, m)
    ensures WholeOk(Enqueue(s, m, x, cost))
  {}

  lemma EnqueueBudget(s: State, m: nat, x: nat, cost: nat)
    requires BudgetOk(s) && LinksOk(s) && x in s.portv && m in s.msgs && s.msgs[m].at == None
    requires s.portv[x].qbytes + cost <= MAXQUEUE
    ensures BudgetOk(Enqueue(s, m, x, cost))
  {
    var t := Enqueue(s, m, x, cost);
    forall i | i in t.portv
      ensures (forall n | n in t.portv[i].queue :: n in t.msgs)
      ensures t.portv[i].qbytes == Cost(t.msgs, t.portv[i].queue) <= MAXQUEUE
    {
      CostSame(s.msgs, t.msgs, s.portv[i].queue);
      CostAdd(t.msgs, s.portv[i].queue, m);
    }
  }

  lemma EnqueueValid(s: State, m: nat, x: nat, cost: nat)
    requires Valid(s) && Owned(s, m) && x in s.portv && !s.portv[x].dead && s.portv[x].qbytes + cost <= MAXQUEUE
    ensures Valid(Enqueue(s, m, x, cost))
  {
    hide Named, LinksOk, WholeOk, SlotsOk, BudgetOk, Count, CountRecv, Whole;
    var t := Enqueue(s, m, x, cost);
    EnqueueLinks(s, m, x, cost);
    EnqueueWhole(s, m, x, cost);
    EnqueueBudget(s, m, x, cost);
    SlotsSame(s, t);
    AllNamedSame(s, t);
    assert forall j :: Refs(t, j) == Refs(s, j) && RecvRefs(t, j) == RecvRefs(s, j);
  }

  function Dequeue(s: State, x: nat): State
    requires x in s.portv && s.portv[x].queue != [] && s.portv[x].queue[0] in s.msgs
  {
    var m := s.portv[x].queue[0];
    WithPort(s, x, s.portv[x].(queue := s.portv[x].queue[1..], qbytes := s.portv[x].qbytes - s.msgs[m].cost))
      .(msgs := s.msgs[m := s.msgs[m].(at := None)])
  }

  lemma HeadQueued(s: State, x: nat)
    requires LinksOk(s) && x in s.portv && s.portv[x].queue != []
    ensures s.portv[x].queue[0] in s.msgs && s.msgs[s.portv[x].queue[0]].at == Some(x)
  {
    assert s.portv[x].queue[0] in s.portv[x].queue;
  }

  lemma DequeueLinks(s: State, x: nat)
    requires LinksOk(s) && x in s.portv && s.portv[x].queue != [] && s.portv[x].queue[0] in s.msgs
    ensures LinksOk(Dequeue(s, x))
  {
    hide Dequeue;
    DequeueQueued(s, x);
    DequeueOnce(s, x);
    DequeueThere(s, x);
    DequeueFlight(s, x);
  }

  lemma DequeueFlight(s: State, x: nat)
    requires LinksOk(s) && x in s.portv && s.portv[x].queue != [] && s.portv[x].queue[0] in s.msgs
    ensures var t := Dequeue(s, x); forall k | k in t.flight :: k.0 in t.msgs && k.1 < t.msgs[k.0].nrefs
  {}

  lemma DequeueThere(s: State, x: nat)
    requires LinksOk(s) && x in s.portv && s.portv[x].queue != [] && s.portv[x].queue[0] in s.msgs
    ensures var t := Dequeue(s, x);
      forall j, m | j in t.portv && m in t.portv[j].queue :: m in t.msgs && t.msgs[m].at == Some(j)
  {
    var t := Dequeue(s, x);
    forall j, m | j in t.portv && m in t.portv[j].queue
      ensures m in t.msgs && t.msgs[m].at == Some(j)
    {
      assert m in s.portv[j].queue;
    }
  }

  lemma DequeueOnce(s: State, x: nat)
    requires LinksOk(s) && x in s.portv && s.portv[x].queue != [] && s.portv[x].queue[0] in s.msgs
    ensures var t := Dequeue(s, x);
      forall i, j, k | i in t.portv && 0 <= j < k < |t.portv[i].queue| :: t.portv[i].queue[j] != t.portv[i].queue[k]
  {
    var t := Dequeue(s, x);
    forall i, j, k | i in t.portv && 0 <= j < k < |t.portv[i].queue|
      ensures t.portv[i].queue[j] != t.portv[i].queue[k]
    {
      var d := if i == x then 1 else 0;
      assert s.portv[i].queue[j + d] != s.portv[i].queue[k + d];
    }
  }

  lemma DequeueQueued(s: State, x: nat)
    requires LinksOk(s) && x in s.portv && s.portv[x].queue != [] && s.portv[x].queue[0] in s.msgs
    ensures var t := Dequeue(s, x);
      forall m | m in t.msgs && t.msgs[m].at.Some? ::
        t.msgs[m].at.value in t.portv && m in t.portv[t.msgs[m].at.value].queue
  {
    var t := Dequeue(s, x);
    forall m | m in t.msgs && t.msgs[m].at.Some?
      ensures t.msgs[m].at.value in t.portv && m in t.portv[t.msgs[m].at.value].queue
    {
      var q := s.portv[s.msgs[m].at.value].queue;
      assert m in q;
    }
  }

  lemma DequeueWhole(s: State, x: nat)
    requires WholeOk(s) && x in s.portv && s.portv[x].queue != []
    requires s.portv[x].queue[0] in s.msgs && s.msgs[s.portv[x].queue[0]].at == Some(x)
    ensures WholeOk(Dequeue(s, x)) && Owned(Dequeue(s, x), s.portv[x].queue[0])
  {}

  lemma DequeueBudget(s: State, x: nat)
    requires BudgetOk(s) && x in s.portv && s.portv[x].queue != [] && s.portv[x].queue[0] in s.msgs
    ensures BudgetOk(Dequeue(s, x))
  {
    var t := Dequeue(s, x);
    forall i | i in t.portv
      ensures (forall n | n in t.portv[i].queue :: n in t.msgs)
      ensures t.portv[i].qbytes == Cost(t.msgs, t.portv[i].queue) <= MAXQUEUE
    {
      CostSame(s.msgs, t.msgs, t.portv[i].queue);
    }
  }

  lemma DequeueValid(s: State, x: nat)
    requires Valid(s) && x in s.portv && s.portv[x].queue != []
    ensures s.portv[x].queue[0] in s.msgs
    ensures Valid(Dequeue(s, x)) && Owned(Dequeue(s, x), s.portv[x].queue[0])
  {
    hide Named, LinksOk, WholeOk, SlotsOk, BudgetOk, Count, CountRecv, Whole;
    HeadQueued(s, x);
    var t := Dequeue(s, x);
    DequeueLinks(s, x);
    DequeueWhole(s, x);
    DequeueBudget(s, x);
    SlotsSame(s, t);
    AllNamedSame(s, t);
    assert forall j :: Refs(t, j) == Refs(s, j) && RecvRefs(t, j) == RecvRefs(s, j);
  }

  lemma ShrinksTables(s: State, t: State)
    requires Shrinks(s, t)
    ensures t.rights == s.rights && t.kernel == s.kernel && t.portgen == s.portgen
  {}

  ghost function Handles(p: nat, hs: seq<nat>): set<(nat, nat)>
  {
    set j | 0 <= j < |hs| :: (p, hs[j])
  }

  /** Handles hs of proc p are new, distinct, and name exactly what message m's first references named. */
  ghost predicate Installed(s: State, rights: map<(nat, nat), Ref>, p: nat, m: nat, hs: seq<nat>)
  {
    && (forall i, j | 0 <= i < j < |hs| :: hs[i] != hs[j])
    && (forall j: nat | j < |hs| ::
          && (m, j) in s.flight && (p, hs[j]) !in s.rights
          && (p, hs[j]) in rights && rights[(p, hs[j])] == s.flight[(m, j)])
    && rights - Handles(p, hs) == s.rights
  }

  ghost predicate Minted(s: State, t: State, p: nat, m: nat, hs: seq<nat>)
  {
    && SamePorts(s, t) && SameQueues(s, t) && t.kernel == s.kernel && Installed(s, t.rights, p, m, hs)
    && (forall i | i in s.portv :: t.portv[i].dead == s.portv[i].dead)
  }

  lemma OwnedAt(s: State, m: nat, j: nat)
    requires Owned(s, m) && j < s.msgs[m].nrefs
    ensures (m, j) in s.flight
  {}

  lemma OwnedSame(s: State, t: State, m: nat)
    requires t.msgs == s.msgs && t.flight == s.flight && Owned(s, m)
    ensures Owned(t, m)
  {}

  lemma MintedCovers(s: State, t: State, p: nat, m: nat, hs: seq<nat>, i: nat)
    requires Minted(s, t, p, m, hs) && (p, i) in t.rights
    ensures (p, i) in s.rights || i in hs
  {
    if (p, i) !in Handles(p, hs) {
      assert (p, i) in t.rights - Handles(p, hs);
    }
  }

  lemma MintNone(s: State, p: nat, m: nat)
    ensures Minted(s, s, p, m, [])
  {
    assert Handles(p, []) == {};
    assert s.rights - {} == s.rights;
  }

  lemma MintNext(s: State, t: State, p: nat, m: nat, hs: seq<nat>, h: nat)
    requires Minted(s, t, p, m, hs) && (m, |hs|) in s.flight && s.flight[(m, |hs|)].idx in t.portv
    requires (p, h) !in t.rights
    ensures Minted(s, AddRight(t, (p, h), s.flight[(m, |hs|)]), p, m, hs + [h])
  {
    hide Installed;
    InstalledNext(s, t.rights, p, m, hs, h);
  }

  lemma InstalledNext(s: State, rights: map<(nat, nat), Ref>, p: nat, m: nat, hs: seq<nat>, h: nat)
    requires Installed(s, rights, p, m, hs) && (m, |hs|) in s.flight && (p, h) !in rights
    ensures Installed(s, rights[(p, h) := s.flight[(m, |hs|)]], p, m, hs + [h])
  {
    var next := rights[(p, h) := s.flight[(m, |hs|)]];
    var hs' := hs + [h];
    forall j: nat | j < |hs|
      ensures hs'[j] != h
    {
      assert (p, hs[j]) in rights;
    }
    assert Handles(p, hs') == Handles(p, hs) + {(p, h)} by {
      forall j | 0 <= j < |hs|
        ensures (p, hs[j]) in Handles(p, hs')
      {
        assert hs'[j] == hs[j];
      }
      assert hs'[|hs|] == h;
    }
    assert (p, h) !in s.rights;
    assert next - Handles(p, hs') == rights - Handles(p, hs);
  }

  lemma MintedUndone(s: State, t: State, p: nat, m: nat, hs: seq<nat>)
    requires Minted(s, t, p, m, hs)
    ensures t.rights - Handles(p, hs) == s.rights && t.kernel == s.kernel && t.msgs == s.msgs && t.flight == s.flight
    ensures Installed(s, t.rights, p, m, hs)
  {}

  lemma FreedIsGone(s: State, t: State, m: nat)
    requires Shrinks(WithoutMsg(s, m), t)
    ensures m !in t.msgs
  {}
}
