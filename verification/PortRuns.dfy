/** Whole histories of ports, rights and messages, one mutation at a time.

    A reference is struck from its table before the port's count goes down; in between the machine owes that count.
    Whoever owes it has every bucket locked, but taking a reference, and making or freeing a message without any, needs
    no lock and may come in between. */
module PortRuns {
  import opened Options
  import opened PortRefs

  datatype Machine = Machine(s: State, debt: Option<nat>)

  /** The single updates every operation is made of. */
  datatype Mutation =
    | TakeRight(k: (nat, nat), r: Ref)
    | TakeFlight(m: nat, r: Ref)
    | TakeTimer(slot: nat, r: Ref)
    | DropRight(k: (nat, nat))
    | DropFlight(k: (nat, nat))
    | DropTimer(slot: nat)
    | CountOff(x: nat)
    | Flush(x: nat, dead: bool)
    | FreePort(x: nat)
    | FreeMsg(m: nat)
    | NewPort(x: nat)
    | NewMsg(m: nat)
    | Queue(m: nat, x: nat, cost: nat)
    | Unqueue(x: nat)

  /** Updates made without a lock. */
  predicate Lockless(e: Mutation)
  {
    e.TakeRight? || e.TakeFlight? || e.NewMsg? || e.FreeMsg?
  }

  /** What the code is about to do when it makes this update. */
  ghost predicate May(a: Machine, e: Mutation)
  {
    var s := a.s;
    && (Lockless(e) || a.debt == (if e.CountOff? then Some(e.x) else None))
    && match e
      case CountOff(x) => x in s.portv
      case TakeRight(k, r) => k !in s.rights && MayTake(s, r)
      case TakeFlight(m, r) => Owned(s, m) && MayTake(s, r)
      case TakeTimer(slot, r) => slot !in s.kernel && MayTake(s, r) && !r.recv
      case DropRight(k) => k in s.rights && s.rights[k].idx in s.portv
      case DropFlight(k) => k in s.flight && k.0 in s.msgs && s.msgs[k.0].at == None && s.flight[k].idx in s.portv
      case DropTimer(slot) => slot in s.kernel && s.kernel[slot].idx in s.portv
      case Flush(x, dead) =>
        x in s.portv && (s.portv[x].dead ==> dead) && if dead then s.portv[x].nrecv == 0 else s.portv[x].nrights == 0
      case FreePort(x) => x in s.portv && s.portv[x].nrights == 0 && s.portv[x].queue == []
      case FreeMsg(m) => m in s.msgs && s.msgs[m].at == None && forall k | k in s.flight :: k.0 != m
      case NewPort(x) => x !in s.portv
      case NewMsg(m) => m !in s.msgs
      case Queue(m, x, cost) => Owned(s, m) && x in s.portv && !s.portv[x].dead && s.portv[x].qbytes + cost <= MAXQUEUE
      case Unqueue(x) => x in s.portv && s.portv[x].queue != [] && s.portv[x].queue[0] in s.msgs
  }

  ghost function Make(a: Machine, e: Mutation): Machine
    requires May(a, e)
  {
    var s := a.s;
    match e
    case TakeRight(k, r) => Machine(AddRight(s, k, r), a.debt)
    case TakeFlight(m, r) => Machine(AddFlight(s, m, r), a.debt)
    case TakeTimer(slot, r) => Machine(AddKernel(s, slot, r), None)
    case DropRight(k) => Machine(StrikeRight(s, k), Some(s.rights[k].idx))
    case DropFlight(k) => Machine(StrikeFlight(s, k), Some(s.flight[k].idx))
    case DropTimer(slot) => Machine(StrikeKernel(s, slot), Some(s.kernel[slot].idx))
    case CountOff(x) => Machine(WithPort(s, x, s.portv[x].(nrights := s.portv[x].nrights - 1)), None)
    case Flush(x, dead) => Machine(TakeQueue(s, x, dead), None)
    case FreePort(x) => Machine(s.(portv := s.portv - {x}), None)
    case FreeMsg(m) => Machine(s.(msgs := s.msgs - {m}), a.debt)
    case NewPort(x) => Machine(Fresh(s, x), None)
    case NewMsg(m) => Machine(WithMsg(s, m), a.debt)
    case Queue(m, x, cost) => Machine(Enqueue(s, m, x, cost), None)
    case Unqueue(x) => Machine(Dequeue(s, x), None)
  }

  /** Counts are exact but for what is owed. */
  ghost predicate Sound(a: Machine)
  {
    match a.debt
    case None => Valid(a.s)
    case Some(x) => x in a.s.portv && ValidBut(a.s, x, 1)
  }

  lemma MakeSound(a: Machine, e: Mutation)
    requires Sound(a) && May(a, e)
    ensures Sound(Make(a, e))
  {
    hide ValidBut, Refs, AddKernel, Fresh, Enqueue, Dequeue, TakeQueue, Owned;
    var s := a.s;
    var x, n: nat := if a.debt.Some? then a.debt.value else 0, if a.debt.Some? then 1 else 0;
    match e
    case TakeRight(k, r) => AddRightValid(s, k, r, x, n);
    case TakeFlight(m, r) => AddFlightValid(s, m, r, x, n);
    case TakeTimer(slot, r) => AddKernelValid(s, slot, r);
    case DropRight(k) => StrikeRightValid(s, k);
    case DropFlight(k) => StrikeFlightValid(s, k);
    case DropTimer(slot) => StrikeKernelValid(s, slot);
    case CountOff(y) => CountDown(s, y);
    case Flush(y, dead) => TakeQueueValid(s, y, dead);
    case FreePort(y) => CountAt(s, y); RemovePortValid(s, y);
    case FreeMsg(m) => FreeMsgValid(s, m, x, n);
    case NewPort(y) => FreshValid(s, y);
    case NewMsg(m) => WithMsgValid(s, m, x, n);
    case Queue(m, y, cost) => EnqueueValid(s, m, y, cost);
    case Unqueue(y) => DequeueValid(s, y);
  }

  /* ---- runs ---- */

  ghost predicate Run(ms: seq<Machine>, es: seq<Mutation>)
  {
    |ms| == |es| + 1 && forall i | 0 <= i < |es| :: May(ms[i], es[i]) && ms[i + 1] == Make(ms[i], es[i])
  }

  /** Counts are exact in every state of every history. */
  lemma {:induction false} RunSound(ms: seq<Machine>, es: seq<Mutation>, i: nat)
    requires Run(ms, es) && Sound(ms[0]) && i < |ms|
    ensures Sound(ms[i])
  {
    hide Sound, May, Make;
    if i > 0 {
      RunSound(ms, es, i - 1);
      MakeSound(ms[i - 1], es[i - 1]);
    }
  }

  /* ---- a name keeps its meaning ---- */

  lemma StepKeepsName(a: Machine, e: Mutation, k: (nat, nat))
    requires Sound(a) && May(a, e) && k in a.s.flight && e != DropFlight(k)
    ensures k in Make(a, e).s.flight && Make(a, e).s.flight[k] == a.s.flight[k]
  {
    hide LinksOk, AllNamed, Counted, Owned;
    if e.TakeFlight? {
      FlightIsOld(a.s, e.m, k);
    }
  }

  lemma FlightIsOld(s: State, m: nat, k: (nat, nat))
    requires LinksOk(s) && Owned(s, m) && k in s.flight
    ensures m in s.msgs && k != (m, s.msgs[m].nrefs)
  {}

  lemma SoundNames(a: Machine, k: (nat, nat))
    requires Sound(a) && k in a.s.flight
    ensures a.s.flight[k].idx in a.s.portv && a.s.portv[a.s.flight[k].idx].gen == a.s.flight[k].gen
  {}

  lemma {:induction false} RefStays(ms: seq<Machine>, es: seq<Mutation>, i: nat, j: nat, k: (nat, nat))
    requires Run(ms, es) && Sound(ms[0]) && i <= j < |ms| && k in ms[i].s.flight
    requires forall n | i <= n < j :: es[n] != DropFlight(k)
    ensures k in ms[j].s.flight && ms[j].s.flight[k] == ms[i].s.flight[k]
    decreases j - i
  {
    hide Sound, May, Make;
    if i < j {
      RefStays(ms, es, i, j - 1, k);
      RunSound(ms, es, j - 1);
      StepKeepsName(ms[j - 1], es[j - 1], k);
    }
  }

  /** A reference in a message is the same reference until it is released, and names throughout a port of the
      generation it named when it was put there. */
  lemma NameKept(ms: seq<Machine>, es: seq<Mutation>, i: nat, j: nat, k: (nat, nat))
    requires Run(ms, es) && Sound(ms[0]) && i <= j < |ms| && k in ms[i].s.flight
    requires forall n | i <= n < j :: es[n] != DropFlight(k)
    ensures k in ms[j].s.flight && ms[j].s.flight[k] == ms[i].s.flight[k]
    ensures var r := ms[i].s.flight[k];
            && r.idx in ms[i].s.portv && r.idx in ms[j].s.portv
            && ms[j].s.portv[r.idx].gen == ms[i].s.portv[r.idx].gen == r.gen
  {
    RefStays(ms, es, i, j, k);
    RunSound(ms, es, i);
    RunSound(ms, es, j);
    SoundNames(ms[i], k);
    SoundNames(ms[j], k);
  }

  /** None of a message's references is released while it is queued, so all of it is there, unchanged, when it is
      taken off. */
  lemma QueuedKept(ms: seq<Machine>, es: seq<Mutation>, i: nat, j: nat, m: nat, p: nat)
    requires Run(ms, es) && Sound(ms[0]) && i <= j < |ms|
    requires forall n | i <= n <= j :: m in ms[n].s.msgs && ms[n].s.msgs[m].at.Some?
    requires p < ms[i].s.msgs[m].nrefs
    ensures (m, p) in ms[i].s.flight && (m, p) in ms[j].s.flight && ms[j].s.flight[(m, p)] == ms[i].s.flight[(m, p)]
    ensures var r := ms[i].s.flight[(m, p)]; r.idx in ms[j].s.portv && ms[j].s.portv[r.idx].gen == r.gen
  {
    hide Sound, Make, Owned;
    RunSound(ms, es, i);
    QueuedWhole(ms[i], m);
    forall n | i <= n < j
      ensures es[n] != DropFlight((m, p))
    {
      assert May(ms[n], es[n]);
    }
    NameKept(ms, es, i, j, (m, p));
  }

  lemma QueuedWhole(a: Machine, m: nat)
    requires Sound(a) && m in a.s.msgs && a.s.msgs[m].at.Some?
    ensures Whole(a.s, m)
  {}

  /* ---- generations, and death ---- */

  /** The ports of t are ports of s, dead if they were, or younger than everything in s. */
  ghost predicate Ages(s: State, t: State)
  {
    && s.portgen <= t.portgen
    && forall x | x in t.portv ::
         || t.portv[x].gen > s.portgen
         || (x in s.portv && t.portv[x].gen == s.portv[x].gen && (s.portv[x].dead ==> t.portv[x].dead))
  }

  lemma MakeAges(a: Machine, e: Mutation)
    requires Sound(a) && May(a, e)
    ensures Ages(a.s, Make(a, e).s)
  {
    hide Valid, ValidBut, Owned, Sound;
  }

  lemma {:induction false} RunAges(ms: seq<Machine>, es: seq<Mutation>, i: nat, j: nat)
    requires Run(ms, es) && Sound(ms[0]) && i <= j < |ms|
    ensures Ages(ms[i].s, ms[j].s)
    decreases j - i
  {
    hide Sound, May, Make;
    if i < j {
      RunAges(ms, es, i, j - 1);
      RunSound(ms, es, j - 1);
      MakeAges(ms[j - 1], es[j - 1]);
    }
  }

  lemma SoundSlots(a: Machine)
    requires Sound(a)
    ensures SlotsOk(a.s) && DeadOk(a.s)
  {}

  /** A generation is one port's, in one slot, for all time. */
  lemma GenerationNamesOne(ms: seq<Machine>, es: seq<Mutation>, i: nat, j: nat, x: nat, y: nat)
    requires Run(ms, es) && Sound(ms[0]) && i <= j < |ms| && x in ms[i].s.portv && y in ms[j].s.portv
    requires ms[i].s.portv[x].gen == ms[j].s.portv[y].gen
    ensures x == y
  {
    hide Sound, May, Make;
    RunSound(ms, es, i);
    SoundSlots(ms[i]);
    RunAges(ms, es, i, j);
  }

  /** A dead port is dead, and its queue empty, for as long as it exists. */
  lemma DeadStays(ms: seq<Machine>, es: seq<Mutation>, i: nat, j: nat, x: nat)
    requires Run(ms, es) && Sound(ms[0]) && i <= j < |ms| && x in ms[i].s.portv && ms[i].s.portv[x].dead
    requires x in ms[j].s.portv && ms[j].s.portv[x].gen == ms[i].s.portv[x].gen
    ensures ms[j].s.portv[x].dead && ms[j].s.portv[x].queue == []
  {
    hide Sound, May, Make;
    RunSound(ms, es, i);
    SoundSlots(ms[i]);
    RunAges(ms, es, i, j);
    RunSound(ms, es, j);
    SoundSlots(ms[j]);
  }

  /* ---- operations as runs ---- */

  /** Some history leads from a to b. */
  ghost predicate Leads(a: Machine, b: Machine)
  {
    exists ms: seq<Machine>, es: seq<Mutation> :: Run(ms, es) && ms[0] == a && ms[|es|] == b
  }

  lemma LeadsSelf(a: Machine)
    ensures Leads(a, a)
  {
    assert Run([a], []);
  }

  lemma LeadsStep(a: Machine, e: Mutation)
    requires May(a, e)
    ensures Leads(a, Make(a, e))
  {
    assert Run([a, Make(a, e)], [e]);
  }

  lemma LeadsTrans(a: Machine, b: Machine, c: Machine)
    requires Leads(a, b) && Leads(b, c)
    ensures Leads(a, c)
  {
    var ms, es :| Run(ms, es) && ms[0] == a && ms[|es|] == b;
    var ns, fs :| Run(ns, fs) && ns[0] == b && ns[|fs|] == c;
    RunJoin(ms, es, ns, fs);
    assert (ms + ns[1..])[|es + fs|] == c;
  }

  lemma RunJoin(ms: seq<Machine>, es: seq<Mutation>, ns: seq<Machine>, fs: seq<Mutation>)
    requires Run(ms, es) && Run(ns, fs) && ms[|es|] == ns[0]
    ensures Run(ms + ns[1..], es + fs)
  {
    hide May, Make;
    var all, acts := ms + ns[1..], es + fs;
    forall i | 0 <= i < |acts|
      ensures May(all[i], acts[i]) && all[i + 1] == Make(all[i], acts[i])
    {
      if i < |es| {
        assert all[i] == ms[i] && all[i + 1] == ms[i + 1] && acts[i] == es[i];
      } else {
        var n := i - |es|;
        assert all[i] == ns[n] && all[i + 1] == ns[n + 1] && acts[i] == fs[n];
      }
    }
  }
}
