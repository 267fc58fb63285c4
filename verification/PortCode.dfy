/** The IPC operations on the kernel's own tables, each proved to be a history of single updates. */
module PortCode {
  import opened Options
  import opened PortRefs
  import opened PortKeep
  import opened PortRuns

  /** What port_push_owned answers. */
  datatype Outcome = Queued | Full | Dead | NoMemory

  function Answer(s: State, x: nat, cost: nat, memory: bool): Outcome
    requires x in s.portv
  {
    if s.portv[x].dead then Dead
    else if s.portv[x].qbytes + cost > MAXQUEUE then Full
    else if !memory then NoMemory
    else Queued
  }

  const MAXTIMERS: nat := 128
  const NRIGHTS_INLINE: nat := 8

  /* ---- where the search for a handle starts ---- */

  function HintOf(rhint: map<nat, nat>, p: nat): nat
  {
    if p in rhint then rhint[p] else 0
  }

  /** No handle below a proc's hint is free. */
  ghost predicate HintsOk(rights: map<(nat, nat), Ref>, rhint: map<nat, nat>)
  {
    forall p: nat, h: nat | h < HintOf(rhint, p) :: (p, h) in rights
  }

  /** Dropping a right keeps that if and only if the handle is not below the hint: whoever drops one has to lower it. */
  lemma DropKeepsHintsIff(rights: map<(nat, nat), Ref>, rhint: map<nat, nat>, p: nat, h: nat)
    requires (p, h) in rights
    ensures HintsOk(rights, rhint) ==> (HintsOk(rights - {(p, h)}, rhint) <==> HintOf(rhint, p) <= h)
  {
    if h < HintOf(rhint, p) {
      assert (p, h) !in rights - {(p, h)};
    }
  }

  /** Handle h has a slot, or memory for one. */
  predicate Slot(grown: set<nat>, p: nat, h: nat, memory: bool)
  {
    h < NRIGHTS_INLINE || p in grown || memory
  }

  /** From the hint up every handle is in use or has no slot. */
  ghost predicate NoSlot(rights: map<(nat, nat), Ref>, grown: set<nat>, p: nat, hint: nat, memory: bool)
  {
    forall i | hint <= i < MAXRIGHTS :: (p, i) in rights || !Slot(grown, p, i, memory)
  }

  /** At most p's overflow array was made, and only with memory for it. */
  ghost predicate Grew(was: set<nat>, grown: set<nat>, p: nat, memory: bool)
  {
    was <= grown <= was + {p} && (!memory ==> grown == was)
  }

  /** Nothing is left from the hint up once the handles hs are taken too. */
  ghost predicate Spent(rights: map<(nat, nat), Ref>, grown: set<nat>, p: nat, hint: nat, memory: bool, hs: seq<nat>)
  {
    forall i: nat | hint <= i < MAXRIGHTS :: (p, i) in rights || i in hs || !Slot(grown, p, i, memory)
  }

  /** Taking the first free handle from the hint up, and moving the hint past it. */
  lemma TakenOk(rights: map<(nat, nat), Ref>, rhint: map<nat, nat>, p: nat, h: nat, r: Ref)
    requires forall i: nat | HintOf(rhint, p) <= i < h :: (p, i) in rights
    ensures HintsOk(rights, rhint) ==> forall i: nat | i < h :: (p, i) in rights
    ensures HintsOk(rights, rhint) ==> HintsOk(rights[(p, h) := r], rhint[p := h + 1])
  {}

  lemma LoweredOk(rights: map<(nat, nat), Ref>, rhint: map<nat, nat>, p: nat, h: nat)
    ensures HintsOk(rights, rhint) ==> HintsOk(rights - {(p, h)}, Lowered(rhint, p, h))
  {}

  function Lowered(rhint: map<nat, nat>, p: nat, h: nat): map<nat, nat>
  {
    if h < HintOf(rhint, p) then rhint[p := h] else rhint
  }

  /** Nothing owed. */
  ghost function At(s: State): Machine
  {
    Machine(s, None)
  }

  /* ---- each update is a step ---- */

  lemma LeadCount(s: State, x: nat)
    requires x in s.portv
    ensures Leads(Machine(s, Some(x)), At(WithPort(s, x, s.portv[x].(nrights := s.portv[x].nrights - 1))))
  {
    hide Leads;
    LeadsStep(Machine(s, Some(x)), CountOff(x));
  }

  lemma LeadFreePort(s: State, x: nat)
    requires x in s.portv && s.portv[x].nrights == 0 && s.portv[x].queue == []
    ensures Leads(At(s), At(s.(portv := s.portv - {x})))
  {
    hide Leads;
    LeadsStep(At(s), FreePort(x));
  }

  lemma LeadFlush(s: State, x: nat, dead: bool)
    requires x in s.portv && (s.portv[x].dead ==> dead)
    requires if dead then s.portv[x].nrecv == 0 else s.portv[x].nrights == 0
    ensures Leads(At(s), At(TakeQueue(s, x, dead)))
  {
    hide Leads;
    LeadsStep(At(s), Flush(x, dead));
  }

  lemma LeadFreeMsg(s: State, m: nat)
    requires m in s.msgs && s.msgs[m].at == None && forall k | k in s.flight :: k.0 != m
    ensures Leads(At(s), At(s.(msgs := s.msgs - {m})))
  {
    hide Leads;
    LeadsStep(At(s), FreeMsg(m));
  }

  lemma LeadDropFlight(s: State, k: (nat, nat))
    requires k in s.flight && k.0 in s.msgs && s.msgs[k.0].at == None && s.flight[k].idx in s.portv
    ensures Leads(At(s), Machine(StrikeFlight(s, k), Some(s.flight[k].idx)))
  {
    hide Leads;
    LeadsStep(At(s), DropFlight(k));
  }

  lemma LeadDropRight(s: State, k: (nat, nat))
    requires k in s.rights && s.rights[k].idx in s.portv
    ensures Leads(At(s), Machine(StrikeRight(s, k), Some(s.rights[k].idx)))
  {
    hide Leads;
    LeadsStep(At(s), DropRight(k));
  }

  lemma LeadDropTimer(s: State, slot: nat)
    requires slot in s.kernel && s.kernel[slot].idx in s.portv
    ensures Leads(At(s), Machine(StrikeKernel(s, slot), Some(s.kernel[slot].idx)))
  {
    hide Leads;
    LeadsStep(At(s), DropTimer(slot));
  }

  lemma LeadNewPort(s: State, x: nat)
    requires x !in s.portv
    ensures Leads(At(s), At(Fresh(s, x)))
  {
    hide Leads;
    LeadsStep(At(s), NewPort(x));
  }

  lemma LeadNewMsg(s: State, m: nat)
    requires m !in s.msgs
    ensures Leads(At(s), At(WithMsg(s, m)))
  {
    hide Leads;
    LeadsStep(At(s), NewMsg(m));
  }

  lemma LeadTakeRight(s: State, k: (nat, nat), r: Ref)
    requires k !in s.rights && MayTake(s, r)
    ensures Leads(At(s), At(AddRight(s, k, r)))
  {
    hide Leads;
    LeadsStep(At(s), TakeRight(k, r));
  }

  lemma LeadTakeFlight(s: State, m: nat, r: Ref)
    requires Owned(s, m) && MayTake(s, r)
    ensures Leads(At(s), At(AddFlight(s, m, r)))
  {
    hide Leads;
    LeadsStep(At(s), TakeFlight(m, r));
  }

  lemma LeadTakeTimer(s: State, slot: nat, r: Ref)
    requires slot !in s.kernel && MayTake(s, r) && !r.recv
    ensures Leads(At(s), At(AddKernel(s, slot, r)))
  {
    hide Leads;
    LeadsStep(At(s), TakeTimer(slot, r));
  }

  lemma LeadQueue(s: State, m: nat, x: nat, cost: nat)
    requires Owned(s, m) && x in s.portv && !s.portv[x].dead && s.portv[x].qbytes + cost <= MAXQUEUE
    ensures Leads(At(s), At(Enqueue(s, m, x, cost)))
  {
    hide Leads;
    LeadsStep(At(s), Queue(m, x, cost));
  }

  lemma LeadUnqueue(s: State, x: nat)
    requires x in s.portv && s.portv[x].queue != [] && s.portv[x].queue[0] in s.msgs
    ensures Leads(At(s), At(Dequeue(s, x)))
  {
    hide Leads;
    LeadsStep(At(s), Unqueue(x));
  }

  /* ---- what giving handles back leaves alone ---- */

  lemma TimerNamed(s: State, slot: nat)
    requires Valid(s) && slot in s.kernel
    ensures s.kernel[slot].idx in s.portv
  {}

  lemma RightNamed(s: State, k: (nat, nat))
    requires Valid(s) && k in s.rights
    ensures s.rights[k].idx in s.portv && s.portv[s.rights[k].idx].gen == s.rights[k].gen
  {}

  /** A fresh port in slot x and its receive right. */
  function Opened(s: State, x: nat, k: (nat, nat)): State
  {
    AddRight(Fresh(s, x), k, Ref(x, s.portgen + 1, true))
  }

  lemma OpenedIs(s: State, x: nat, k: (nat, nat))
    ensures Opened(s, x, k) == AddRight(Fresh(s, x), k, Ref(x, s.portgen + 1, true))
    ensures Opened(s, x, k).portv == s.portv[x := Port(s.portgen + 1, 1, 1, false, [], 0)]
    ensures Opened(s, x, k).portgen == s.portgen + 1
    ensures Opened(s, x, k).rights == s.rights[k := Ref(x, s.portgen + 1, true)]
  {}

  lemma FreshRefs(s: State, x: nat)
    ensures Refs(Fresh(s, x), x) == Refs(s, x)
  {}

  lemma ShrinksSelf(s: State)
    ensures Shrinks(s, s) && s.(rights := s.rights) == s
  {}

  lemma UndoTrans(s: State, t: State, u: State)
    requires Shrinks(s.(rights := t.rights), t) && Shrinks(t.(rights := u.rights), u)
    ensures Shrinks(s.(rights := u.rights), u)
  {}

  lemma UndoStep(s: State, u: State, k: (nat, nat))
    requires k in s.rights && s.rights[k].idx in s.portv && Shrinks(StrikeRight(s, k), u)
    ensures Shrinks(s.(rights := u.rights), u)
  {}

  lemma ReapStep(s: State, t: State, u: State, slot: nat)
    requires Shrinks(s.(kernel := t.kernel), t) && slot in t.kernel && Shrinks(StrikeKernel(t, slot), u)
    ensures Shrinks(s.(kernel := u.kernel), u)
  {}

  /** A port that has timers, and what has become of it since s. */
  lemma TimerPort(s: State, t: State, slot: nat)
    requires Shrinks(s.(kernel := t.kernel), t) && Valid(t) && slot in t.kernel
    ensures t.kernel[slot].idx in t.portv && t.kernel[slot].idx in s.portv
    ensures s.portv[t.kernel[slot].idx].dead ==> t.portv[t.kernel[slot].idx].dead
  {}

  lemma DeadOrGone(s: State, t: State, x: nat)
    requires Shrinks(s, t) && (x !in s.portv || s.portv[x].dead)
    ensures x !in t.portv || t.portv[x].dead
  {}

  lemma StruckDead(s: State, slot: nat, x: nat)
    requires slot in s.kernel && (x !in s.portv || s.portv[x].dead)
    ensures x !in StrikeKernel(s, slot).portv || StrikeKernel(s, slot).portv[x].dead
  {}

  lemma MintedShrinks(s: State, t: State, p: nat, m: nat, hs: seq<nat>)
    requires Minted(s, t, p, m, hs)
    ensures Shrinks(s.(rights := t.rights), t)
  {}

  lemma FreeShrinks(s: State, t: State, u: State, m: nat)
    requires Shrinks(s.(rights := t.rights), t) && Shrinks(WithoutMsg(t, m), u) && m in s.msgs && s.msgs[m].at == None
    ensures Shrinks(WithoutMsg(s, m).(rights := u.rights), u)
  {}

  /** One message of a queue taken off port x freed. */
  lemma FlushTurn(s: State, t: State, u: State, x: nat, ms: seq<nat>, n: nat)
    requires Shrinks(s, t) && FreesOnlyHeld(s, t) && n < |ms| && forall j | n <= j < |ms| :: Owned(t, ms[j])
    requires ms[n] in s.msgs && s.msgs[ms[n]].at != None && forall j | n < j < |ms| :: ms[n] != ms[j]
    requires Shrinks(WithoutMsg(t, ms[n]), u) && FreesOnlyHeld(t, u)
    ensures Shrinks(s, u) && FreesOnlyHeld(s, u)
    ensures forall j | n < j < |ms| :: Owned(u, ms[j])
    ensures x in u.portv ==> x in t.portv && (t.portv[x].queue == [] ==> u.portv[x].queue == [])
                                          && (t.portv[x].dead ==> u.portv[x].dead)
  {
    hide Shrinks, FreesOnlyHeld, Owned;
    FlushStep(s, t, u, ms[n]);
    FreesTrans(s, t, u);
    KeepsEmpty(WithoutMsg(t, ms[n]), u);
    forall j | n < j < |ms|
      ensures Owned(u, ms[j])
    {
      OwnedElsewhere(t, ms[n], ms[j]);
      ShrinksOwned(WithoutMsg(t, ms[n]), u, ms[j]);
    }
  }

  /** A port is gone, or dead. */
  ghost predicate LetGo(s: State, x: nat)
  {
    x !in s.portv || s.portv[x].dead
  }

  lemma NoneLetBack(s: State, t: State)
    requires NoneRevived(s, t)
    ensures forall x | LetGo(s, x) :: LetGo(t, x)
  {}

  lemma ShrinksMsgs(s: State, t: State)
    requires Shrinks(s, t)
    ensures t.msgs.Keys <= s.msgs.Keys
  {}

  lemma FiredQueued(s: State, mid: State, u: State, m: nat, slot: nat)
    requires slot in s.kernel && s.kernel[slot].idx in s.portv
    requires mid == Enqueue(WithMsg(s, m), m, s.kernel[slot].idx, 1)
    requires Shrinks(StrikeKernel(mid, slot), u)
    ensures NoneRevived(s, u) && u.msgs.Keys <= s.msgs.Keys + {m}
  {
    ShrinksMsgs(StrikeKernel(mid, slot), u);
  }

  lemma FiredRefused(s: State, mid: State, u: State, m: nat, slot: nat)
    requires Shrinks(WithoutMsg(WithMsg(s, m), m), mid) && slot in mid.kernel && mid.kernel[slot].idx in mid.portv
    requires Shrinks(StrikeKernel(mid, slot), u)
    ensures NoneRevived(s, u) && u.msgs.Keys <= s.msgs.Keys + {m}
  {
    ShrinksMsgs(WithoutMsg(WithMsg(s, m), m), mid);
    ShrinksMsgs(StrikeKernel(mid, slot), u);
  }

  function DueAt(due: map<nat, nat>, slot: nat): nat
  {
    if slot in due then due[slot] else 0
  }

  /** Of the timers in the first n slots those left are not due yet; those let go were due, or their port was. */
  ghost predicate Expired(s: State, t: State, due: map<nat, nat>, now: nat, n: nat)
  {
    && SubMap(t.kernel, s.kernel) && (forall slot | slot in t.kernel && slot < n :: now < DueAt(due, slot))
    && forall slot | slot in s.kernel && slot !in t.kernel ::
         slot < MAXTIMERS && (DueAt(due, slot) <= now || LetGo(t, s.kernel[slot].idx))
  }

  ghost predicate Below(msgs: map<nat, Msg>, n: nat)
  {
    forall m | m in msgs :: m < n
  }

  lemma NewBelow(msgs: map<nat, Msg>, n: nat)
    requires Below(msgs, n)
    ensures n !in msgs
  {}

  lemma ExpiredNone(s: State, t: State, due: map<nat, nat>, now: nat, base: nat)
    requires Shrinks(s.(kernel := t.kernel), t) && SubMap(t.kernel, s.kernel) && Below(s.msgs, base)
    requires forall slot | slot in s.kernel && slot >= MAXTIMERS :: slot in t.kernel
    requires forall slot | slot in s.kernel && slot !in t.kernel ::
      s.kernel[slot].idx !in t.portv || t.portv[s.kernel[slot].idx].dead
    ensures Expired(s, t, due, now, 0) && Below(t.msgs, base)
  {
    hide SubMap;
    ShrinksMsgs(s.(kernel := t.kernel), t);
  }

  /** Slot i passed over, or its timer, being due, gone off. */
  lemma ExpiredStep(s: State, t: State, u: State, due: map<nat, nat>, now: nat, base: nat, i: nat)
    requires Expired(s, t, due, now, i) && Below(t.msgs, base + i) && i < MAXTIMERS
    requires || (u == t && (i in t.kernel ==> now < DueAt(due, i)))
             || (u.kernel == t.kernel - {i} && DueAt(due, i) <= now && NoneRevived(t, u)
                 && u.msgs.Keys <= t.msgs.Keys + {base + i})
    ensures Expired(s, u, due, now, i + 1) && Below(u.msgs, base + i + 1)
  {
    if u != t {
      NoneLetBack(t, u);
    }
  }

  lemma FlightIsNew(s: State, m: nat)
    requires Valid(s) && m in s.msgs
    ensures (m, s.msgs[m].nrefs) !in s.flight
  {}

  lemma HeldNow(s: State, t: State, x: nat)
    requires Kept(s, t) && x in s.portv && x in t.portv && Refs(s, x) > 0
    ensures Refs(t, x) > 0
  {}

  lemma WithoutRevives(s: State, t: State, m: nat)
    requires Shrinks(WithoutMsg(s, m), t)
    ensures NoneRevived(s, t)
  {}

  lemma StrikeRevives(s: State, t: State, k: (nat, nat))
    requires k in s.flight && s.flight[k].idx in s.portv && Shrinks(StrikeFlight(s, k), t)
    ensures NoneRevived(s, t)
  {}

  lemma StrikeRightRevives(s: State, t: State, k: (nat, nat))
    requires k in s.rights && s.rights[k].idx in s.portv && Shrinks(StrikeRight(s, k), t)
    ensures NoneRevived(s, t)
  {}

  lemma StrikeKernelRevives(s: State, t: State, slot: nat)
    requires slot in s.kernel && Shrinks(StrikeKernel(s, slot), t)
    ensures NoneRevived(s, t)
  {}

  lemma RightsRevive(s: State, t: State)
    requires NoneRevived(s.(rights := t.rights), t)
    ensures NoneRevived(s, t)
  {}

  lemma OnlyMoreSelf(s: State)
    ensures OnlyMore(s, s)
  {}

  /** A tick queued stays on a port that stays alive. */
  lemma TickStays(mid: State, u: State, slot: nat)
    requires slot in mid.kernel && mid.kernel[slot].idx in mid.portv && mid.portv[mid.kernel[slot].idx].queue != []
    requires Kept(mid, u) && Shrinks(StrikeKernel(mid, slot), u)
    ensures var x := mid.kernel[slot].idx;
      x in u.portv && !u.portv[x].dead ==> u.portv[x].queue == mid.portv[x].queue
  {
    CountPositive(mid.kernel, slot);
  }

  lemma TimerSame(s: State, t: State, due: map<nat, nat>, now: nat, i: nat)
    requires Expired(s, t, due, now, i) && i in t.kernel
    ensures i in s.kernel && s.kernel[i] == t.kernel[i]
  {}

  /** A timer let go has its tick on its port's queue, if the port lives and there was memory for it, unless that queue
      is full. */
  ghost predicate Ticked(s: State, t: State, base: nat, memory: set<nat>)
  {
    forall slot | slot in s.kernel && slot !in t.kernel && !LetGo(t, s.kernel[slot].idx) ::
      HasTick(t, s.kernel[slot].idx, base + slot, slot in memory)
  }

  ghost predicate HasTick(t: State, x: nat, m: nat, memory: bool)
    requires x in t.portv
  {
    Refs(t, x) > 0 && (memory ==> m in t.portv[x].queue || t.portv[x].qbytes >= MAXQUEUE)
  }

  lemma TickedNone(s: State, t: State, base: nat, memory: set<nat>)
    requires forall slot | slot in s.kernel && slot !in t.kernel :: LetGo(t, s.kernel[slot].idx)
    ensures Ticked(s, t, base, memory)
  {}

  lemma TickKept(t: State, u: State, x: nat, m: nat, memory: bool)
    requires Kept(t, u) && x in t.portv && HasTick(t, x, m, memory) && !LetGo(u, x)
    ensures HasTick(u, x, m, memory)
  {
    hide Refs, RecvRefs;
    assert HeldStill(t, u, x);
  }

  lemma TickMade(t: State, u: State, x: nat, i: nat, m: nat, memory: bool, r: Outcome)
    requires Kept(t, u) && i in t.kernel && x == t.kernel[i].idx && x in t.portv && r == Answer(t, x, 1, memory)
    requires !LetGo(u, x) && LetGoOf(u, x) && (t.portv[x].dead ==> u.portv[x].dead)
    requires r == Queued ==> u.portv[x].queue == t.portv[x].queue + [m]
    ensures HasTick(u, x, m, memory)
  {
    CountPositive(t.kernel, i);
    assert HeldStill(t, u, x);
    hide Refs, RecvRefs;
  }

  lemma TickedFire(s: State, t: State, u: State, base: nat, memory: set<nat>, i: nat, r: Outcome)
    requires Ticked(s, t, base, memory) && i in t.kernel && i in s.kernel && s.kernel[i] == t.kernel[i]
    requires u.kernel == t.kernel - {i} && Kept(t, u) && NoneRevived(t, u) && LetGoOf(u, t.kernel[i].idx)
    requires t.kernel[i].idx in t.portv && r == Answer(t, t.kernel[i].idx, 1, i in memory)
    requires r == Queued && t.kernel[i].idx in u.portv && !u.portv[t.kernel[i].idx].dead ==>
      u.portv[t.kernel[i].idx].queue == t.portv[t.kernel[i].idx].queue + [base + i]
    ensures Ticked(s, u, base, memory)
  {
    hide Kept, LetGoOf, HasTick, Answer;
    forall slot | slot in s.kernel && slot !in u.kernel && !LetGo(u, s.kernel[slot].idx)
      ensures HasTick(u, s.kernel[slot].idx, base + slot, slot in memory)
    {
      if slot == i {
        TickMade(t, u, s.kernel[i].idx, i, base + i, i in memory, r);
      } else {
        TickKept(t, u, s.kernel[slot].idx, base + slot, slot in memory);
      }
    }
  }

  class Ipc {
    const maxPorts: nat
    var portv: map<nat, Port>
    var portgen: nat
    var rights: map<(nat, nat), Ref>
    var flight: map<(nat, nat), Ref>
    var kernel: map<nat, Ref>
    var msgs: map<nat, Msg>
    var rhint: map<nat, nat>
    var grown: set<nat>
    var due: map<nat, nat>

    /** When a timer slot's timer is to go off. */
    function Due(slot: nat): nat
      reads `due
    {
      DueAt(due, slot)
    }

    /** Where a proc's search for a free handle starts. */
    function Hint(p: nat): nat
      reads `rhint
    {
      HintOf(rhint, p)
    }

    ghost function View(): State
      reads this
    {
      State(portv, portgen, rights, flight, kernel, msgs)
    }

    constructor (maxPorts: nat)
      ensures Valid(View()) && View() == State(map[], 0, map[], map[], map[], map[]) && HintsOk(rights, rhint)
    {
      this.maxPorts := maxPorts;
      portv, portgen, rights, flight, kernel, msgs := map[], 0, map[], map[], map[], map[];
      rhint, grown, due := map[], {}, map[];
    }

    /** port_unref: a reference to port x has left the tables. Count it; the last reference frees the port, the
        last receive right kills and flushes it, and a flush may do the same to other ports in turn. */
    method PortUnref(x: nat)
      requires x in portv && ValidBut(View(), x, 1)
      modifies `portv, `portgen, `rights, `flight, `kernel, `msgs
      ensures Valid(View()) && Shrinks(old(View()), View())
      ensures FreesOthersHeld(old(View()), View(), x)
      ensures Kept(old(View()), View()) && LetGoOf(View(), x)
      ensures Leads(Machine(old(View()), Some(x)), At(View()))
      decreases |flight|, 3
    {
      hide Valid, ValidBut, Shrinks, Refs, RecvRefs, FreesOnlyHeld, FreesOthersHeld, Leads, At, Kept, NoneRevived;
      ghost var s0 := View();
      LeadCount(s0, x);
      CountDown(s0, x);
      CountDownShrinks(s0, x);
      CountDownKept(s0, x);
      portv := portv[x := portv[x].(nrights := portv[x].nrights - 1)];
      ghost var s1 := View();
      CountAt(s1, x);
      if portv[x].nrights <= 0 {
        PortFlush(x, portv[x].dead);
        ghost var s2 := View();
        ShrinksTrans(s0, s1, s2);
        ShrinksRefs(s1, s2, x);
        UnheldStays(s1, s2, x);
        CountAt(s2, x);
        LeadFreePort(s2, x);
        LeadsTrans(Machine(s0, Some(x)), At(s1), At(s2));
        RemovePortValid(s2, x);
        RemovePortShrinks(s2, x);
        ShrinksRevives(s1, s2);
        KeptTrans(s0, s1, s2);
        RemoveKept(s2, x);
        portv := portv - {x};
        KeptTrans(s0, s2, View());
        LeadsTrans(Machine(s0, Some(x)), At(s2), At(View()));
        ShrinksTrans(s0, s2, View());
        FreesAfterCount(s0, s1, s2, View(), x);
      } else if portv[x].nrecv == 0 && !portv[x].dead {
        PortFlush(x, true);
        LeadsTrans(Machine(s0, Some(x)), At(s1), At(View()));
        ShrinksTrans(s0, s1, View());
        FreesAfterCount(s0, s1, View(), View(), x);
        ShrinksRevives(s1, View());
        KeptTrans(s0, s1, View());
        if x in portv {
          CountAt(View(), x);
          HeldNow(s1, View(), x);
        } else {
          GoneIsUnheld(View(), x);
        }
      } else {
        FreesAfterCount(s0, s1, s1, s1, x);
      }
    }

    /** Take the whole queue off a port. */
    method TakeOff(x: nat, dead: bool) returns (ms: seq<nat>)
      requires x in portv
      modifies `portv, `msgs
      ensures ms == old(portv[x].queue) && View() == TakeQueue(old(View()), x, dead)
      ensures x in portv && portv[x].queue == [] && portv[x].dead == dead
    {
      ms := portv[x].queue;
      portv := portv[x := portv[x].(queue := [], qbytes := 0, dead := dead)];
      msgs := map m | m in msgs :: if msgs[m].at == Some(x) then msgs[m].(at := None) else msgs[m];
    }

    /** port_flush: take the whole queue off the port, then free its messages one by one. */
    method PortFlush(x: nat, dead: bool)
      requires x in portv && Valid(View()) && (portv[x].dead ==> dead)
      requires if dead then portv[x].nrecv == 0 else portv[x].nrights == 0
      modifies `portv, `portgen, `rights, `flight, `kernel, `msgs
      ensures Valid(View()) && Shrinks(old(View()), View()) && FreesOnlyHeld(old(View()), View())
      ensures x in portv ==> portv[x].queue == [] && (dead ==> portv[x].dead)
      ensures Kept(old(View()), View())
      ensures Leads(At(old(View())), At(View()))
      decreases |flight|, 2
    {
      hide Valid, ValidBut, Shrinks, Refs, FreesOnlyHeld, Owned, TakeQueue, Leads, At, Kept, NoneRevived;
      ghost var s0 := View();
      LeadFlush(s0, x, dead);
      TakeQueueValid(s0, x, dead);
      TakeQueueShrinks(s0, x, dead);
      TakeQueueOwned(s0, x, dead);
      CountAt(s0, x);
      TakeQueueKept(s0, x, dead);
      var ms := TakeOff(x, dead);
      for n := 0 to |ms|
        invariant Valid(View()) && Shrinks(s0, View()) && FreesOnlyHeld(s0, View()) && Leads(At(s0), At(View()))
        invariant Kept(s0, View())
        invariant forall j | n <= j < |ms| :: Owned(View(), ms[j])
        invariant x in portv ==> portv[x].queue == [] && (dead ==> portv[x].dead)
      {
        ghost var s1 := View();
        ShrinksSize(s0, s1);
        MsgFree(ms[n]);
        LeadsTrans(At(s0), At(s1), At(View()));
        FlushTurn(s0, s1, View(), x, ms, n);
        WithoutRevives(s1, View(), ms[n]);
        KeptTrans(s0, s1, View());
      }
    }

    /** msg_free: release every reference the message carries, then the message. */
    method MsgFree(m: nat)
      requires Valid(View()) && Owned(View(), m)
      modifies `portv, `portgen, `rights, `flight, `kernel, `msgs
      ensures Valid(View()) && Shrinks(WithoutMsg(old(View()), m), View()) && FreesOnlyHeld(old(View()), View())
      ensures Kept(old(View()), View())
      ensures Leads(At(old(View())), At(View()))
      decreases |flight|, 1
    {
      hide ValidBut, Shrinks, Refs, FreesOnlyHeld, Leads, At, Kept, NoneRevived;
      ghost var s0 := View();
      LeadsSelf(At(s0));
      KeptSelf(s0);
      var n := msgs[m].nrefs;
      StruckNone(s0, m);
      for j := 0 to n
        invariant Valid(View()) && Shrinks(Struck(s0, m, j), View()) && FreesOnlyHeld(s0, View())
        invariant Kept(s0, View()) && Leads(At(s0), At(View()))
      {
        ghost var s1 := View();
        StillWhole(s0, s1, m, j);
        FlightNamed(s1, (m, j));
        StruckSize(s0, s1, m, j);
        ReleaseRef((m, j));
        LeadsTrans(At(s0), At(s1), At(View()));
        StruckNext(s0, s1, m, j);
        FreesReleased(s0, s1, View(), m, j);
        ShrinksTrans(Struck(s0, m, j + 1), StrikeFlight(s1, (m, j)), View());
        StrikeRevives(s1, View(), (m, j));
        KeptTrans(s0, s1, View());
      }
      StruckAll(s0, View(), m);
      FreeMsgValid(View(), m, 0, 0);
      ghost var s2 := View();
      LeadFreeMsg(s2, m);
      msgs := msgs - {m};
      LeadsTrans(At(s0), At(s2), At(View()));
      SamePortsKept(s2, View());
      KeptTrans(s0, s2, View());
    }

    /** One turn of release_inflight: uncount the receive right first, since port_unref judges death by it. */
    method ReleaseRef(k: (nat, nat))
      requires Valid(View()) && k in flight && k.0 in msgs && msgs[k.0].at == None && flight[k].idx in portv
      modifies `portv, `portgen, `rights, `flight, `kernel, `msgs
      ensures Valid(View()) && Shrinks(StrikeFlight(old(View()), k), View())
      ensures FreesOthersHeld(StrikeFlight(old(View()), k), View(), old(flight[k].idx))
      ensures Kept(old(View()), View()) && LetGoOf(View(), old(flight[k].idx))
      ensures Leads(At(old(View())), At(View()))
      decreases |flight|, 0
    {
      hide Valid, ValidBut, Shrinks, Refs, RecvRefs, Leads, At, Kept, Struck1;
      ghost var s1 := View();
      LeadDropFlight(s1, k);
      var r := flight[k];
      StrikeFlightValid(s1, k);
      if r.recv {
        portv := portv[r.idx := portv[r.idx].(nrecv := portv[r.idx].nrecv - 1)];
      }
      flight := flight - {k};
      assert View() == StrikeFlight(s1, k);
      PortUnref(r.idx);
      LeadsTrans(At(s1), Machine(StrikeFlight(s1, k), Some(r.idx)), At(View()));
      StrikeFlight1(s1, k);
      ShrinksRefs(StrikeFlight(s1, k), View(), r.idx);
      UnrefKept(s1, StrikeFlight(s1, k), View(), r.idx);
    }

    /** port_new: the first free slot, stamped with a generation no port has had. */
    method PortNew(memory: bool) returns (r: Option<nat>)
      requires Valid(View())
      modifies `portv, `portgen, `rights, `flight, `kernel, `msgs
      ensures Valid(View())
      ensures r.None? <==> !memory || forall i: nat | i < maxPorts :: i in old(portv)
      ensures r.None? ==> View() == old(View())
      ensures r.Some? ==>
        r.value !in old(portv) && (forall i: nat | i < r.value :: i in old(portv)) && portgen == old(portgen) + 1
                          && View() == Fresh(old(View()), r.value)
      ensures r.Some? ==> portv == old(portv)[r.value := Port(portgen, 0, 0, false, [], 0)]
      ensures Leads(At(old(View())), At(View()))
    {
      hide Valid, Leads, At;
      LeadsSelf(At(View()));
      var i := 0;
      while i < maxPorts
        invariant i <= maxPorts && View() == old(View())
        invariant forall j | 0 <= j < i :: j in portv
      {
        if i !in portv {
          if !memory {
            return None;
          }
          FreshValid(View(), i);
          LeadNewPort(View(), i);
          portgen := portgen + 1;
          portv := portv[i := Port(portgen, 0, 0, false, [], 0)];
          return Some(i);
        }
        i := i + 1;
      }
      r := None;
    }

    /** right_slot_grow: whether handle h has a slot, its proc's overflow array made if this is the first beyond the
        inline ones. */
    method SlotGrow(p: nat, h: nat, memory: bool) returns (ok: bool)
      modifies `grown
      ensures ok == Slot(old(grown), p, h, memory)
      ensures grown == if ok && h >= NRIGHTS_INLINE then old(grown) + {p} else old(grown)
    {
      if h < NRIGHTS_INLINE {
        return true;
      }
      if p !in grown {
        if !memory {
          return false;
        }
        grown := grown + {p};
      }
      return true;
    }

    /** right_new's search: the first free handle from the hint up. */
    method FindHandle(p: nat, memory: bool) returns (h: Option<nat>)
      modifies `grown
      ensures Grew(old(grown), grown, p, memory)
      ensures h.None? <==> NoSlot(rights, old(grown), p, Hint(p), memory)
      ensures h.Some? ==> Hint(p) <= h.value < MAXRIGHTS && (p, h.value) !in rights
      ensures h.Some? ==> forall i | Hint(p) <= i < h.value :: (p, i) in rights
    {
      var i := Hint(p);
      while i < MAXRIGHTS
        invariant Grew(old(grown), grown, p, memory)
        invariant forall j | Hint(p) <= j < i :: (p, j) in rights
      {
        var ok := SlotGrow(p, i, memory);
        if !ok {
          return None;
        }
        if (p, i) !in rights {
          return Some(i);
        }
        i := i + 1;
      }
      return None;
    }

    /** right_new: the handle found, which is the first free one of all if the hint is right. */
    method RightNew(p: nat, ref: Ref, memory: bool) returns (h: Option<nat>)
      requires Valid(View()) && MayTake(View(), ref)
      modifies this
      ensures Valid(View()) && Grew(old(grown), grown, p, memory)
      ensures h.None? <==> NoSlot(old(rights), old(grown), p, old(Hint(p)), memory)
      ensures h.None? ==> View() == old(View()) && rhint == old(rhint)
      ensures h.Some? ==> old(Hint(p)) <= h.value < MAXRIGHTS && (p, h.value) !in old(rights)
                          && (forall i | old(Hint(p)) <= i < h.value :: (p, i) in old(rights))
                          && View() == AddRight(old(View()), (p, h.value), ref)
                          && rhint == old(rhint)[p := h.value + 1]
      ensures h.Some? ==> rights == old(rights)[(p, h.value) := ref] && OnlyMore(old(View()), View())
      ensures old(HintsOk(rights, rhint)) ==> HintsOk(rights, rhint)
      ensures old(HintsOk(rights, rhint)) && h.Some? ==> forall i: nat | i < h.value :: (p, i) in old(rights)
      ensures Leads(At(old(View())), At(View()))
    {
      hide ValidBut, Leads, At, HintsOk, NoSlot, Grew, OnlyMore;
      LeadsSelf(At(View()));
      h := FindHandle(p, memory);
      if h.Some? {
        RightMore(View(), (p, h.value), ref);
        AddRightValid(View(), (p, h.value), ref, 0, 0);
        LeadTakeRight(View(), (p, h.value), ref);
        TakenOk(rights, rhint, p, h.value, ref);
        rights := rights[(p, h.value) := ref];
        portv := portv[ref.idx := AddRecv(portv[ref.idx], ref.recv)];
        rhint := rhint[p := h.value + 1];
      }
    }

    /** right_drop. */
    method RightDrop(p: nat, h: nat)
      requires Valid(View()) && (p, h) in rights
      modifies `portv, `portgen, `rights, `flight, `kernel, `msgs
      ensures Valid(View()) && rights == old(rights) - {(p, h)}
      ensures old(rights[(p, h)].idx in portv) && Shrinks(StrikeRight(old(View()), (p, h)), View())
      ensures Kept(old(View()), View()) && LetGoOf(View(), old(rights[(p, h)].idx))
      ensures Leads(At(old(View())), At(View()))
    {
      hide ValidBut, Shrinks, Refs, RecvRefs, Leads, At, Kept, Struck1;
      ghost var s0 := View();
      RightMayTake(View(), (p, h), 0, 0);
      LeadDropRight(View(), (p, h));
      var r := rights[(p, h)];
      StrikeRightValid(View(), (p, h));
      rights := rights - {(p, h)};
      portv := portv[r.idx := DropRecv(portv[r.idx], r.recv)];
      PortUnref(r.idx);
      LeadsTrans(At(old(View())), Machine(StrikeRight(old(View()), (p, h)), Some(r.idx)), At(View()));
      ShrinksTables(StrikeRight(old(View()), (p, h)), View());
      StrikeRight1(s0, (p, h));
      ShrinksRefs(StrikeRight(s0, (p, h)), View(), r.idx);
      UnrefKept(s0, StrikeRight(s0, (p, h)), View(), r.idx);
    }

    /** sys.newport, for a proc over its limit or not: a port and its receive right. When the port was to be had and the
        right was not, the port stays in its slot with nothing holding it. */
    method OpenPort(p: nat, over: bool, memory: bool, grow: bool) returns (port: Option<nat>, h: Option<nat>)
      requires Valid(View())
      modifies this
      ensures port.None? <==> over || !memory || forall i: nat | i < maxPorts :: i in old(portv)
      ensures port.None? ==> h.None? && View() == old(View())
      ensures port.Some? ==>
        port.value !in old(portv) && (h.None? <==> NoSlot(old(rights), old(grown), p, old(Hint(p)), grow))
      ensures port.Some? && h.None? ==> View() == Fresh(old(View()), port.value) && Refs(View(), port.value) == 0
      ensures port.Some? && h.Some? ==> View() == Opened(old(View()), port.value, (p, h.value))
      ensures port.Some? && h.Some? ==>
        && rights == old(rights)[(p, h.value) := Ref(port.value, portgen, true)]
        && portv == old(portv)[port.value := Port(portgen, 1, 1, false, [], 0)]
      ensures Valid(View())
      ensures Leads(At(old(View())), At(View()))
    {
      hide Valid, Leads, At, HintsOk, NoSlot, Grew, Refs, OnlyMore, AddRight, Opened;
      ghost var s0 := View();
      LeadsSelf(At(s0));
      port, h := None, None;
      if !over {
        port := PortNew(memory);
      }
      if port.Some? {
        ghost var s1 := View();
        GoneIsUnheld(s0, port.value);
        h := RightNew(p, Ref(port.value, portv[port.value].gen, true), grow);
        LeadsTrans(At(s0), At(s1), At(View()));
        FreshRefs(s0, port.value);
        if h.Some? {
          OpenedIs(s0, port.value, (p, h.value));
        }
      }
    }

    /** grant_named: a right for p, given back when there is no memory to record its name. The hint is not lowered then,
        so the handle is free below it and no search will come to it. */
    method GrantNamed(p: nat, ref: Ref, grow: bool, memory: bool) returns (h: Option<nat>)
      requires Valid(View()) && MayTake(View(), ref)
      modifies this
      ensures Valid(View())
      ensures h.None? <==> !memory || NoSlot(old(rights), old(grown), p, old(Hint(p)), grow)
      ensures h.None? ==> rights == old(rights) && Kept(old(View()), View())
      ensures h.Some? ==> (p, h.value) !in old(rights) && View() == AddRight(old(View()), (p, h.value), ref)
      ensures old(HintsOk(rights, rhint)) ==>
        (HintsOk(rights, rhint) <==> memory || NoSlot(old(rights), old(grown), p, old(Hint(p)), grow))
      ensures Leads(At(old(View())), At(View()))
    {
      hide Valid, Shrinks, Leads, At, HintsOk, NoSlot, Kept, LetGoOf, NoneRevived, OnlyMore;
      KeptSelf(View());
      h := RightNew(p, ref, grow);
      if h.Some? && !memory {
        ghost var s1 := View();
        DropKeepsHintsIff(rights, rhint, p, h.value);
        RightDrop(p, h.value);
        MoreKept(old(View()), s1);
        StrikeRightRevives(s1, View(), (p, h.value));
        KeptTrans(old(View()), s1, View());
        LeadsTrans(At(old(View())), At(s1), At(View()));
        assert rights == old(rights);
        return None;
      }
    }

    /** sys.close: handle 0 and a handle not in use are refused. */
    method Close(p: nat, h: nat) returns (ok: bool)
      requires Valid(View())
      modifies this
      ensures Valid(View()) && ok == (h != 0 && (p, h) in old(rights))
      ensures ok ==> rights == old(rights) - {(p, h)}
      ensures ok ==> old(rights[(p, h)].idx in portv) && Shrinks(StrikeRight(old(View()), (p, h)), View())
      ensures ok ==> Kept(old(View()), View()) && LetGoOf(View(), old(rights[(p, h)].idx))
      ensures !ok ==> View() == old(View())
      ensures rhint == if ok then Lowered(old(rhint), p, h) else old(rhint)
      ensures old(HintsOk(rights, rhint)) ==> HintsOk(rights, rhint)
      ensures Leads(At(old(View())), At(View()))
    {
      hide Valid, Shrinks, Leads, At, Kept, LetGoOf;
      LeadsSelf(At(View()));
      ok := h != 0 && (p, h) in rights;
      if ok {
        RightDrop(p, h);
        if h < Hint(p) {
          rhint := rhint[p := h];
        }
      }
    }

    /** A fresh wbuf. */
    method MsgNew(m: nat)
      requires Valid(View()) && m !in msgs
      modifies `portv, `portgen, `rights, `flight, `kernel, `msgs
      ensures Valid(View()) && Owned(View(), m) && View() == WithMsg(old(View()), m)
      ensures Leads(At(old(View())), At(View()))
    {
      hide ValidBut, Leads, At;
      WithMsgValid(View(), m, 0, 0);
      LeadNewMsg(View(), m);
      msgs := msgs[m := Msg(0, None, 0)];
    }

    /** serialize on {__right = h}: copy the sender's right into the message, or refuse, as it does when the bytes do
        not fit. */
    method SerializeRight(m: nat, p: nat, h: nat, fits: bool) returns (ok: bool)
      requires Valid(View()) && Owned(View(), m)
      modifies `portv, `portgen, `rights, `flight, `kernel, `msgs
      ensures Valid(View()) && Owned(View(), m)
      ensures ok == ((p, h) in old(rights) && old(msgs[m].nrefs) < MAXMSGRIGHTS && fits)
      ensures ok ==> old(rights[(p, h)]).idx in old(portv) && View() == AddFlight(old(View()), m, old(rights[(p, h)]))
      ensures ok ==> OnlyMore(old(View()), View()) && rights == old(rights) && msgs[m].nrefs == old(msgs[m].nrefs) + 1
                     && flight == old(flight)[(m, old(msgs[m].nrefs)) := old(rights[(p, h)])]
      ensures !ok ==> View() == old(View())
      ensures Leads(At(old(View())), At(View()))
    {
      hide ValidBut, Leads, At, OnlyMore;
      LeadsSelf(At(View()));
      ok := (p, h) in rights && msgs[m].nrefs < MAXMSGRIGHTS && fits;
      if ok {
        var r := rights[(p, h)];
        RightMayTake(View(), (p, h), 0, 0);
        AddFlightValid(View(), m, r, 0, 0);
        LeadTakeFlight(View(), m, r);
        FlightIsNew(View(), m);
        FlightMore(View(), m, r);
        flight := flight[(m, msgs[m].nrefs) := r];
        msgs := msgs[m := msgs[m].(nrefs := msgs[m].nrefs + 1)];
        portv := portv[r.idx := AddRecv(portv[r.idx], r.recv)];
      }
    }

    /** port_push_owned: a dead port, one without room, or a want of memory refuses, and leaves the message with the
        sender. */
    method Push(m: nat, x: nat, cost: nat, memory: bool) returns (r: Outcome)
      requires Valid(View()) && Owned(View(), m) && x in portv
      modifies `portv, `portgen, `rights, `flight, `kernel, `msgs
      ensures Valid(View()) && r == Answer(old(View()), x, cost, memory)
      ensures r == Dead <==> old(portv[x].dead)
      ensures r == Full <==> !old(portv[x].dead) && old(portv[x].qbytes) + cost > MAXQUEUE
      ensures r == Queued <==> !old(portv[x].dead) && old(portv[x].qbytes) + cost <= MAXQUEUE && memory
      ensures r == Queued ==> View() == Enqueue(old(View()), m, x, cost) && portv == old(portv)[x := portv[x]]
      ensures r == Queued ==>
        portv[x].queue == old(portv[x].queue) + [m] && portv[x].qbytes == old(portv[x].qbytes) + cost
      ensures r != Queued ==> View() == old(View())
      ensures Leads(At(old(View())), At(View()))
    {
      hide Valid, Leads, At;
      LeadsSelf(At(View()));
      if portv[x].dead {
        return Dead;
      }
      if portv[x].qbytes + cost > MAXQUEUE {
        return Full;
      }
      if !memory {
        return NoMemory;
      }
      EnqueueValid(View(), m, x, cost);
      LeadQueue(View(), m, x, cost);
      portv := portv[x := portv[x].(queue := portv[x].queue + [m], qbytes := portv[x].qbytes + cost)];
      msgs := msgs[m := msgs[m].(at := Some(x), cost := cost)];
      return Queued;
    }

    /** port_send_from_lua's tail: a refused message is released by the sender, whose tables end as they began. */
    method Send(m: nat, x: nat, cost: nat, memory: bool) returns (r: Outcome)
      requires Valid(View()) && Owned(View(), m) && x in portv
      modifies `portv, `portgen, `rights, `flight, `kernel, `msgs
      ensures Valid(View()) && r == Answer(old(View()), x, cost, memory) && rights == old(rights)
      ensures kernel == old(kernel)
      ensures r == Queued <==> !old(portv[x].dead) && old(portv[x].qbytes) + cost <= MAXQUEUE && memory
      ensures r == Queued ==> View() == Enqueue(old(View()), m, x, cost) && portv == old(portv)[x := portv[x]]
      ensures r == Queued ==>
        portv[x].queue == old(portv[x].queue) + [m] && portv[x].qbytes == old(portv[x].qbytes) + cost
      ensures r != Queued ==> Shrinks(WithoutMsg(old(View()), m), View()) && Kept(old(View()), View())
      ensures Leads(At(old(View())), At(View()))
    {
      hide Valid, Shrinks, Leads, At, Kept;
      r := Push(m, x, cost, memory);
      if r != Queued {
        MsgFree(m);
        ShrinksTables(WithoutMsg(old(View()), m), View());
      }
    }

    /** port_pop: the message becomes the caller's alone, references and all. */
    method Pop(x: nat) returns (r: Option<nat>)
      requires Valid(View()) && x in portv
      modifies `portv, `portgen, `rights, `flight, `kernel, `msgs
      ensures Valid(View())
      ensures r.None? <==> old(portv[x].queue) == []
      ensures r.None? ==> View() == old(View())
      ensures r.Some? ==>
        r.value == old(portv[x].queue)[0] && Owned(View(), r.value) && View() == Dequeue(old(View()), x)
      ensures r.Some? ==> portv[x].queue == old(portv[x].queue)[1..] && portv == old(portv)[x := portv[x]]
      ensures Leads(At(old(View())), At(View()))
    {
      hide Valid, Leads, At;
      LeadsSelf(At(View()));
      if portv[x].queue == [] {
        return None;
      }
      DequeueValid(View(), x);
      LeadUnqueue(View(), x);
      var m := portv[x].queue[0];
      r := Some(m);
      portv := portv[x := portv[x].(queue := portv[x].queue[1..], qbytes := portv[x].qbytes - msgs[m].cost)];
      msgs := msgs[m := msgs[m].(at := None)];
    }

    /** timer_arm: the timer table's own reference. */
    method TimerArm(slot: nat, x: nat)
      requires Valid(View()) && x in portv && slot !in kernel
      modifies `portv, `portgen, `rights, `flight, `kernel, `msgs
      ensures Valid(View()) && View() == AddKernel(old(View()), slot, Ref(x, old(portv[x].gen), false))
      ensures kernel == old(kernel)[slot := Ref(x, old(portv[x].gen), false)] && OnlyMore(old(View()), View())
      ensures Leads(At(old(View())), At(View()))
    {
      hide Valid, Leads, At, OnlyMore;
      KernelMore(View(), slot, Ref(x, portv[x].gen, false));
      LeadTakeTimer(View(), slot, Ref(x, portv[x].gen, false));
      AddKernelValid(View(), slot, Ref(x, portv[x].gen, false));
      kernel := kernel[slot := Ref(x, portv[x].gen, false)];
      portv := portv[x := AddRecv(portv[x], false)];
    }

    /** expire_timers and reap_dead_timers letting a port go. */
    method TimerDrop(slot: nat)
      requires Valid(View()) && slot in kernel
      modifies `portv, `portgen, `rights, `flight, `kernel, `msgs
      ensures Valid(View()) && kernel == old(kernel) - {slot} && rights == old(rights)
      ensures Shrinks(StrikeKernel(old(View()), slot), View())
      ensures Kept(old(View()), View()) && LetGoOf(View(), old(kernel[slot].idx))
      ensures Leads(At(old(View())), At(View()))
    {
      hide Valid, ValidBut, Shrinks, Refs, RecvRefs, Leads, At, Kept, Struck1;
      ghost var s0 := View();
      TimerNamed(View(), slot);
      LeadDropTimer(View(), slot);
      var x := kernel[slot].idx;
      StrikeKernelValid(View(), slot);
      kernel := kernel - {slot};
      PortUnref(x);
      LeadsTrans(At(old(View())), Machine(StrikeKernel(old(View()), slot), Some(x)), At(View()));
      ShrinksTables(StrikeKernel(old(View()), slot), View());
      StrikeKernel1(s0, slot);
      ShrinksRefs(StrikeKernel(s0, slot), View(), x);
      UnrefKept(s0, StrikeKernel(s0, slot), View(), x);
    }

    /** reap_dead_timers: the timers of every port that was dead at the start are let go; a timer let go was a dead
        port's, or its port is gone. */
    method ReapDead()
      requires Valid(View())
      modifies `portv, `portgen, `rights, `flight, `kernel, `msgs
      ensures Valid(View()) && Shrinks(old(View()).(kernel := kernel), View()) && Kept(old(View()), View())
      ensures SubMap(kernel, old(kernel)) && forall slot | slot in old(kernel) && slot >= MAXTIMERS :: slot in kernel
      ensures forall slot | slot in kernel && slot < MAXTIMERS ::
        kernel[slot].idx in old(portv) && !old(portv)[kernel[slot].idx].dead
      ensures forall slot | slot in old(kernel) && slot !in kernel ::
        old(kernel)[slot].idx !in portv || portv[old(kernel)[slot].idx].dead
      ensures Leads(At(old(View())), At(View()))
    {
      hide Valid, Shrinks, Leads, At, Kept, NoneRevived, LetGoOf;
      ghost var s0 := View();
      LeadsSelf(At(s0));
      ShrinksSelf(s0);
      KeptSelf(s0);
      assert s0.(kernel := kernel) == s0;
      for i := 0 to MAXTIMERS
        invariant Valid(View()) && Shrinks(s0.(kernel := kernel), View()) && Leads(At(s0), At(View()))
        invariant Kept(s0, View())
        invariant SubMap(kernel, s0.kernel) && forall slot | slot in s0.kernel && slot >= i :: slot in kernel
        invariant forall slot | slot in kernel && slot < i ::
          kernel[slot].idx in s0.portv && !s0.portv[kernel[slot].idx].dead
        invariant forall slot | slot in s0.kernel && slot !in kernel ::
          s0.kernel[slot].idx !in portv || portv[s0.kernel[slot].idx].dead
      {
        ghost var s1 := View();
        if i in kernel {
          TimerPort(s0, s1, i);
          if portv[kernel[i].idx].dead {
            TimerDrop(i);
            LeadsTrans(At(s0), At(s1), At(View()));
            ReapStep(s0, s1, View(), i);
            StrikeKernelRevives(s1, View(), i);
            KeptTrans(s0, s1, View());
            forall slot | slot in s0.kernel && slot !in kernel
              ensures s0.kernel[slot].idx !in portv || portv[s0.kernel[slot].idx].dead
            {
              StruckDead(s1, i, s0.kernel[slot].idx);
              DeadOrGone(StrikeKernel(s1, i), View(), s0.kernel[slot].idx);
            }
          }
        }
      }
    }

    /** The first timer slot not in use. */
    method FreeSlot() returns (slot: Option<nat>)
      ensures slot == None ==> forall i: nat | i < MAXTIMERS :: i in kernel
      ensures slot.Some? ==>
        slot.value < MAXTIMERS && slot.value !in kernel && forall i: nat | i < slot.value :: i in kernel
    {
      for i := 0 to MAXTIMERS
        invariant forall j: nat | j < i :: j in kernel
      {
        if i !in kernel {
          return Some(i);
        }
      }
      return None;
    }

    /** timer_arm: a slot, if need be after reaping, for a port its caller has a right to. */
    method TimerStart(p: nat, h: nat, at: nat) returns (slot: Option<nat>)
      requires Valid(View()) && (p, h) in rights
      modifies `portv, `portgen, `rights, `flight, `kernel, `msgs, `due
      ensures Valid(View()) && rights == old(rights) && Kept(old(View()), View())
      ensures slot == None ==> forall i: nat | i < MAXTIMERS ::
        i in kernel && i in old(kernel) && kernel[i].idx in old(portv) && !old(portv)[kernel[i].idx].dead
      ensures slot.Some? ==>
        && slot.value < MAXTIMERS && slot.value in kernel && SubMap(kernel - {slot.value}, old(kernel))
        && kernel[slot.value] == Ref(rights[(p, h)].idx, rights[(p, h)].gen, false)
      ensures due == if slot.Some? then old(due)[slot.value := at] else old(due)
      ensures Leads(At(old(View())), At(View()))
    {
      hide Valid, Shrinks, Leads, At, Kept, NoneRevived, OnlyMore;
      ghost var s0 := View();
      LeadsSelf(At(s0));
      KeptSelf(s0);
      slot := FreeSlot();
      if slot == None {
        ReapDead();
        ShrinksTables(s0.(kernel := kernel), View());
        slot := FreeSlot();
      }
      ghost var s1 := View();
      if slot.Some? {
        RightNamed(s1, (p, h));
        TimerArm(slot.value, rights[(p, h)].idx);
        due := due[slot.value := at];
        LeadsTrans(At(s0), At(s1), At(View()));
        MoreKept(s1, View());
        KeptTrans(s0, s1, View());
      }
    }

    /** One timer going off: a tick of one byte for its port, which a dead or full port or a want of memory refuses, and
        then the table's reference let go. */
    method Fire(slot: nat, m: nat, memory: bool) returns (r: Outcome, ghost mid: State)
      requires Valid(View()) && slot in kernel && m !in msgs
      modifies `portv, `portgen, `rights, `flight, `kernel, `msgs
      ensures Valid(View()) && rights == old(rights) && kernel == old(kernel) - {slot}
      ensures old(kernel[slot].idx in portv) && r == Answer(old(View()), old(kernel[slot].idx), 1, memory)
      ensures r == Queued ==> mid == Enqueue(WithMsg(old(View()), m), m, old(kernel[slot].idx), 1)
      ensures r != Queued ==> Shrinks(WithoutMsg(WithMsg(old(View()), m), m), mid)
      ensures slot in mid.kernel && mid.kernel[slot].idx in mid.portv && Shrinks(StrikeKernel(mid, slot), View())
      ensures Kept(old(View()), View()) && Kept(mid, View()) && LetGoOf(View(), old(kernel[slot].idx))
      ensures r == Queued && old(kernel[slot].idx) in portv && !portv[old(kernel[slot].idx)].dead ==>
        portv[old(kernel[slot].idx)].queue == old(portv[kernel[slot].idx].queue) + [m]
      ensures NoneRevived(old(View()), View()) && msgs.Keys <= old(msgs.Keys) + {m}
      ensures Leads(At(old(View())), At(View()))
    {
      hide Valid, Shrinks, Leads, At, NoneRevived, StrikeKernel, WithoutMsg, Kept, LetGoOf, OnlyMore;
      ghost var s0 := View();
      TimerNamed(s0, slot);
      MsgNew(m);
      ghost var s1 := View();
      r := Send(m, kernel[slot].idx, 1, memory);
      mid := View();
      LeadsTrans(At(s0), At(s1), At(mid));
      TimerNamed(mid, slot);
      TimerDrop(slot);
      LeadsTrans(At(s0), At(mid), At(View()));
      SamePortsKept(s0, s1);
      if r == Queued {
        FiredQueued(s0, mid, View(), m, slot);
        EnqueueMore(s1, m, s0.kernel[slot].idx, 1);
        MoreKept(s1, mid);
        TickStays(mid, View(), slot);
      } else {
        FiredRefused(s0, mid, View(), m, slot);
        WithoutRevives(s1, mid, m);
      }
      KeptTrans(s0, s1, mid);
      StrikeKernelRevives(mid, View(), slot);
      KeptTrans(s0, mid, View());
    }

    /** expire_timers: timers of dead ports are let go, then those that are due go off. None goes off early, and none
        that is due is left. Messages not yet made are numbered from base. */
    method ExpireTimers(now: nat, base: nat, memory: set<nat>)
      requires Valid(View()) && Below(msgs, base)
      modifies `portv, `portgen, `rights, `flight, `kernel, `msgs
      ensures Valid(View()) && rights == old(rights) && Expired(old(View()), View(), due, now, MAXTIMERS)
      ensures Kept(old(View()), View()) && Ticked(old(View()), View(), base, memory)
      ensures Leads(At(old(View())), At(View()))
    {
      hide Valid, Shrinks, Leads, At, NoneRevived, Expired, Below, Kept, LetGoOf, Ticked, Answer;
      ghost var s0 := View();
      ReapDead();
      ShrinksTables(s0.(kernel := kernel), View());
      ExpiredNone(s0, View(), due, now, base);
      TickedNone(s0, View(), base, memory);
      for i := 0 to MAXTIMERS
        invariant Valid(View()) && rights == s0.rights && Leads(At(s0), At(View())) && Kept(s0, View())
        invariant Below(msgs, base + i) && Expired(s0, View(), due, now, i)
        invariant Ticked(s0, View(), base, memory)
      {
        ghost var s1 := View();
        if i in kernel && Due(i) <= now {
          NewBelow(msgs, base + i);
          var r, mid := Fire(i, base + i, i in memory);
          LeadsTrans(At(s0), At(s1), At(View()));
          KeptTrans(s0, s1, View());
          TimerSame(s0, s1, due, now, i);
          TickedFire(s0, s1, View(), base, memory, i, r);
        }
        ExpiredStep(s0, s1, View(), due, now, base, i);
      }
    }

    /** deserialize's R tags: mint the receiver a right for each of the message's first `upto` references, in
        order, recording each handle. Stops where no handle is to be had. A missing port cannot happen. */
    method Mint(p: nat, m: nat, upto: nat, memory: bool) returns (hs: seq<nat>, ok: bool)
      requires Valid(View()) && Owned(View(), m) && upto <= msgs[m].nrefs
      modifies this
      ensures Valid(View()) && Owned(View(), m) && Minted(old(View()), View(), p, m, hs)
      ensures ok <==> |hs| == upto
      ensures !ok ==> |hs| < upto && Spent(old(rights), old(grown), p, old(Hint(p)), memory, hs)
      ensures Grew(old(grown), grown, p, memory) && OnlyMore(old(View()), View())
      ensures old(HintsOk(rights, rhint)) ==> HintsOk(rights, rhint)
      ensures Leads(At(old(View())), At(View()))
    {
      hide ValidBut, Whole, Minted, Leads, At, HintsOk, OnlyMore;
      ghost var s0 := View();
      LeadsSelf(At(s0));
      OnlyMoreSelf(s0);
      MintNone(s0, p, m);
      hs, ok := [], true;
      while |hs| < upto
        invariant |hs| <= upto && Valid(View()) && Owned(View(), m) && Minted(s0, View(), p, m, hs)
        invariant flight == s0.flight && msgs == s0.msgs && Leads(At(s0), At(View()))
        invariant Grew(old(grown), grown, p, memory) && old(Hint(p)) <= Hint(p) && OnlyMore(s0, View())
        invariant forall i | old(Hint(p)) <= i < Hint(p) :: (p, i) in s0.rights || i in hs
        invariant old(HintsOk(rights, rhint)) ==> HintsOk(rights, rhint)
        decreases upto - |hs|
      {
        ghost var s1, from := View(), Hint(p);
        OwnedAt(s1, m, |hs|);
        var r := flight[(m, |hs|)];
        FlightMayTake(s1, (m, |hs|), 0, 0);
        if r.idx !in portv {
          assert false;
        }
        var h := RightNew(p, r, memory);
        LeadsTrans(At(s0), At(s1), At(View()));
        forall i | from <= i < (if h.None? then MAXRIGHTS else h.value) && (p, i) in s1.rights
          ensures (p, i) in s0.rights || i in hs
        {
          MintedCovers(s0, s1, p, m, hs, i);
        }
        if h.None? {
          return hs, false;
        }
        OwnedSame(s1, View(), m);
        MintNext(s0, s1, p, m, hs, h.value);
        OnlyMoreTrans(s0, s1, View());
        hs := hs + [h.value];
      }
    }

    /** One turn of minted_undo: the handle goes if it is in use, and the hint drops to it. */
    method UndoOne(p: nat, h: nat, ghost m: nat)
      requires Valid(View()) && Owned(View(), m)
      modifies this
      ensures Valid(View()) && Owned(View(), m) && rights == old(rights) - {(p, h)} && kernel == old(kernel)
      ensures Shrinks(old(View()).(rights := rights), View()) && grown == old(grown) && Kept(old(View()), View())
      ensures old(HintsOk(rights, rhint)) ==> HintsOk(rights, rhint)
      ensures Leads(At(old(View())), At(View()))
    {
      hide Valid, Whole, Shrinks, Leads, At, HintsOk, Kept, LetGoOf;
      ghost var s0 := View();
      LeadsSelf(At(s0));
      ShrinksSelf(s0);
      KeptSelf(s0);
      if (p, h) in rights {
        RightDrop(p, h);
        UndoStep(s0, View(), (p, h));
        OwnedSame(s0, StrikeRight(s0, (p, h)), m);
        ShrinksOwned(StrikeRight(s0, (p, h)), View(), m);
        ShrinksTables(StrikeRight(s0, (p, h)), View());
      }
      assert rights == s0.rights - {(p, h)};
      LoweredOk(s0.rights, rhint, p, h);
      if h < Hint(p) {
        rhint := rhint[p := h];
      }
    }

    /** minted_undo: give back every handle recorded. */
    method MintedUndo(p: nat, hs: seq<nat>, ghost m: nat)
      requires Valid(View()) && Owned(View(), m)
      modifies this
      ensures Valid(View()) && Owned(View(), m) && rights == old(rights) - Handles(p, hs) && kernel == old(kernel)
      ensures Shrinks(old(View()).(rights := rights), View()) && grown == old(grown) && Kept(old(View()), View())
      ensures old(HintsOk(rights, rhint)) ==> HintsOk(rights, rhint)
      ensures Leads(At(old(View())), At(View()))
    {
      hide Valid, Owned, Shrinks, Leads, At, HintsOk, Kept, NoneRevived;
      ghost var s0 := View();
      LeadsSelf(At(s0));
      ShrinksSelf(s0);
      KeptSelf(s0);
      assert s0.(rights := rights) == s0 && rights == rights - Handles(p, hs[..0]);
      for j := 0 to |hs|
        invariant Valid(View()) && Owned(View(), m) && rights == old(rights) - Handles(p, hs[..j])
        invariant kernel == old(kernel) && grown == old(grown)
        invariant Shrinks(s0.(rights := rights), View()) && Leads(At(s0), At(View())) && Kept(s0, View())
        invariant old(HintsOk(rights, rhint)) ==> HintsOk(rights, rhint)
      {
        assert Handles(p, hs[..j + 1]) == Handles(p, hs[..j]) + {(p, hs[j])};
        ghost var s1 := View();
        UndoOne(p, hs[j], m);
        LeadsTrans(At(s0), At(s1), At(View()));
        UndoTrans(s0, s1, View());
        ShrinksRevives(s1.(rights := rights), View());
        RightsRevive(s1, View());
        KeptTrans(s0, s1, View());
      }
      assert hs[..|hs|] == hs;
    }

    /** The walk of a popped message: it meets `upto` right tags and then ends, badly or not. What was minted stays or
        is given back. */
    method Walk(p: nat, m: nat, upto: nat, bad: bool, memory: bool) returns (hs: seq<nat>, ok: bool)
      requires Valid(View()) && Owned(View(), m) && upto <= msgs[m].nrefs
      modifies this
      ensures Valid(View()) && Owned(View(), m) && kernel == old(kernel)
      ensures ok ==> !bad && Installed(old(View()), rights, p, m, hs) && |hs| == upto
      ensures !ok ==> rights == old(rights)
      ensures !ok && !bad ==> |hs| < upto && Spent(old(rights), old(grown), p, old(Hint(p)), memory, hs)
      ensures Grew(old(grown), grown, p, memory)
      ensures old(HintsOk(rights, rhint)) ==> HintsOk(rights, rhint)
      ensures Shrinks(old(View()).(rights := rights), View()) && Kept(old(View()), View())
      ensures Leads(At(old(View())), At(View()))
    {
      hide Valid, Whole, Shrinks, Leads, At, Minted, HintsOk, Spent, Grew, Kept, NoneRevived, OnlyMore;
      ghost var s0 := View();
      hs, ok := Mint(p, m, upto, memory);
      ghost var t := View();
      MintedUndone(s0, t, p, m, hs);
      MintedShrinks(s0, t, p, m, hs);
      MoreKept(s0, t);
      if !ok || bad {
        MintedUndo(p, hs, m);
        LeadsTrans(At(s0), At(t), At(View()));
        UndoTrans(s0, t, View());
        ShrinksRevives(t.(rights := rights), View());
        RightsRevive(t, View());
        KeptTrans(s0, t, View());
        ok := false;
      }
    }

    /** msg_to_lua on a popped message: it arrives whole or not at all, and is disposed of either way. */
    method Receive(p: nat, m: nat, upto: nat, bad: bool, memory: bool) returns (hs: seq<nat>, ok: bool)
      requires Valid(View()) && Owned(View(), m) && upto <= msgs[m].nrefs && (!bad ==> upto == msgs[m].nrefs)
      modifies this
      ensures Valid(View()) && m !in msgs && kernel == old(kernel)
      ensures ok ==> Installed(old(View()), rights, p, m, hs) && |hs| == old(msgs[m].nrefs)
      ensures !ok ==> rights == old(rights)
      ensures !ok && !bad ==>
        |hs| < old(msgs[m].nrefs) && Spent(old(rights), old(grown), p, old(Hint(p)), memory, hs)
      ensures Grew(old(grown), grown, p, memory)
      ensures old(HintsOk(rights, rhint)) ==> HintsOk(rights, rhint)
      ensures Shrinks(WithoutMsg(old(View()), m).(rights := rights), View()) && Kept(old(View()), View())
      ensures Leads(At(old(View())), At(View()))
    {
      hide Valid, Whole, Shrinks, Leads, At, Installed, HintsOk, Spent, Grew, Kept, NoneRevived;
      ghost var s0 := View();
      hs, ok := Walk(p, m, upto, bad, memory);
      ghost var s1 := View();
      MsgFree(m);
      FreeShrinks(s0, s1, View(), m);
      LeadsTrans(At(s0), At(s1), At(View()));
      ShrinksTables(WithoutMsg(s1, m), View());
      FreedIsGone(s1, View(), m);
      WithoutRevives(s1, View(), m);
      KeptTrans(s0, s1, View());
    }
  }
}
