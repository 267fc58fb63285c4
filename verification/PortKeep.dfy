/** What letting references go leaves alone.

    A port that was held and is still there is still held; it lives and has the messages it had, unless its last receive
    right went and it died of that. */
module PortKeep {
  import opened Options
  import opened PortRefs

  ghost predicate HeldStill(s: State, t: State, i: nat)
    requires i in s.portv && i in t.portv
  {
    && Refs(t, i) > 0
    && (t.portv[i].dead || (s.portv[i].queue <= t.portv[i].queue && s.portv[i].qbytes <= t.portv[i].qbytes))
    && (RecvRefs(s, i) > 0 && RecvRefs(t, i) == 0 ==> t.portv[i].dead)
  }

  ghost predicate Kept(s: State, t: State)
  {
    forall i | i in s.portv && i in t.portv && Refs(s, i) > 0 :: HeldStill(s, t, i)
  }

  /** No port has come, and none has come back to life. */
  ghost predicate NoneRevived(s: State, t: State)
  {
    forall x | x in t.portv :: x in s.portv && (s.portv[x].dead ==> t.portv[x].dead)
  }

  lemma ShrinksRevives(s: State, t: State)
    requires Shrinks(s, t)
    ensures NoneRevived(s, t)
  {}

  lemma KeptTrans(s: State, t: State, u: State)
    requires Kept(s, t) && Kept(t, u) && NoneRevived(t, u)
    ensures Kept(s, u)
  {
    hide Refs, RecvRefs;
    forall i | i in s.portv && i in u.portv && Refs(s, i) > 0
      ensures HeldStill(s, u, i)
    {
      assert HeldStill(s, t, i) && HeldStill(t, u, i);
    }
  }

  /** References may come, and messages be queued; ports stay as they are otherwise. */
  ghost predicate OnlyMore(s: State, t: State)
  {
    && s.portv.Keys == t.portv.Keys
    && forall i | i in s.portv ::
         && Refs(s, i) <= Refs(t, i) && RecvRefs(s, i) <= RecvRefs(t, i)
         && s.portv[i].dead == t.portv[i].dead && s.portv[i].queue <= t.portv[i].queue
         && s.portv[i].qbytes <= t.portv[i].qbytes
  }

  lemma MoreKept(s: State, t: State)
    requires OnlyMore(s, t)
    ensures Kept(s, t) && NoneRevived(s, t)
  {}

  lemma KeptSelf(s: State)
    ensures Kept(s, s) && NoneRevived(s, s)
  {}

  lemma SamePortsKept(s: State, t: State)
    requires t.portv == s.portv && t.rights == s.rights && t.flight == s.flight && t.kernel == s.kernel
    ensures Kept(s, t) && NoneRevived(s, t)
  {
    assert forall i :: Refs(t, i) == Refs(s, i) && RecvRefs(t, i) == RecvRefs(s, i);
  }

  /* ---- the steps of letting go ---- */

  /** One reference to x has left the tables; nothing else is any different. */
  ghost predicate Struck1(s: State, t: State, x: nat)
  {
    && t.portv.Keys == s.portv.Keys && x in s.portv
    && (forall i | i in s.portv :: t.portv[i].queue == s.portv[i].queue && t.portv[i].dead == s.portv[i].dead
                                   && t.portv[i].qbytes == s.portv[i].qbytes)
    && forall i | i in s.portv && i != x :: Refs(t, i) == Refs(s, i) && RecvRefs(t, i) == RecvRefs(s, i)
  }

  lemma StrikeFlight1(s: State, k: (nat, nat))
    requires k in s.flight && s.flight[k].idx in s.portv
    ensures Struck1(s, StrikeFlight(s, k), s.flight[k].idx)
  {
    hide Count, CountRecv;
    var t := StrikeFlight(s, k);
    forall i | i in s.portv && i != s.flight[k].idx
      ensures Refs(t, i) == Refs(s, i) && RecvRefs(t, i) == RecvRefs(s, i)
    {
      CountRemove(s.flight, k, i);
    }
  }

  lemma StrikeRight1(s: State, k: (nat, nat))
    requires k in s.rights && s.rights[k].idx in s.portv
    ensures Struck1(s, StrikeRight(s, k), s.rights[k].idx)
  {
    hide Count, CountRecv;
    var t := StrikeRight(s, k);
    forall i | i in s.portv && i != s.rights[k].idx
      ensures Refs(t, i) == Refs(s, i) && RecvRefs(t, i) == RecvRefs(s, i)
    {
      CountRemove(s.rights, k, i);
    }
  }

  lemma StrikeKernel1(s: State, k: nat)
    requires k in s.kernel && s.kernel[k].idx in s.portv
    ensures Struck1(s, StrikeKernel(s, k), s.kernel[k].idx)
  {
    hide Count, CountRecv;
    var t := StrikeKernel(s, k);
    forall i | i in s.portv && i != s.kernel[k].idx
      ensures Refs(t, i) == Refs(s, i) && RecvRefs(t, i) == RecvRefs(s, i)
    {
      CountRemove(s.kernel, k, i);
    }
  }

  /** What letting the reference go comes to for x itself: it is there exactly while something holds it, and dead once
      nothing may receive from it. */
  ghost predicate LetGoOf(t: State, x: nat)
  {
    && (x in t.portv <==> Refs(t, x) > 0)
    && (x in t.portv && RecvRefs(t, x) == 0 ==> t.portv[x].dead)
  }

  /** Striking a reference to x, and then whatever that leads to. */
  lemma UnrefKept(s: State, t: State, u: State, x: nat)
    requires Struck1(s, t, x) && Kept(t, u) && LetGoOf(u, x) && (Refs(t, x) == 0 ==> x !in u.portv)
    ensures Kept(s, u)
  {
    hide Refs, RecvRefs;
    forall i | i in s.portv && i in u.portv && Refs(s, i) > 0
      ensures HeldStill(s, u, i)
    {
      if Refs(t, i) > 0 {
        assert HeldStill(t, u, i);
      }
    }
  }

  lemma CountDownKept(s: State, x: nat)
    requires x in s.portv
    ensures var t := WithPort(s, x, s.portv[x].(nrights := s.portv[x].nrights - 1));
      Kept(s, t) && (forall i :: Refs(t, i) == Refs(s, i) && RecvRefs(t, i) == RecvRefs(s, i))
  {
    hide Count, CountRecv;
  }

  /** A queue is emptied only of a port that dies, or that nothing holds any more. */
  lemma TakeQueueKept(s: State, x: nat, dead: bool)
    requires x in s.portv && (s.portv[x].dead ==> dead) && (dead || Refs(s, x) == 0)
    ensures Kept(s, TakeQueue(s, x, dead)) && NoneRevived(s, TakeQueue(s, x, dead))
  {
    hide Count, CountRecv;
    var t := TakeQueue(s, x, dead);
    assert forall i :: Refs(t, i) == Refs(s, i) && RecvRefs(t, i) == RecvRefs(s, i);
  }

  lemma RemoveKept(s: State, x: nat)
    ensures Kept(s, s.(portv := s.portv - {x})) && NoneRevived(s, s.(portv := s.portv - {x}))
    ensures forall i :: Refs(s.(portv := s.portv - {x}), i) == Refs(s, i)
  {
    hide Count, CountRecv;
    var t := s.(portv := s.portv - {x});
    assert forall i :: Refs(t, i) == Refs(s, i) && RecvRefs(t, i) == RecvRefs(s, i);
  }

  /* ---- taking references and queueing ---- */

  lemma RightMore(s: State, k: (nat, nat), r: Ref)
    requires k !in s.rights && r.idx in s.portv
    ensures OnlyMore(s, AddRight(s, k, r))
  {
    hide Count, CountRecv;
    forall i | i in s.portv
      ensures Refs(s, i) <= Refs(AddRight(s, k, r), i) && RecvRefs(s, i) <= RecvRefs(AddRight(s, k, r), i)
    {
      CountAdd(s.rights, k, r, i);
    }
  }

  lemma KernelMore(s: State, k: nat, r: Ref)
    requires k !in s.kernel && r.idx in s.portv
    ensures OnlyMore(s, AddKernel(s, k, r))
  {
    hide Count, CountRecv;
    forall i | i in s.portv
      ensures Refs(s, i) <= Refs(AddKernel(s, k, r), i) && RecvRefs(s, i) <= RecvRefs(AddKernel(s, k, r), i)
    {
      CountAdd(s.kernel, k, r, i);
    }
  }

  lemma FlightMore(s: State, m: nat, r: Ref)
    requires m in s.msgs && (m, s.msgs[m].nrefs) !in s.flight && r.idx in s.portv
    ensures OnlyMore(s, AddFlight(s, m, r))
  {
    hide Count, CountRecv;
    forall i | i in s.portv
      ensures Refs(s, i) <= Refs(AddFlight(s, m, r), i) && RecvRefs(s, i) <= RecvRefs(AddFlight(s, m, r), i)
    {
      CountAdd(s.flight, (m, s.msgs[m].nrefs), r, i);
    }
  }

  lemma EnqueueMore(s: State, m: nat, x: nat, cost: nat)
    requires x in s.portv && m in s.msgs
    ensures OnlyMore(s, Enqueue(s, m, x, cost))
  {
    hide Count, CountRecv;
    var t := Enqueue(s, m, x, cost);
    assert forall i :: Refs(t, i) == Refs(s, i) && RecvRefs(t, i) == RecvRefs(s, i);
  }

  lemma OnlyMoreTrans(s: State, t: State, u: State)
    requires OnlyMore(s, t) && OnlyMore(t, u)
    ensures OnlyMore(s, u)
  {
    hide Refs, RecvRefs;
  }
}
