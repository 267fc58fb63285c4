/** The order of a port's messages, and how one leaves its queue, over every history. */
module PortOrder {
  import opened Options
  import opened PortRefs
  import opened PortRuns

  ghost function QueueAt(a: Machine, x: nat): seq<nat>
  {
    if x in a.s.portv then a.s.portv[x].queue else []
  }

  ghost function Head(q: seq<nat>): seq<nat>
  {
    if q == [] then [] else [q[0]]
  }

  ghost predicate Flushes(e: Mutation, x: nat)
  {
    e.Flush? && e.x == x
  }

  /** The messages queued on slot x by the updates from i up to j, first to last. */
  ghost function Pushed(es: seq<Mutation>, x: nat, i: nat, j: nat): seq<nat>
    requires i <= j <= |es|
  {
    if i == j then []
    else Pushed(es, x, i, j - 1) + if es[j - 1].Queue? && es[j - 1].x == x then [es[j - 1].m] else []
  }

  /** The messages taken off its head meanwhile. */
  ghost function Popped(ms: seq<Machine>, es: seq<Mutation>, x: nat, i: nat, j: nat): seq<nat>
    requires i <= j <= |es| < |ms|
  {
    if i == j then []
    else Popped(ms, es, x, i, j - 1) + if es[j - 1] == Unqueue(x) then Head(QueueAt(ms[j - 1], x)) else []
  }

  lemma StepOrder(a: Machine, e: Mutation, x: nat)
    requires May(a, e) && !Flushes(e, x)
    ensures e.Queue? && e.x == x ==> QueueAt(Make(a, e), x) == QueueAt(a, x) + [e.m]
    ensures e == Unqueue(x) ==> QueueAt(a, x) != [] && QueueAt(a, x) == Head(QueueAt(a, x)) + QueueAt(Make(a, e), x)
    ensures !(e.Queue? && e.x == x) && e != Unqueue(x) ==> QueueAt(Make(a, e), x) == QueueAt(a, x)
  {
    hide Owned;
  }

  /** Until a slot's queue is flushed, what was on it and what was queued since is what was taken off and what is left,
      in that order. */
  lemma {:induction false} InOrder(ms: seq<Machine>, es: seq<Mutation>, x: nat, i: nat, j: nat)
    requires Run(ms, es) && i <= j < |ms| && forall n | i <= n < j :: !Flushes(es[n], x)
    ensures QueueAt(ms[i], x) + Pushed(es, x, i, j) == Popped(ms, es, x, i, j) + QueueAt(ms[j], x)
    decreases j - i
  {
    hide May, Make, QueueAt;
    if i < j {
      InOrder(ms, es, x, i, j - 1);
      StepOrder(ms[j - 1], es[j - 1], x);
      Shifted(QueueAt(ms[i], x), Pushed(es, x, i, j - 1), Popped(ms, es, x, i, j - 1), QueueAt(ms[j - 1], x),
              Pushed(es, x, i, j), Popped(ms, es, x, i, j), QueueAt(ms[j], x));
    }
  }

  lemma Shifted(q: seq<nat>, a: seq<nat>, b: seq<nat>, r: seq<nat>, a': seq<nat>, b': seq<nat>, r': seq<nat>)
    requires q + a == b + r
    requires || (exists m :: a' == a + [m] && b' == b && r' == r + [m])
             || (a' == a + [] && b' == b + Head(r) && r == Head(r) + r')
             || (a' == a + [] && b' == b + [] && r' == r)
    ensures q + a' == b' + r'
  {
    if m :| a' == a + [m] && b' == b && r' == r + [m] {
      assert q + a' == (q + a) + [m];
    } else {
      assert a + [] == a && b + [] == b;
      assert b + Head(r) + r' == b + (Head(r) + r');
    }
  }

  /** A port that lives, and is held throughout, is never flushed: its messages come off in the order they were
      queued. */
  lemma LiveInOrder(ms: seq<Machine>, es: seq<Mutation>, x: nat, i: nat, j: nat)
    requires Run(ms, es) && Sound(ms[0]) && i <= j < |ms| && x in ms[i].s.portv && x in ms[j].s.portv
    requires ms[i].s.portv[x].gen == ms[j].s.portv[x].gen && !ms[j].s.portv[x].dead
    requires forall n | i <= n < j && x in ms[n].s.portv :: ms[n].s.portv[x].nrights > 0
    ensures ms[i].s.portv[x].queue + Pushed(es, x, i, j) == Popped(ms, es, x, i, j) + ms[j].s.portv[x].queue
  {
    hide Sound;
    forall n | i <= n < j
      ensures !Flushes(es[n], x)
    {
      if Flushes(es[n], x) {
        FlushKills(ms, es, x, i, n, j);
      }
    }
    InOrder(ms, es, x, i, j);
  }

  lemma FlushKills(ms: seq<Machine>, es: seq<Mutation>, x: nat, i: nat, n: nat, j: nat)
    requires Run(ms, es) && Sound(ms[0]) && i <= n < j < |ms| && x in ms[i].s.portv && x in ms[j].s.portv
    requires ms[i].s.portv[x].gen == ms[j].s.portv[x].gen && Flushes(es[n], x)
    ensures x in ms[n].s.portv && (ms[j].s.portv[x].dead || ms[n].s.portv[x].nrights == 0)
  {
    hide Sound;
    assert May(ms[n], es[n]) && ms[n + 1] == Make(ms[n], es[n]);
    hide May, Make;
    RunSound(ms, es, i);
    SoundSlots(ms[i]);
    RunAges(ms, es, i, n + 1);
    RunAges(ms, es, n + 1, j);
  }

  /** A message leaves its queue by being taken off the head, by its port dying for want of a receive right, or by the
      last reference to the port going; and no other way. */
  lemma {:induction false} LeavesOnly(ms: seq<Machine>, es: seq<Mutation>, x: nat, i: nat, j: nat, m: nat)
    returns (n: nat)
    requires Run(ms, es) && i <= j < |ms| && m in QueueAt(ms[i], x) && m !in QueueAt(ms[j], x)
    ensures i <= n < j && x in ms[n].s.portv && m in ms[n].s.portv[x].queue
    ensures || (es[n] == Unqueue(x) && ms[n].s.portv[x].queue[0] == m)
            || (es[n] == Flush(x, true) && ms[n].s.portv[x].nrecv == 0)
            || (es[n] == Flush(x, false) && ms[n].s.portv[x].nrights == 0)
    decreases j - i
  {
    hide May, Make, QueueAt;
    if m !in QueueAt(ms[j - 1], x) {
      n := LeavesOnly(ms, es, x, i, j - 1, m);
    } else {
      n := j - 1;
      StepLeaves(ms[n], es[n], x, m);
    }
  }

  lemma StepLeaves(a: Machine, e: Mutation, x: nat, m: nat)
    requires May(a, e) && m in QueueAt(a, x) && m !in QueueAt(Make(a, e), x)
    ensures x in a.s.portv && m in a.s.portv[x].queue
    ensures || (e == Unqueue(x) && a.s.portv[x].queue[0] == m)
            || (e == Flush(x, true) && a.s.portv[x].nrecv == 0)
            || (e == Flush(x, false) && a.s.portv[x].nrights == 0)
  {
    hide Make;
    if !Flushes(e, x) {
      StepOrder(a, e, x);
    }
  }
}
