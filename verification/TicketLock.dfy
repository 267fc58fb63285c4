/** The ticket lock on 32-bit counters, for any number of cpus and any interleaving of its atomic operations. */
module TicketLock {
  const W: nat := 0x1_0000_0000

  /** Where a cpu is in lock, unlock or canlock. Tickets are counted without wrapping; the lock's words are their
      remainders, and every test below reads the words alone. */
  datatype Phase =
    | Out
    | Waiting(t: nat)     // has taken ticket t and spins on owner
    | Holding(t: nat)     // is being served
    | Trying(t: nat)      // canlock has read owner when it was t

  /** next and owner before wrapping, the cpus, and which cpu has each outstanding ticket. */
  datatype State = State(next: nat, owner: nat, cpus: map<nat, Phase>, who: map<nat, nat>)

  function NextWord(s: State): nat { s.next % W }
  function OwnerWord(s: State): nat { s.owner % W }

  datatype Action = Arrive(c: nat) | Enter(c: nat) | Leave(c: nat) | TryLoad(c: nat) | TryCas(c: nat)

  predicate Queued(p: Phase)
  {
    p.Waiting? || p.Holding?
  }

  /** Outstanding tickets are owner up to next, one cpu each, and only the one being served is held. The words are
      told apart by there being fewer than 2^32 cpus. */
  ghost predicate Inv(s: State)
  {
    && s.owner <= s.next && |s.cpus.Keys| < W
    && (forall t: nat | s.owner <= t < s.next ::
          t in s.who && s.who[t] in s.cpus && Queued(s.cpus[s.who[t]]) && s.cpus[s.who[t]].t == t)
    && (forall c: nat | c in s.cpus && Queued(s.cpus[c]) ::
          s.owner <= s.cpus[c].t < s.next && s.cpus[c].t in s.who && s.who[s.cpus[c].t] == c)
    && (forall c: nat | c in s.cpus && s.cpus[c].Holding? :: s.cpus[c].t == s.owner)
    && (forall c: nat | c in s.cpus && s.cpus[c].Trying? :: s.cpus[c].t <= s.owner)
  }

  ghost predicate Init(s: State)
  {
    && s.next == 0 && s.owner == 0 && s.who == map[] && |s.cpus.Keys| < W
    && forall c | c in s.cpus :: s.cpus[c] == Out
  }

  function Set(s: State, c: nat, p: Phase): State
  {
    s.(cpus := s.cpus[c := p])
  }

  /** One atomic operation. Fewer than 2^32 tickets are given out between a canlock's load and its exchange. */
  ghost predicate Step(s: State, a: Action, s': State)
  {
    a.c in s.cpus &&
    match a
    case Arrive(c) =>
      s.cpus[c] == Out
      && s' == Set(s, c, Waiting(s.next)).(next := s.next + 1, who := s.who[s.next := c])
    case Enter(c) =>
      s.cpus[c].Waiting? && OwnerWord(s) == s.cpus[c].t % W
      && s' == Set(s, c, Holding(s.cpus[c].t))
    case Leave(c) =>
      s.cpus[c].Holding?
      && s' == Set(s, c, Out).(owner := s.owner + 1)
    case TryLoad(c) =>
      s.cpus[c] == Out
      && s' == Set(s, c, Trying(s.owner))
    case TryCas(c) =>
      s.cpus[c].Trying? && s.next < s.cpus[c].t + W
      && s' == Cas(s, c)
  }

  /** canlock's exchange: take the next ticket if its word is the one owner had. */
  function Cas(s: State, c: nat): State
    requires c in s.cpus && s.cpus[c].Trying?
  {
    if NextWord(s) == s.cpus[c].t % W then Set(s, c, Holding(s.next)).(next := s.next + 1, who := s.who[s.next := c])
    else Set(s, c, Out)
  }

  /** Words this close that agree are equal. */
  lemma SameWord(x: nat, y: nat)
    requires x <= y < x + W && x % W == y % W
    ensures x == y
  {}

  /** The cpus that have the tickets below n. */
  ghost function Holders(s: State, n: nat): set<nat>
    requires Inv(s) && n <= s.next
  {
    set t | s.owner <= t < n :: s.who[t]
  }

  lemma {:induction false} HoldersDiffer(s: State, n: nat)
    requires Inv(s) && s.owner <= n <= s.next
    ensures |Holders(s, n)| == n - s.owner
  {
    if n == s.owner {
      assert Holders(s, n) == {};
    } else {
      HoldersDiffer(s, n - 1);
      assert Holders(s, n) == Holders(s, n - 1) + {s.who[n - 1]};
    }
  }

  /** Fewer than 2^32 tickets are ever outstanding, and no more than there are cpus besides one that has none. */
  lemma Outstanding(s: State, c: nat)
    requires Inv(s)
    ensures s.next < s.owner + W
    ensures c in s.cpus && !Queued(s.cpus[c]) ==> s.next + 1 < s.owner + W
  {
    HoldersDiffer(s, s.next);
    HoldersQueued(s);
    var held := Holders(s, s.next);
    Fewer(held, s.cpus.Keys, c);
  }

  lemma HoldersQueued(s: State)
    requires Inv(s)
    ensures forall c | c in Holders(s, s.next) :: c in s.cpus && Queued(s.cpus[c])
  {}

  lemma Fewer(a: set<nat>, b: set<nat>, c: nat)
    requires a <= b
    ensures |a| <= |b| && (c in b && c !in a ==> |a| < |b|)
  {
    assert b == a + (b - a);
  }

  lemma ArriveInv(s: State, c: nat, s': State)
    requires Inv(s) && Step(s, Arrive(c), s')
    ensures Inv(s')
  {}

  lemma EnterInv(s: State, c: nat, s': State)
    requires Inv(s) && Step(s, Enter(c), s')
    ensures Inv(s') && s.cpus[c].t == s.owner
  {
    Outstanding(s, c);
    SameWord(s.owner, s.cpus[c].t);
  }

  lemma LeaveInv(s: State, c: nat, s': State)
    requires Inv(s) && Step(s, Leave(c), s')
    ensures Inv(s')
  {}

  /** canlock succeeds only when nobody holds the lock or waits for it, so it overtakes nobody. */
  lemma CasExact(s: State, c: nat)
    requires Inv(s) && c in s.cpus && s.cpus[c].Trying? && s.next < s.cpus[c].t + W
    ensures NextWord(s) == s.cpus[c].t % W <==> s.next == s.cpus[c].t
    ensures NextWord(s) == s.cpus[c].t % W ==> s.owner == s.next && forall d: nat | d in s.cpus :: !Queued(s.cpus[d])
  {
    if NextWord(s) == s.cpus[c].t % W {
      SameWord(s.cpus[c].t, s.next);
    }
  }

  lemma CasInv(s: State, c: nat, s': State)
    requires Inv(s) && Step(s, TryCas(c), s')
    ensures Inv(s')
  {
    CasExact(s, c);
    CasKeeps(s, c);
  }

  lemma LoadInv(s: State, c: nat, s': State)
    requires Inv(s) && Step(s, TryLoad(c), s')
    ensures Inv(s')
  {}

  lemma StepInv(s: State, a: Action, s': State)
    requires Inv(s) && Step(s, a, s')
    ensures Inv(s')
  {
    match a {
      case Arrive(c) => ArriveInv(s, c, s');
      case Enter(c) => EnterInv(s, c, s');
      case Leave(c) => LeaveInv(s, c, s');
      case TryLoad(c) => LoadInv(s, c, s');
      case TryCas(c) => CasInv(s, c, s');
    }
  }

  ghost predicate Runs(s: State, run: seq<Action>, t: State)
    decreases |run|
  {
    if run == [] then t == s else exists u :: Step(s, run[0], u) && Runs(u, run[1..], t)
  }

  lemma {:induction false} RunInv(s: State, run: seq<Action>, t: State)
    requires Inv(s) && Runs(s, run, t)
    ensures Inv(t)
    decreases |run|
  {
    if run != [] {
      var u :| Step(s, run[0], u) && Runs(u, run[1..], t);
      StepInv(s, run[0], u);
      RunInv(u, run[1..], t);
    }
  }

  lemma InitInv(s: State)
    requires Init(s)
    ensures Inv(s)
  {}

  /** Mutual exclusion, over every run. */
  lemma Exclusion(s: State, run: seq<Action>, t: State, c: nat, d: nat)
    requires Init(s) && Runs(s, run, t) && c in t.cpus && d in t.cpus && t.cpus[c].Holding? && t.cpus[d].Holding?
    ensures c == d
  {
    InitInv(s);
    RunInv(s, run, t);
  }

  /** Service is in arrival order: whoever is served arrived before everybody waiting, and the next to be served is
      always there -- holding the lock, or free to enter it. */
  lemma ArrivalOrder(s: State, run: seq<Action>, t: State, c: nat, d: nat)
    requires Init(s) && Runs(s, run, t) && c in t.cpus && d in t.cpus && t.cpus[d].Waiting?
    ensures t.cpus[c].Holding? ==> t.cpus[c].t < t.cpus[d].t
    ensures exists e ::
      && e in t.cpus && (t.cpus[e].Holding? || (t.cpus[e].Waiting? && OwnerWord(t) == t.cpus[e].t % W))
      && t.cpus[e].t <= t.cpus[d].t
  {
    InitInv(s);
    RunInv(s, run, t);
    var u := t.cpus[d].t;
    var e := t.who[t.owner];
  }

  lemma {:induction false} RunsOn(s: State, run: seq<Action>, t: State, a: Action, u: State)
    requires Runs(s, run, t) && Step(t, a, u)
    ensures Runs(s, run + [a], u)
    decreases |run|
  {
    hide Step;
    if run == [] {
      assert Runs(u, [a][1..], u);
    } else {
      var v :| Step(s, run[0], v) && Runs(v, run[1..], t);
      RunsOn(v, run[1..], t, a, u);
      assert (run + [a])[1..] == run[1..] + [a];
    }
  }

  /** Two cpus, nobody inside. */
  function Start(): State
  {
    State(0, 0, map[0 := Out, 1 := Out], map[])
  }

  /** Cpu 1 has loaded owner for a canlock and got no further; cpu 0 has locked and unlocked n times since. */
  lemma {:induction false} Rounds(n: nat) returns (run: seq<Action>, t: State)
    ensures Runs(Start(), run, t) && t.next == t.owner == n && t.cpus == map[0 := Out, 1 := Trying(0)]
  {
    if n == 0 {
      t := Set(Start(), 1, Trying(0));
      RunsOn(Start(), [], Start(), TryLoad(1), t);
      run := [] + [TryLoad(1)];
    } else {
      hide Runs, Step;
      var r0, t0 := Rounds(n - 1);
      var t1, t2, t3 := OneRound(t0);
      RunsOn(Start(), r0, t0, Arrive(0), t1);
      RunsOn(Start(), r0 + [Arrive(0)], t1, Enter(0), t2);
      RunsOn(Start(), r0 + [Arrive(0)] + [Enter(0)], t2, Leave(0), t3);
      run, t := r0 + [Arrive(0)] + [Enter(0)] + [Leave(0)], t3;
    }
  }

  /** Cpu 0 locks a free lock and unlocks it. */
  lemma OneRound(t0: State) returns (t1: State, t2: State, t3: State)
    requires t0.next == t0.owner && t0.cpus == map[0 := Out, 1 := Trying(0)]
    ensures Step(t0, Arrive(0), t1) && Step(t1, Enter(0), t2) && Step(t2, Leave(0), t3)
    ensures t3.next == t3.owner == t0.next + 1 && t3.cpus == t0.cpus
  {
    var n := t0.next;
    t1 := Set(t0, 0, Waiting(n)).(next := n + 1, who := t0.who[n := 0]);
    t2 := Set(t1, 0, Holding(n));
    t3 := Set(t2, 0, Out).(owner := n + 1);
  }

  /** Without the bound on canlock's window the exchange cannot tell. A run in which 2^32 tickets are given out between
      the load and the exchange reaches a state whose words agree again, and the exchange takes a lock another cpu
      holds. */
  lemma WindowMatters() returns (run: seq<Action>, s: State)
    ensures Init(Start()) && Runs(Start(), run, s)
    ensures 1 in s.cpus && s.cpus[1].Trying? && s.next == s.cpus[1].t + W
    ensures 0 in s.cpus && s.cpus[0].Holding? && Cas(s, 1).cpus[0].Holding? && Cas(s, 1).cpus[1].Holding?
  {
    var r, t := Rounds(W - 1);
    var t1 := Set(t, 0, Waiting(W - 1)).(next := W, who := t.who[W - 1 := 0]);
    RunsOn(Start(), r, t, Arrive(0), t1);
    s := Set(t1, 0, Holding(W - 1));
    run := r + [Arrive(0)] + [Enter(0)];
    RunsOn(Start(), r + [Arrive(0)], t1, Enter(0), s);
  }

  lemma SameWordIff(x: nat, y: nat)
    requires x <= y
    ensures y % W == x % W <==> (y - x) % W == 0
  {}

  /** And that is the only way: from a state in order, the exchange keeps order if and only if the tickets given out
      since the load are not a whole number of turns of the counter, or the lock is free. */
  lemma CasSafeIff(s: State, c: nat)
    requires Inv(s) && c in s.cpus && s.cpus[c].Trying?
    ensures Inv(Cas(s, c)) <==> (s.next - s.cpus[c].t) % W != 0 || s.owner == s.next
    ensures s.next < s.cpus[c].t + W ==> Inv(Cas(s, c))
  {
    var s' := Cas(s, c);
    SameWordIff(s.cpus[c].t, s.next);
    if NextWord(s) == s.cpus[c].t % W && s.owner < s.next {
      assert s'.cpus[c].Holding? && s'.cpus[c].t != s'.owner;
    } else {
      CasKeeps(s, c);
    }
    if s.next < s.cpus[c].t + W {
      CasExact(s, c);
    }
  }

  lemma CasKeeps(s: State, c: nat)
    requires Inv(s) && c in s.cpus && s.cpus[c].Trying?
    requires NextWord(s) != s.cpus[c].t % W || s.owner == s.next
    ensures Inv(Cas(s, c))
  {
    if NextWord(s) == s.cpus[c].t % W {
      TakenInv(s, c);
    }
  }

  /** Taking the next ticket of a free lock. */
  lemma TakenInv(s: State, c: nat)
    requires Inv(s) && c in s.cpus && s.cpus[c].Trying? && s.owner == s.next
    ensures Inv(Set(s, c, Holding(s.next)).(next := s.next + 1, who := s.who[s.next := c]))
  {}
}
