/** The ipc lock: eight buckets, taken one at a time or all in ascending order, again and again by the same cpu, and
    schedlock innermost. Cpus that keep to that can never all be waiting. */
module IpcLock {
  import opened Options

  const NIPCLOCK: nat := 8
  const SCHED: nat := 8       // schedlock, after every bucket

  /** A region being inside of: one bucket, or all of them. */
  datatype Frame = One(b: nat) | All

  /** frames: the regions entered and not left. climb: the next bucket of an ipclock_enter under way. fall: how many
      buckets an ipclock_leave under way still has to leave. want: a lock being spun on. */
  datatype Cpu = Cpu(frames: seq<Frame>, climb: Option<nat>, fall: Option<nat>, want: Option<nat>)

  /** owner and depth as the buckets record them; schedlock has an owner and no depth. */
  datatype State = State(cpus: map<nat, Cpu>, owner: map<nat, nat>, depth: map<nat, nat>)

  function Covers(f: Frame, b: nat): nat
  {
    if f == All || f == One(b) then 1 else 0
  }

  function Entries(fs: seq<Frame>, b: nat): nat
  {
    if fs == [] then 0 else Covers(fs[|fs| - 1], b) + Entries(fs[..|fs| - 1], b)
  }

  /** How many times the cpu is inside bucket b. */
  function Depth(k: Cpu, b: nat): nat
  {
    Entries(k.frames, b) + (if k.climb.Some? && b < k.climb.value then 1 else 0)
                         + (if k.fall.Some? && b < k.fall.value then 1 else 0)
  }

  /* ---- what callers keep to ---- */

  /** A cpu in a one-bucket region enters that bucket only; inside all of them it may enter any again. */
  predicate MayEnterOne(k: Cpu, b: nat)
  {
    k.frames == [] || k.frames[0] == All || k.frames[0] == One(b)
  }

  predicate MayEnterAll(k: Cpu)
  {
    k.frames == [] || k.frames[0] == All
  }

  ghost predicate Tidy(k: Cpu)
  {
    && (k.frames != [] && k.frames[0] != All ==> forall i | 0 <= i < |k.frames| :: k.frames[i] == k.frames[0])
    && (forall i | 0 <= i < |k.frames| && k.frames[i].One? :: k.frames[i].b < NIPCLOCK)
    && (k.climb.Some? ==> k.climb.value < NIPCLOCK && MayEnterAll(k) && k.fall == None)
    && (k.fall.Some? ==> 0 < k.fall.value <= NIPCLOCK && MayEnterAll(k) && k.want == None)
    && (k.want.Some? && k.climb.Some? ==> k.want == k.climb)
    && (k.want.Some? && k.climb.None? && k.want.value < NIPCLOCK ==> MayEnterOne(k, k.want.value))
  }

  /** A bucket's owner is the cpu inside it, as many times as its depth says. */
  ghost predicate Owned(s: State)
  {
    && (forall b: nat | b in s.owner :: b <= SCHED && s.owner[b] in s.cpus)
    && (forall b: nat, c: nat | b < NIPCLOCK && c in s.cpus ::
          Depth(s.cpus[c], b) > 0 <==> b in s.owner && s.owner[b] == c)
    && (forall b: nat | b in s.owner && b < NIPCLOCK ::
          b in s.depth && s.owner[b] in s.cpus && s.depth[b] == Depth(s.cpus[s.owner[b]], b))
  }

  /** Whoever waits for a lock holds only locks before it. */
  ghost predicate Ordered(s: State)
  {
    && (forall c: nat | c in s.cpus && s.cpus[c].want.Some? :: s.cpus[c].want.value <= SCHED)
    && (forall c: nat, b: nat | c in s.cpus && s.cpus[c].want.Some? && b in s.owner && s.owner[b] == c ::
          b < s.cpus[c].want.value)
  }

  ghost predicate AllTidy(s: State)
  {
    forall c: nat | c in s.cpus :: Tidy(s.cpus[c])
  }

  ghost predicate Inv(s: State)
  {
    AllTidy(s) && Owned(s) && Ordered(s)
  }

  lemma TidyOf(s: State, c: nat)
    requires AllTidy(s) && c in s.cpus
    ensures Tidy(s.cpus[c])
  {}

  lemma OwnsIff(s: State, b: nat, c: nat)
    requires Owned(s) && b < NIPCLOCK && c in s.cpus
    ensures Depth(s.cpus[c], b) > 0 <==> Owns(s, c, b)
    ensures Owns(s, c, b) ==> b in s.depth && s.depth[b] == Depth(s.cpus[c], b)
  {}

  predicate Owns(s: State, c: nat, b: nat)
  {
    b in s.owner && s.owner[b] == c
  }

  /* ---- no deadlock ---- */

  /** Some cpu among those waiting wants a lock no other waiter wants a later one than. */
  lemma {:induction false} LatestWaiter(s: State, cs: set<nat>) returns (c: nat)
    requires cs != {} && forall d | d in cs :: d in s.cpus && s.cpus[d].want.Some?
    ensures c in cs && forall d | d in cs :: s.cpus[d].want.value <= s.cpus[c].want.value
    decreases |cs|
  {
    var first :| first in cs;
    var rest := cs - {first};
    assert cs == rest + {first};
    c := first;
    if rest != {} {
      var e := LatestWaiter(s, rest);
      if s.cpus[e].want.value > s.cpus[first].want.value {
        c := e;
      }
    }
  }

  /** If every cpu is waiting, some wanted lock is free: they cannot all wait for one another. */
  lemma NeverAllWaiting(s: State)
    requires Inv(s) && s.cpus != map[] && forall c: nat | c in s.cpus :: s.cpus[c].want.Some?
    ensures exists c: nat :: c in s.cpus && s.cpus[c].want.value !in s.owner
  {
    assert s.cpus.Keys != {};
    var c := LatestWaiter(s, s.cpus.Keys);
    var x := s.cpus[c].want.value;
    if x in s.owner {
      assert false;
    }
  }

  /** c spins on a lock that d has. */
  predicate WaitsFor(s: State, c: nat, d: nat)
  {
    c in s.cpus && s.cpus[c].want.Some? && s.cpus[c].want.value in s.owner && s.owner[s.cpus[c].want.value] == d
  }

  /** Each cpu of the chain waits for the next. */
  ghost predicate Chain(s: State, ch: seq<nat>)
  {
    forall i | 0 <= i < |ch| - 1 :: WaitsFor(s, ch[i], ch[i + 1])
  }

  /** Whoever is waited for, if it waits too, waits for a later lock. */
  lemma WaitsUp(s: State, c: nat, d: nat)
    requires Inv(s) && WaitsFor(s, c, d)
    ensures d in s.cpus && s.cpus[c].want.value <= SCHED
    ensures s.cpus[d].want.Some? ==> s.cpus[c].want.value < s.cpus[d].want.value
  {}

  /** Following who waits for whom from any cpu leads, cpu by cpu, to one that is not waiting or to a free lock. */
  lemma {:induction false} ChainEnds(s: State, c: nat) returns (ch: seq<nat>)
    requires Inv(s) && c in s.cpus
    ensures ch != [] && ch[0] == c && Chain(s, ch)
    ensures var d := ch[|ch| - 1]; d in s.cpus && (s.cpus[d].want.None? || s.cpus[d].want.value !in s.owner)
    decreases if s.cpus[c].want.Some? then SCHED + 1 - s.cpus[c].want.value else 0
  {
    hide Inv;
    if s.cpus[c].want.None? || s.cpus[c].want.value !in s.owner {
      ch := [c];
    } else {
      var d := s.owner[s.cpus[c].want.value];
      WaitsUp(s, c, d);
      var rest := ChainEnds(s, d);
      ch := [c] + rest;
      forall i | 0 <= i < |ch| - 1
        ensures WaitsFor(s, ch[i], ch[i + 1])
      {
        if i > 0 {
          assert WaitsFor(s, rest[i - 1], rest[i]);
        }
      }
    }
  }

  /** Along a chain the locks waited for only come later. */
  lemma {:induction false} ChainClimbs(s: State, ch: seq<nat>, i: nat, j: nat)
    requires Inv(s) && Chain(s, ch) && i < j < |ch| && ch[j] in s.cpus && s.cpus[ch[j]].want.Some?
    ensures WaitsFor(s, ch[i], ch[i + 1]) && s.cpus[ch[i]].want.value < s.cpus[ch[j]].want.value
    decreases j - i
  {
    hide Inv;
    assert WaitsFor(s, ch[j - 1], ch[j]);
    WaitsUp(s, ch[j - 1], ch[j]);
    if i < j - 1 {
      ChainClimbs(s, ch, i, j - 1);
    }
  }

  /* ---- the steps ---- */

  datatype Action =
    | EnterOne(c: nat, b: nat)   // ipclock_enter_port, up to where it has the bucket or spins
    | EnterAll(c: nat)           // ipclock_enter begins
    | Climb(c: nat)              // one turn of its loop, up to the same point
    | Grant(c: nat)              // the lock spun on is taken
    | LeaveOne(c: nat)           // ipclock_leave_port
    | LeaveAll(c: nat)           // ipclock_leave begins
    | Fall(c: nat)               // one turn of its loop
    | WantSched(c: nat)          // lock(&schedlock)
    | LeaveSched(c: nat)

  /** Between ipc calls, and not inside schedlock. */
  predicate Idle(s: State, c: nat)
  {
    c in s.cpus && s.cpus[c].climb == None && s.cpus[c].fall == None && s.cpus[c].want == None && !Owns(s, c, SCHED)
  }

  function SetCpu(s: State, c: nat, k: Cpu): State
  {
    s.(cpus := s.cpus[c := k])
  }

  /** A bucket entered: the climb goes on, ends in a region, or there was none. */
  function Entered(k: Cpu, b: nat): Cpu
  {
    if k.climb == Some(b) then
      if b + 1 < NIPCLOCK then k.(climb := Some(b + 1), want := None)
      else k.(frames := k.frames + [All], climb := None, want := None)
    else k.(frames := k.frames + [One(b)], want := None)
  }

  /** ipclock_enter_one, up to the lock. */
  function TryBucket(s: State, c: nat, b: nat): State
    requires c in s.cpus
  {
    if Owns(s, c, b) && b in s.depth then SetCpu(s, c, Entered(s.cpus[c], b)).(depth := s.depth[b := s.depth[b] + 1])
    else SetCpu(s, c, s.cpus[c].(want := Some(b)))
  }

  /** ipclock_leave_one: the depth, and at the bottom the lock. */
  function DropBucket(s: State, b: nat): State
    requires b in s.depth
  {
    if s.depth[b] > 1 then s.(depth := s.depth[b := s.depth[b] - 1])
    else s.(depth := s.depth - {b}, owner := s.owner - {b})
  }

  ghost predicate Step(s: State, a: Action, s': State)
  {
    a.c in s.cpus && var k := s.cpus[a.c];
    match a
    case EnterOne(c, b) => Idle(s, c) && b < NIPCLOCK && MayEnterOne(k, b) && s' == TryBucket(s, c, b)
    case EnterAll(c) => Idle(s, c) && MayEnterAll(k) && s' == SetCpu(s, c, k.(climb := Some(0)))
    case Climb(c) => k.climb.Some? && k.want == None && !Owns(s, c, SCHED) && s' == TryBucket(s, c, k.climb.value)
    case Grant(c) =>
      k.want.Some? && k.want.value !in s.owner &&
      s' == (if k.want.value == SCHED then SetCpu(s, c, k.(want := None)).(owner := s.owner[SCHED := c])
             else SetCpu(s, c, Entered(k, k.want.value)).(owner := s.owner[k.want.value := c],
                                                          depth := s.depth[k.want.value := 1]))
    case LeaveOne(c) =>
      Idle(s, c) && k.frames != [] && var f := k.frames[|k.frames| - 1];
      f.One? && f.b in s.depth && s' == DropBucket(SetCpu(s, c, k.(frames := k.frames[..|k.frames| - 1])), f.b)
    case LeaveAll(c) =>
      Idle(s, c) && k.frames != [] && k.frames[|k.frames| - 1] == All
      && s' == SetCpu(s, c, k.(frames := k.frames[..|k.frames| - 1], fall := Some(NIPCLOCK)))
    case Fall(c) =>
      k.fall.Some? && !Owns(s, c, SCHED) && 0 < k.fall.value && k.fall.value - 1 in s.depth
      && s' == DropBucket(SetCpu(s, c, k.(fall := if k.fall.value == 1 then None else Some(k.fall.value - 1))),
                          k.fall.value - 1)
    case WantSched(c) => Idle(s, c) && s' == SetCpu(s, c, k.(want := Some(SCHED)))
    case LeaveSched(c) => Owns(s, c, SCHED) && s' == s.(owner := s.owner - {SCHED})
  }

  lemma EntriesPush(fs: seq<Frame>, f: Frame, b: nat)
    ensures Entries(fs + [f], b) == Covers(f, b) + Entries(fs, b)
  {
    assert (fs + [f])[..|fs|] == fs;
  }

  lemma {:induction false} EntriesAt(fs: seq<Frame>, i: nat, b: nat)
    requires i < |fs|
    ensures Entries(fs, b) >= Covers(fs[i], b)
    decreases |fs|
  {
    if i < |fs| - 1 {
      EntriesAt(fs[..|fs| - 1], i, b);
    }
  }

  /** What entering bucket b does to the depths. */
  lemma EnteredDepth(k: Cpu, b: nat, x: nat)
    requires Tidy(k) && k.fall == None && b < NIPCLOCK && x < NIPCLOCK && (k.climb.Some? ==> k.climb == Some(b))
    ensures Depth(Entered(k, b), x) == Depth(k, x) + (if x == b then 1 else 0)
  {
    EntriesPush(k.frames, All, x);
    EntriesPush(k.frames, One(b), x);
  }

  lemma EnteredTidy(k: Cpu, b: nat)
    requires Tidy(k) && k.fall == None && b < NIPCLOCK && (k.climb.Some? ==> k.climb == Some(b))
    requires (k.climb.None? ==> MayEnterOne(k, b))
    ensures Tidy(Entered(k, b))
  {}

  /** A cpu that has to wait for a bucket holds nothing after it. */
  lemma BucketOrder(s: State, c: nat, b: nat, x: nat)
    requires Inv(s) && c in s.cpus && b < NIPCLOCK && !Owns(s, c, b) && !Owns(s, c, SCHED) && Owns(s, c, x)
    requires x <= SCHED && s.cpus[c].fall == None
    requires s.cpus[c].climb.Some? ==> s.cpus[c].climb == Some(b)
    requires s.cpus[c].climb.None? ==> MayEnterOne(s.cpus[c], b)
    ensures x < b
  {
    hide AllTidy, Owned, Ordered, Entries;
    var k := s.cpus[c];
    TidyOf(s, c);
    OwnsIff(s, b, c);
    OwnsIff(s, x, c);
    if k.frames != [] {
      EntriesAt(k.frames, 0, b);
    } else {
      EntriesNone(x);
    }
  }

  lemma EntriesNone(b: nat)
    ensures Entries([], b) == 0
  {}

  /* ---- every step keeps the order ---- */

  /** Bucket b entered once more by its owner, or for the first time. */
  ghost predicate TookBucket(s: State, s': State, c: nat, b: nat)
  {
    && c in s.cpus && b < NIPCLOCK && s'.cpus == s.cpus[c := Entered(s.cpus[c], b)]
    && ((Owns(s, c, b) && b in s.depth && s'.owner == s.owner && s'.depth == s.depth[b := s.depth[b] + 1])
        || (b !in s.owner && s'.owner == s.owner[b := c] && s'.depth == s.depth[b := 1]))
  }

  /** Who owns what, from how one cpu's depths change. */
  lemma OwnedBy(s: State, s': State, c: nat)
    requires Owned(s) && c in s.cpus && c in s'.cpus && s'.cpus.Keys == s.cpus.Keys
    requires forall d: nat | d in s.cpus && d != c :: s'.cpus[d] == s.cpus[d]
    requires forall b: nat | b in s'.owner :: b <= SCHED && s'.owner[b] in s.cpus
    requires forall b: nat, d: nat | b < NIPCLOCK && d in s.cpus && d != c :: Owns(s', d, b) <==> Owns(s, d, b)
    requires forall b: nat, d: nat | b < NIPCLOCK && d != c && Owns(s, d, b) ::
      b in s.depth && b in s'.depth && s'.depth[b] == s.depth[b]
    requires forall b: nat | b < NIPCLOCK :: Depth(s'.cpus[c], b) > 0 <==> Owns(s', c, b)
    requires forall b: nat | b < NIPCLOCK && Owns(s', c, b) :: b in s'.depth && s'.depth[b] == Depth(s'.cpus[c], b)
    ensures Owned(s')
  {
    hide Depth;
    forall b: nat, d: nat | b < NIPCLOCK && d in s'.cpus
      ensures Depth(s'.cpus[d], b) > 0 <==> b in s'.owner && s'.owner[b] == d
      ensures b in s'.owner && s'.owner[b] == d ==> b in s'.depth && s'.depth[b] == Depth(s'.cpus[d], b)
    {
      assert d in s.cpus.Keys;
      OwnsIff(s, b, d);
      assert Owns(s', d, b) <==> b in s'.owner && s'.owner[b] == d;
    }
  }

  /** Nothing changes for the other cpus. */
  lemma TookOthers(s: State, s': State, c: nat, b: nat)
    requires Owned(s) && TookBucket(s, s', c, b)
    ensures c in s'.cpus && s'.cpus.Keys == s.cpus.Keys
    ensures forall d: nat | d in s.cpus && d != c :: s'.cpus[d] == s.cpus[d]
    ensures forall x: nat | x in s'.owner :: x <= SCHED && s'.owner[x] in s.cpus
    ensures forall x: nat, d: nat | x < NIPCLOCK && d in s.cpus && d != c :: Owns(s', d, x) <==> Owns(s, d, x)
    ensures forall x: nat, d: nat | x < NIPCLOCK && d != c && Owns(s, d, x) ::
      x in s.depth && x in s'.depth && s'.depth[x] == s.depth[x]
  {
    hide Entered, Depth;
  }

  lemma TookMine(s: State, s': State, c: nat, b: nat, x: nat)
    requires AllTidy(s) && Owned(s) && TookBucket(s, s', c, b) && s.cpus[c].fall == None
    requires (s.cpus[c].climb.Some? ==> s.cpus[c].climb == Some(b))
    requires x < NIPCLOCK
    ensures c in s'.cpus && (Depth(s'.cpus[c], x) > 0 <==> Owns(s', c, x))
    ensures Owns(s', c, x) ==> x in s'.depth && s'.depth[x] == Depth(s'.cpus[c], x)
  {
    hide Entered, Tidy, Depth, AllTidy, Owned;
    TidyOf(s, c);
    EnteredDepth(s.cpus[c], b, x);
    OwnsIff(s, x, c);
  }

  lemma TookOwned(s: State, s': State, c: nat, b: nat)
    requires AllTidy(s) && Owned(s) && TookBucket(s, s', c, b) && s.cpus[c].fall == None
    requires (s.cpus[c].climb.Some? ==> s.cpus[c].climb == Some(b))
    ensures Owned(s')
  {
    hide Entered, Tidy, Depth, AllTidy, Owned, TookBucket, Owns;
    TookOthers(s, s', c, b);
    forall x: nat | x < NIPCLOCK
      ensures Depth(s'.cpus[c], x) > 0 <==> Owns(s', c, x)
      ensures Owns(s', c, x) ==> x in s'.depth && s'.depth[x] == Depth(s'.cpus[c], x)
    {
      TookMine(s, s', c, b, x);
    }
    OwnedBy(s, s', c);
  }

  /** A cpu that stops waiting, and takes or gives only locks of its own, leaves the order as it was. */
  lemma OrderedBy(s: State, s': State, c: nat)
    requires Ordered(s) && s'.cpus.Keys == s.cpus.Keys
    requires (forall d: nat | d in s.cpus && d != c :: s'.cpus[d] == s.cpus[d])
    requires forall b: nat, d: nat | d in s.cpus && d != c && Owns(s', d, b) :: Owns(s, d, b)
    requires c in s'.cpus
    requires (s'.cpus[c].want.None?
              || (s'.cpus[c].want.value <= SCHED && forall b: nat | Owns(s', c, b) :: b < s'.cpus[c].want.value))
    ensures Ordered(s')
  {
    forall d: nat | d in s'.cpus && s'.cpus[d].want.Some?
      ensures s'.cpus[d].want.value <= SCHED
      ensures forall b: nat | b in s'.owner && s'.owner[b] == d :: b < s'.cpus[d].want.value
    {
      assert d in s.cpus.Keys;
      forall b: nat | b in s'.owner && s'.owner[b] == d
        ensures b < s'.cpus[d].want.value
      {
        assert Owns(s', d, b);
      }
    }
  }

  lemma TidySet(s: State, s': State, c: nat)
    requires AllTidy(s) && s'.cpus.Keys == s.cpus.Keys
    requires (forall d: nat | d in s.cpus && d != c :: s'.cpus[d] == s.cpus[d]) && c in s'.cpus && Tidy(s'.cpus[c])
    ensures AllTidy(s')
  {
    hide Tidy;
    forall d: nat | d in s'.cpus
      ensures Tidy(s'.cpus[d])
    {
      assert d in s.cpus.Keys;
    }
  }

  lemma TookInv(s: State, s': State, c: nat, b: nat)
    requires Inv(s) && TookBucket(s, s', c, b) && s.cpus[c].fall == None && !Owns(s, c, SCHED)
    requires s.cpus[c].climb.Some? ==> s.cpus[c].climb == Some(b)
    requires s.cpus[c].climb.None? ==> MayEnterOne(s.cpus[c], b)
    ensures Inv(s')
  {
    hide Tidy, AllTidy, Owned, Ordered;
    TidyOf(s, c);
    EnteredTidy(s.cpus[c], b);
    TookOwned(s, s', c, b);
    TidySet(s, s', c);
    OrderedBy(s, s', c);
  }

  lemma TryInv(s: State, c: nat, b: nat)
    requires Inv(s) && c in s.cpus && b < NIPCLOCK && s.cpus[c].fall == None && s.cpus[c].want == None
    requires !Owns(s, c, SCHED)
    requires s.cpus[c].climb.Some? ==> s.cpus[c].climb == Some(b)
    requires s.cpus[c].climb.None? ==> MayEnterOne(s.cpus[c], b)
    ensures Inv(TryBucket(s, c, b))
  {
    hide AllTidy, Owned, Ordered, Entries;
    var s' := TryBucket(s, c, b);
    TidyOf(s, c);
    OwnsIff(s, b, c);
    if Owns(s, c, b) {
      TookInv(s, s', c, b);
    } else {
      forall x: nat | Owns(s', c, x)
        ensures x < b
      {
        InRange(s, x);
        BucketOrder(s, c, b, x);
      }
      TidySet(s, s', c);
      OrderedBy(s, s', c);
      SameDepths(s, s', c);
    }
  }

  lemma InRange(s: State, b: nat)
    requires Owned(s) && b in s.owner
    ensures b <= SCHED && s.owner[b] in s.cpus
  {}

  /** Changing what a cpu wants changes no depth. */
  lemma SameDepths(s: State, s': State, c: nat)
    requires Owned(s) && c in s.cpus && s'.owner == s.owner && s'.depth == s.depth && s'.cpus.Keys == s.cpus.Keys
    requires forall d: nat | d in s.cpus && d != c :: s'.cpus[d] == s.cpus[d]
    requires forall x: nat | x < NIPCLOCK :: Depth(s'.cpus[c], x) == Depth(s.cpus[c], x)
    ensures Owned(s')
  {
    hide Depth;
    assert forall d: nat | d in s'.cpus :: d in s.cpus.Keys;
  }

  lemma GrantInv(s: State, c: nat, s': State)
    requires Inv(s) && Step(s, Grant(c), s')
    ensures Inv(s')
  {
    hide AllTidy, Owned, Ordered, Entries;
    var k := s.cpus[c];
    TidyOf(s, c);
    if k.want.value == SCHED {
      SchedOwned(s, s', c);
    } else {
      NotSched(s, c);
      TookInv(s, s', c, k.want.value);
    }
  }

  /** A cpu waiting is within range, and one waiting for a bucket is not inside schedlock. */
  lemma NotSched(s: State, c: nat)
    requires Inv(s) && c in s.cpus && s.cpus[c].want.Some?
    ensures s.cpus[c].want.value <= SCHED
    ensures (s.cpus[c].want.value < SCHED ==> !Owns(s, c, SCHED) && s.cpus[c].fall == None)
  {
    hide Owned, Entries;
    TidyOf(s, c);
  }

  lemma SchedOwned(s: State, s': State, c: nat)
    requires Inv(s) && c in s.cpus && s.cpus[c].want == Some(SCHED) && SCHED !in s.owner
    requires s' == SetCpu(s, c, s.cpus[c].(want := None)).(owner := s.owner[SCHED := c])
    ensures Inv(s')
  {
    hide AllTidy, Owned, Ordered, Entries;
    TidyOf(s, c);
    TidySet(s, s', c);
    OrderedBy(s, s', c);
    forall b: nat | b in s'.owner
      ensures b <= SCHED && s'.owner[b] in s.cpus
    {
      if b != SCHED {
        InRange(s, b);
      }
    }
    SchedSame(s, s');
  }

  /** Taking or leaving schedlock changes nothing about the buckets. */
  lemma SchedSame(s: State, s': State)
    requires Owned(s) && s'.cpus.Keys == s.cpus.Keys && s'.depth == s.depth
    requires forall d: nat, b: nat | d in s.cpus && b < NIPCLOCK :: Depth(s'.cpus[d], b) == Depth(s.cpus[d], b)
    requires forall b: nat | b < NIPCLOCK ::
      (b in s'.owner <==> b in s.owner) && (b in s.owner ==> s'.owner[b] == s.owner[b])
    requires forall b: nat | b in s'.owner :: b <= SCHED && s'.owner[b] in s.cpus
    ensures Owned(s')
  {
    hide Depth;
    assert forall d: nat | d in s'.cpus :: d in s.cpus.Keys;
  }

  /** A bucket left once by its owner. */
  ghost predicate LeftBucket(s: State, s': State, c: nat, b: nat, k: Cpu)
  {
    && c in s.cpus && b < NIPCLOCK && b in s.depth && s' == DropBucket(SetCpu(s, c, k), b)
    && (forall x: nat | x < NIPCLOCK :: Depth(s.cpus[c], x) == Depth(k, x) + (if x == b then 1 else 0))
  }

  lemma LeftInv(s: State, s': State, c: nat, b: nat, k: Cpu)
    requires Inv(s) && LeftBucket(s, s', c, b, k) && Tidy(k) && k.want == None
    ensures Inv(s')
  {
    hide Tidy, Depth, AllTidy, Owned, Ordered;
    OwnsIff(s, b, c);
    TidySet(s, s', c);
    OrderedBy(s, s', c);
    LeftOwned(s, s', c, b, k);
  }

  lemma LeftOwned(s: State, s': State, c: nat, b: nat, k: Cpu)
    requires Owned(s) && LeftBucket(s, s', c, b, k)
    ensures Owned(s')
  {
    hide Depth, Tidy;
    forall x: nat | x < NIPCLOCK
      ensures (Depth(s.cpus[c], x) > 0 <==> Owns(s, c, x))
      ensures (Owns(s, c, x) ==> x in s.depth && s.depth[x] == Depth(s.cpus[c], x))
    {
      OwnsIff(s, x, c);
    }
    OwnedBy(s, s', c);
  }

  lemma LeaveOneInv(s: State, c: nat, s': State)
    requires Inv(s) && Step(s, LeaveOne(c), s')
    ensures Inv(s')
  {
    hide AllTidy, Owned, Ordered;
    TidyOf(s, c);
    var k := s.cpus[c];
    var n := |k.frames| - 1;
    var f := k.frames[n];
    var k' := k.(frames := k.frames[..n]);
    forall x: nat | x < NIPCLOCK
      ensures Depth(k, x) == Depth(k', x) + (if x == f.b then 1 else 0)
    {}
    PopTidy(k);
    LeftInv(s, s', c, f.b, k');
  }

  lemma PopTidy(k: Cpu)
    requires Tidy(k) && k.frames != [] && k.climb == None && k.fall == None && k.want == None
    ensures Tidy(k.(frames := k.frames[..|k.frames| - 1]))
    ensures k.frames[|k.frames| - 1] == All ==> Tidy(k.(frames := k.frames[..|k.frames| - 1], fall := Some(NIPCLOCK)))
    ensures k.frames[|k.frames| - 1].One? ==> k.frames[|k.frames| - 1].b < NIPCLOCK
  {}

  lemma LeaveAllInv(s: State, c: nat, s': State)
    requires Inv(s) && Step(s, LeaveAll(c), s')
    ensures Inv(s')
  {
    hide AllTidy, Owned, Ordered, Tidy;
    TidyOf(s, c);
    var k := s.cpus[c];
    PopTidy(k);
    var k' := k.(frames := k.frames[..|k.frames| - 1], fall := Some(NIPCLOCK));
    forall x: nat | x < NIPCLOCK
      ensures Depth(k', x) == Depth(k, x)
    {}
    SameDepths(s, s', c);
    TidySet(s, s', c);
    OrderedBy(s, s', c);
  }

  lemma FallInv(s: State, c: nat, s': State)
    requires Inv(s) && Step(s, Fall(c), s')
    ensures Inv(s')
  {
    hide AllTidy, Owned, Ordered, Entries;
    TidyOf(s, c);
    var k := s.cpus[c];
    var n := k.fall.value;
    var k' := k.(fall := if n == 1 then None else Some(n - 1));
    forall x: nat | x < NIPCLOCK
      ensures Depth(k, x) == Depth(k', x) + (if x == n - 1 then 1 else 0)
    {}
    LeftInv(s, s', c, n - 1, k');
  }

  lemma EnterAllInv(s: State, c: nat, s': State)
    requires Inv(s) && Step(s, EnterAll(c), s')
    ensures Inv(s')
  {
    hide AllTidy, Owned, Ordered, Entries;
    TidyOf(s, c);
    SameDepths(s, s', c);
    TidySet(s, s', c);
    OrderedBy(s, s', c);
  }

  lemma WantSchedInv(s: State, c: nat, s': State)
    requires Inv(s) && Step(s, WantSched(c), s')
    ensures Inv(s')
  {
    hide AllTidy, Owned, Ordered, Entries;
    TidyOf(s, c);
    forall x: nat | Owns(s', c, x)
      ensures x < SCHED
    {
      InRange(s, x);
    }
    SameDepths(s, s', c);
    TidySet(s, s', c);
    OrderedBy(s, s', c);
  }

  lemma LeaveSchedInv(s: State, c: nat, s': State)
    requires Inv(s) && Step(s, LeaveSched(c), s')
    ensures Inv(s')
  {
    hide Depth, Tidy;
  }

  lemma StepInv(s: State, a: Action, s': State)
    requires Inv(s) && Step(s, a, s')
    ensures Inv(s')
  {
    hide AllTidy, Owned, Ordered, Entries;
    TidyOf(s, a.c);
    match a {
      case EnterOne(c, b) => TryInv(s, c, b);
      case EnterAll(c) => EnterAllInv(s, c, s');
      case Climb(c) => TryInv(s, c, s.cpus[c].climb.value);
      case Grant(c) => GrantInv(s, c, s');
      case LeaveOne(c) => LeaveOneInv(s, c, s');
      case LeaveAll(c) => LeaveAllInv(s, c, s');
      case Fall(c) => FallInv(s, c, s');
      case WantSched(c) => WantSchedInv(s, c, s');
      case LeaveSched(c) => LeaveSchedInv(s, c, s');
    }
  }

  ghost predicate Init(s: State)
  {
    s.owner == map[] && s.depth == map[] && forall c: nat | c in s.cpus :: s.cpus[c] == Cpu([], None, None, None)
  }

  ghost predicate Runs(s: State, run: seq<Action>, t: State)
    decreases |run|
  {
    if run == [] then t == s else exists u :: Step(s, run[0], u) && Runs(u, run[1..], t)
  }

  lemma {:induction false} RunInv(s: State, run: seq<Action>, t: State)
    requires Inv(s) && Runs(s, run, t)
    ensures Inv(t)
    decreases |run|
  {
    hide Inv, Step;
    if run != [] {
      var u :| Step(s, run[0], u) && Runs(u, run[1..], t);
      StepInv(s, run[0], u);
      RunInv(u, run[1..], t);
    }
  }

  lemma InitInv(s: State)
    requires Init(s)
    ensures Inv(s)
  {}

  /** Over every run: the cpus are never all waiting with nothing to be had. */
  lemma NoDeadlock(s: State, run: seq<Action>, t: State)
    requires Init(s) && Runs(s, run, t) && t.cpus != map[] && forall c: nat | c in t.cpus :: t.cpus[c].want.Some?
    ensures exists c: nat :: c in t.cpus && t.cpus[c].want.value !in t.owner
  {
    hide Inv, Runs, Init;
    InitInv(s);
    RunInv(s, run, t);
    NeverAllWaiting(t);
  }

  /** Over every run no cpus wait for one another in a ring, however many others run on. */
  lemma NoCycle(s: State, run: seq<Action>, t: State, ch: seq<nat>)
    requires Init(s) && Runs(s, run, t) && |ch| > 1 && Chain(t, ch)
    ensures ch[|ch| - 1] != ch[0]
  {
    hide Inv, Runs, Init;
    InitInv(s);
    RunInv(s, run, t);
    if ch[|ch| - 1] == ch[0] {
      assert WaitsFor(t, ch[0], ch[1]);
      ChainClimbs(t, ch, 0, |ch| - 1);
    }
  }

  /** No two cpus are inside the same bucket. */
  lemma OneInside(s: State, run: seq<Action>, t: State, b: nat, c: nat, d: nat)
    requires Init(s) && Runs(s, run, t) && b < NIPCLOCK && c in t.cpus && d in t.cpus && Depth(t.cpus[c], b) > 0
    requires Depth(t.cpus[d], b) > 0
    ensures c == d && b in t.owner && t.owner[b] == c && b in t.depth && t.depth[b] == Depth(t.cpus[c], b)
  {
    hide Runs, Init, Depth, Tidy, Owned, Ordered;
    InitInv(s);
    RunInv(s, run, t);
    OwnsIff(t, b, c);
    OwnsIff(t, b, d);
  }

  /** A cpu inside all buckets is inside each, and alone there. */
  lemma AllAlone(s: State, run: seq<Action>, t: State, b: nat, c: nat, d: nat)
    requires Init(s) && Runs(s, run, t) && b < NIPCLOCK && c in t.cpus && d in t.cpus && d != c
    requires All in t.cpus[c].frames
    ensures Depth(t.cpus[c], b) > 0 && b in t.owner && t.owner[b] == c && Depth(t.cpus[d], b) == 0
  {
    hide Runs, Init;
    var i :| 0 <= i < |t.cpus[c].frames| && t.cpus[c].frames[i] == All;
    EntriesAt(t.cpus[c].frames, i, b);
    OneInside(s, run, t, b, c, c);
    if Depth(t.cpus[d], b) > 0 {
      OneInside(s, run, t, b, c, d);
    }
  }
}
