/** Which bytes deserialize accepts, whoever wrote them, and what it makes of them. */
module WireExact {
  import opened Options
  import opened Wire
  import opened WireRead

  /** What a message can say: a plain value, the message's i-th buffer, a right to a port, or a table of these. */
  datatype Node = Leaf(v: Value) | Slot(i: byte) | Grant(port: u16, recv: byte) | Tab(all: Nodes)

  datatype Nodes = Last | Two(k: Node, v: Node, rest: Nodes)

  const COUNTS: nat := 0x1_0000_0000

  function Len(ns: Nodes): nat
  {
    if ns == Last then 0 else 1 + Len(ns.rest)
  }

  /** Its bytes. */
  function Print(x: Node): seq<byte>
  {
    match x
    case Leaf(v) => Encoding(v, map[], 0)
    case Slot(i) => [77, i]
    case Grant(port, recv) => [82] + Le(port, 2) + [recv]
    case Tab(ns) => [66] + Le(Len(ns), 4) + PrintAll(ns)
  }

  function PrintAll(ns: Nodes): seq<byte>
  {
    match ns
    case Last => []
    case Two(k, v, rest) => Print(k) + Print(v) + PrintAll(rest)
  }

  /** The buffers it names, in order. */
  function Slots(x: Node): seq<byte>
  {
    match x
    case Slot(i) => [i]
    case Tab(ns) => SlotsAll(ns)
    case _ => []
  }

  function SlotsAll(ns: Nodes): seq<byte>
  {
    match ns
    case Last => []
    case Two(k, v, rest) => Slots(k) + Slots(v) + SlotsAll(rest)
  }

  /** The rights it asks for, in order. */
  function Caps(x: Node): seq<Cap>
  {
    match x
    case Grant(port, recv) => [Cap(port, recv != 0)]
    case Tab(ns) => CapsAll(ns)
    case _ => []
  }

  function CapsAll(ns: Nodes): seq<Cap>
  {
    match ns
    case Last => []
    case Two(k, v, rest) => Caps(k) + Caps(v) + CapsAll(rest)
  }

  function Deep(x: Node): nat
  {
    match x
    case Tab(ns) => DeepAll(ns)
    case _ => 0
  }

  function DeepAll(ns: Nodes): nat
  {
    match ns
    case Last => 0
    case Two(k, v, rest) => Max(1 + Max(Deep(k), Deep(v)), DeepAll(rest))
  }

  /** Leaves are plain values, and lengths and counts go into 32 bits. */
  predicate Proper(x: Node)
  {
    match x
    case Leaf(v) => v.Nil? || v.Bool? || v.Int? || v.Num? || (v.Str? && |v.s| < COUNTS)
    case Tab(ns) => Len(ns) < COUNTS && ProperAll(ns)
    case _ => true
  }

  predicate ProperAll(ns: Nodes)
  {
    match ns
    case Last => true
    case Two(k, v, rest) => Proper(k) && Proper(v) && ProperAll(rest)
  }

  /** Each buffer is one of the message's, still there, and named once. */
  ghost predicate Unclaimed(bufs: seq<Option<seq<byte>>>, slots: seq<byte>)
  {
    && (forall j | 0 <= j < |slots| :: slots[j] < |bufs| && bufs[slots[j]].Some?)
    && (forall j, k | 0 <= j < k < |slots| :: slots[j] != slots[k])
  }

  /** Each right is to a port that exists, and there are handles for all of them. */
  ghost predicate Mintable(e: Env, n: nat, caps: seq<Cap>)
  {
    && (forall j | 0 <= j < |caps| :: caps[j].port in e.ports)
    && (caps != [] ==> n + |caps| <= MAXMSGRIGHTS && n + |caps| <= |e.free|)
  }

  ghost predicate Takes(e: Env, st: In, slots: seq<byte>, caps: seq<Cap>)
  {
    && Unclaimed(st.bufs, slots) && (slots != [] ==> st.taken + |slots| <= e.room)
    && Mintable(e, |st.caps|, caps)
  }

  /** x is something this receiver can take in here. */
  ghost predicate Legal(e: Env, st: In, x: Node, depth: nat)
  {
    depth + Deep(x) <= MAXDEPTH && Proper(x) && Takes(e, st, Slots(x), Caps(x))
  }

  ghost predicate LegalAll(e: Env, st: In, ns: Nodes, depth: nat)
  {
    (ns == Last || depth - 1 + DeepAll(ns) <= MAXDEPTH) && ProperAll(ns) && Takes(e, st, SlotsAll(ns), CapsAll(ns))
  }

  /** The walk's progress past n bytes that name these buffers and rights. */
  function Beyond(st: In, n: nat, slots: seq<byte>, caps: seq<Cap>): In
  {
    In(st.off + n, st.caps + caps,
       seq(|st.bufs|, i requires 0 <= i < |st.bufs| => if i in slots then None else st.bufs[i]),
       st.taken + |slots|)
  }

  /** What the receiver sees: a buffer as its own, a right as the next of its handles. */
  function Sees(free: seq<int>, bufs: seq<Option<seq<byte>>>, x: Node, m: nat): Value
  {
    match x
    case Leaf(v) => v
    case Slot(i) => if i < |bufs| && bufs[i].Some? then Bytes(bufs[i].value) else Nil
    case Grant(_, _) => if m < |free| then Right(free[m]) else Nil
    case Tab(ns) => Table(SeesAll(free, bufs, ns, m))
  }

  function SeesAll(free: seq<int>, bufs: seq<Option<seq<byte>>>, ns: Nodes, m: nat): Pairs
  {
    match ns
    case Last => End
    case Two(k, v, rest) =>
      Pair(Sees(free, bufs, k, m), Sees(free, bufs, v, m + |Caps(k)|),
           SeesAll(free, bufs, rest, m + |Caps(k)| + |Caps(v)|))
  }

  /** What reading x at st comes to. */
  ghost function Answer(e: Env, st: In, x: Node): Got
  {
    Ok(Sees(e.free, st.bufs, x, |st.caps|), Beyond(st, |Print(x)|, Slots(x), Caps(x)))
  }

  ghost function AnswerAll(e: Env, st: In, ns: Nodes): Got
  {
    Ok(Table(SeesAll(e.free, st.bufs, ns, |st.caps|)), Beyond(st, |PrintAll(ns)|, SlotsAll(ns), CapsAll(ns)))
  }

  /* ---- taking things in one after another ---- */

  lemma UnclaimedSplit(st: In, n: nat, a: seq<byte>, b: seq<byte>, caps: seq<Cap>)
    ensures Unclaimed(st.bufs, a + b) <==> Unclaimed(st.bufs, a) && Unclaimed(Beyond(st, n, a, caps).bufs, b)
  {
    var c := a + b;
    var later := Beyond(st, n, a, caps).bufs;
    assert forall j | 0 <= j < |a| :: c[j] == a[j];
    assert forall j | 0 <= j < |b| :: c[|a| + j] == b[j];
    if Unclaimed(st.bufs, c) {
      forall j | 0 <= j < |b|
        ensures b[j] < |later| && later[b[j]].Some?
      {
        assert b[j] !in a;
      }
    }
    if Unclaimed(st.bufs, a) && Unclaimed(later, b) {
      forall j, k | 0 <= j < k < |c|
        ensures c[j] != c[k]
      {
        if j < |a| <= k {
          assert later[b[k - |a|]].Some?;
          assert a[j] in a;
        }
      }
    }
  }

  lemma MintableSplit(e: Env, n: nat, a: seq<Cap>, b: seq<Cap>)
    ensures Mintable(e, n, a + b) <==> Mintable(e, n, a) && Mintable(e, n + |a|, b)
  {
    var c := a + b;
    assert forall j | 0 <= j < |a| :: c[j] == a[j];
    assert forall j | 0 <= j < |b| :: c[|a| + j] == b[j];
  }

  lemma TakesSplit(e: Env, st: In, n: nat, a: seq<byte>, b: seq<byte>, x: seq<Cap>, y: seq<Cap>)
    ensures Takes(e, st, a + b, x + y) <==> Takes(e, st, a, x) && Takes(e, Beyond(st, n, a, x), b, y)
  {
    hide Unclaimed, Mintable;
    UnclaimedSplit(st, n, a, b, x);
    MintableSplit(e, |st.caps|, x, y);
  }

  lemma BeyondTwice(st: In, n: nat, a: seq<byte>, x: seq<Cap>, m: nat, b: seq<byte>, y: seq<Cap>)
    ensures Beyond(Beyond(st, n, a, x), m, b, y) == Beyond(st, n + m, a + b, x + y)
  {
    assert st.caps + x + y == st.caps + (x + y);
  }

  lemma BeyondNone(st: In, n: nat)
    ensures Beyond(st, n, [], []) == st.(off := st.off + n)
  {
    assert st.caps + [] == st.caps;
  }

  /** What is seen depends only on the buffers named. */
  lemma {:induction false} SeesSame(free: seq<int>, p: seq<Option<seq<byte>>>, q: seq<Option<seq<byte>>>, x: Node,
                                    m: nat)
    requires |p| == |q| && forall i | i in Slots(x) && i < |p| :: p[i] == q[i]
    ensures Sees(free, p, x, m) == Sees(free, q, x, m)
    decreases x
  {
    match x {
      case Slot(i) => assert i in Slots(x);
      case Tab(ns) => SeesSameAll(free, p, q, ns, m);
      case _ =>
    }
  }

  lemma {:induction false} SeesSameAll(free: seq<int>, p: seq<Option<seq<byte>>>, q: seq<Option<seq<byte>>>, ns: Nodes,
                                       m: nat)
    requires |p| == |q| && forall i | i in SlotsAll(ns) && i < |p| :: p[i] == q[i]
    ensures SeesAll(free, p, ns, m) == SeesAll(free, q, ns, m)
    decreases ns
  {
    match ns {
      case Last =>
      case Two(k, v, rest) =>
        SeesSame(free, p, q, k, m);
        SeesSame(free, p, q, v, m + |Caps(k)|);
        SeesSameAll(free, p, q, rest, m + |Caps(k)| + |Caps(v)|);
    }
  }

  /** A slot named twice is not unclaimed the second time, so what is left to see is what there was. */
  lemma StillThere(st: In, n: nat, a: seq<byte>, caps: seq<Cap>, b: seq<byte>)
    requires Unclaimed(Beyond(st, n, a, caps).bufs, b)
    ensures forall i | i in b && i < |st.bufs| :: Beyond(st, n, a, caps).bufs[i] == st.bufs[i]
  {
    forall i | i in b && i < |st.bufs|
      ensures Beyond(st, n, a, caps).bufs[i] == st.bufs[i]
    {
      var j :| 0 <= j < |b| && b[j] == i;
      assert Beyond(st, n, a, caps).bufs[b[j]].Some?;
    }
  }

  /* ---- what is legal is accepted ---- */

  lemma {:induction false} PrintLong(ns: Nodes)
    requires ProperAll(ns)
    ensures |PrintAll(ns)| >= 2 * Len(ns)
  {
    if ns != Last {
      PrintLong(ns.rest);
      PrintOne(ns.k);
      PrintOne(ns.v);
    }
  }

  lemma PrintOne(x: Node)
    requires Proper(x)
    ensures |Print(x)| >= 1
  {}

  /** Whatever legal thing is spelled out here is read as what it means. */
  lemma {:induction false} ReadMeans(e: Env, st: In, x: Node, depth: nat)
    requires st.off <= |e.p| && At(e.p, st.off, Print(x)) && Legal(e, st, x, depth)
    ensures Dec(e, st, depth) == Answer(e, st, x)
    decreases x
  {
    match x {
      case Leaf(v) => LeafMeans(e, st, v, depth);
      case Slot(i) => SlotMeans(e, st, i, depth);
      case Grant(port, recv) => GrantMeans(e, st, port, recv, depth);
      case Tab(ns) =>
        TabStart(e, st, ns, depth);
        var s := st.(off := st.off + 5);
        if ns != Last {
          ReadAllMeans(e, s, ns, depth + 1);
        } else {
          AllLast(e, s, depth + 1);
        }
        TabAnswer(e, st, ns);
    }
  }

  lemma {:induction false} ReadAllMeans(e: Env, st: In, ns: Nodes, depth: nat)
    requires st.off <= |e.p| && At(e.p, st.off, PrintAll(ns)) && LegalAll(e, st, ns, depth) && depth > 0
    ensures DecPairs(e, st, depth, Len(ns)) == AnswerAll(e, st, ns)
    decreases ns
  {
    hide Dec, DecPairs, Answer, AnswerAll, Legal, LegalAll, At, Takes, Print, PrintAll, Beyond;
    match ns {
      case Last => AllLast(e, st, depth);
      case Two(k, v, rest) =>
        AllInTurn(e, st, k, v, rest, depth);
        var a := Beyond(st, |Print(k)|, Slots(k), Caps(k));
        var b := Beyond(a, |Print(v)|, Slots(v), Caps(v));
        BytesInTurn(e, st, k, v, rest);
        ReadMeans(e, st, k, depth);
        ReadMeans(e, a, v, depth);
        ReadAllMeans(e, b, rest, depth);
        AnswerInTurn(e, st, k, v, rest, depth);
    }
  }

  lemma LeafMeans(e: Env, st: In, v: Value, depth: nat)
    requires st.off <= |e.p| && At(e.p, st.off, Print(Leaf(v))) && Legal(e, st, Leaf(v), depth)
    ensures Dec(e, st, depth) == Answer(e, st, Leaf(v))
  {
    hide Dec, Past, Beyond, At;
    var n := |Encoding(v, map[], 0)|;
    BeyondNone(st, n);
    PastNone(st, n, 0);
    if v.Str? {
      DecStr(e, st, v.s, depth, 0);
    } else {
      DecLeaf(e, st, v, map[], depth, 0);
    }
  }

  lemma SlotMeans(e: Env, st: In, i: byte, depth: nat)
    requires st.off <= |e.p| && At(e.p, st.off, Print(Slot(i))) && Legal(e, st, Slot(i), depth)
    ensures Dec(e, st, depth) == Answer(e, st, Slot(i))
  {
    hide DecPairs;
    assert [77, i] == [77] + [i];
    TagAt(e.p, st.off, 77, [i]);
    assert e.p[st.off + 1..st.off + 2][0] == i;
    assert st.caps + [] == st.caps && [i][0] == i;
    assert Beyond(st, 2, [i], []).bufs == st.bufs[i := None];
  }

  lemma GrantMeans(e: Env, st: In, port: u16, recv: byte, depth: nat)
    requires st.off <= |e.p| && At(e.p, st.off, Print(Grant(port, recv))) && Legal(e, st, Grant(port, recv), depth)
    ensures Dec(e, st, depth) == Answer(e, st, Grant(port, recv))
  {
    hide DecPairs, Le, Beyond, At;
    assert Mintable(e, |st.caps|, [Cap(port, recv != 0)]) && [Cap(port, recv != 0)][0].port == port;
    GrantBytes(e.p, st.off, port, recv);
    BeyondGrant(st, Cap(port, recv != 0));
  }

  lemma GrantBytes(p: seq<byte>, off: nat, port: u16, recv: byte)
    requires At(p, off, [82] + Le(port, 2) + [recv])
    ensures off + 4 <= |p| && p[off] == 82 && U16(p[off + 1..off + 3]) == port && p[off + 3] == recv
  {
    var n := Le(port, 2);
    assert [82] + n + [recv] == [82] + (n + [recv]);
    TagAt(p, off, 82, n + [recv]);
    AtSplit(p, off + 1, n, [recv]);
    assert p[off + 3..off + 4][0] == recv;
    Bounds();
    LeRound(port, 2);
  }

  lemma BeyondGrant(st: In, c: Cap)
    ensures Beyond(st, 4, [], [c]) == st.(off := st.off + 4, caps := st.caps + [c])
  {}

  lemma TabStart(e: Env, st: In, ns: Nodes, depth: nat)
    requires st.off <= |e.p| && At(e.p, st.off, Print(Tab(ns))) && Legal(e, st, Tab(ns), depth)
    ensures st.off + 5 <= |e.p|
    ensures Dec(e, st, depth) == DecPairs(e, st.(off := st.off + 5), depth + 1, Len(ns))
    ensures At(e.p, st.off + 5, PrintAll(ns)) && LegalAll(e, st.(off := st.off + 5), ns, depth + 1)
  {
    hide Dec, DecPairs, At, PrintAll, Le, UnLe, Takes;
    TabBytes(e.p, st.off, ns);
    PrintLong(ns);
    AtEnds(e.p, st.off + 5, PrintAll(ns));
    TableStep(e, st, depth, Len(ns));
    TakesHere(e, st, st.(off := st.off + 5), SlotsAll(ns), CapsAll(ns));
  }

  lemma TabBytes(p: seq<byte>, off: nat, ns: Nodes)
    requires At(p, off, Print(Tab(ns))) && Len(ns) < COUNTS
    ensures off + 5 <= |p| && p[off] == 66 && UnLe(p[off + 1..off + 5]) == Len(ns) && At(p, off + 5, PrintAll(ns))
  {
    hide PrintAll;
    var n := Le(Len(ns), 4);
    var body := PrintAll(ns);
    assert [66] + n + body == [66] + (n + body);
    TagAt(p, off, 66, n + body);
    AtSplit(p, off + 1, n, body);
    Bounds();
    LeRound(Len(ns), 4);
  }

  /** Where the walk stands in the bytes has no part in what may be taken in. */
  lemma TakesHere(e: Env, st: In, s: In, slots: seq<byte>, caps: seq<Cap>)
    requires s == st.(off := s.off)
    ensures Takes(e, st, slots, caps) == Takes(e, s, slots, caps)
  {}

  lemma TabAnswer(e: Env, st: In, ns: Nodes)
    ensures AnswerAll(e, st.(off := st.off + 5), ns) == Answer(e, st, Tab(ns))
  {}

  lemma AllLast(e: Env, st: In, depth: nat)
    requires st.off <= |e.p|
    ensures DecPairs(e, st, depth, 0) == AnswerAll(e, st, Last)
  {
    BeyondNone(st, 0);
  }

  lemma AllInTurn(e: Env, st: In, k: Node, v: Node, rest: Nodes, depth: nat)
    requires depth > 0
    ensures
      var a := Beyond(st, |Print(k)|, Slots(k), Caps(k));
      var b := Beyond(a, |Print(v)|, Slots(v), Caps(v));
      LegalAll(e, st, Two(k, v, rest), depth) <==>
      Legal(e, st, k, depth) && Legal(e, a, v, depth) && LegalAll(e, b, rest, depth)
  {
    hide Takes, Beyond, Print, PrintAll, Slots, SlotsAll, Caps, CapsAll, Deep, DeepAll, Proper, ProperAll;
    var n := |Print(k)|;
    PartsInTurn(k, v, rest);
    TakesSplit(e, st, n + |Print(v)|, Slots(k) + Slots(v), SlotsAll(rest), Caps(k) + Caps(v), CapsAll(rest));
    TakesSplit(e, st, n, Slots(k), Slots(v), Caps(k), Caps(v));
    BeyondTwice(st, n, Slots(k), Caps(k), |Print(v)|, Slots(v), Caps(v));
  }

  lemma PartsInTurn(k: Node, v: Node, rest: Nodes)
    ensures SlotsAll(Two(k, v, rest)) == Slots(k) + Slots(v) + SlotsAll(rest)
    ensures CapsAll(Two(k, v, rest)) == Caps(k) + Caps(v) + CapsAll(rest)
    ensures ProperAll(Two(k, v, rest)) == (Proper(k) && Proper(v) && ProperAll(rest))
    ensures DeepAll(Two(k, v, rest)) == Max(1 + Max(Deep(k), Deep(v)), DeepAll(rest))
    ensures rest == Last ==> DeepAll(rest) == 0
  {
    hide Slots, Caps, Proper, Deep, Max;
  }

  lemma BytesInTurn(e: Env, st: In, k: Node, v: Node, rest: Nodes)
    ensures
      var a := Beyond(st, |Print(k)|, Slots(k), Caps(k));
      var b := Beyond(a, |Print(v)|, Slots(v), Caps(v));
      At(e.p, st.off, PrintAll(Two(k, v, rest))) <==>
      At(e.p, st.off, Print(k)) && At(e.p, a.off, Print(v)) && At(e.p, b.off, PrintAll(rest))
    ensures
      var a := Beyond(st, |Print(k)|, Slots(k), Caps(k));
      At(e.p, st.off, Print(k)) ==> a.off <= |e.p|
    ensures
      var a := Beyond(st, |Print(k)|, Slots(k), Caps(k));
      At(e.p, a.off, Print(v)) ==> Beyond(a, |Print(v)|, Slots(v), Caps(v)).off <= |e.p|
  {
    hide Print;
    AtBoth(e.p, st.off, Print(k) + Print(v), PrintAll(rest));
    AtBoth(e.p, st.off, Print(k), Print(v));
  }

  lemma AtBoth(p: seq<byte>, off: nat, a: seq<byte>, b: seq<byte>)
    ensures At(p, off, a + b) <==> At(p, off, a) && At(p, off + |a|, b)
  {
    if At(p, off, a + b) {
      AtSplit(p, off, a, b);
    }
    if At(p, off, a) && At(p, off + |a|, b) {
      assert p[off..off + |a + b|] == p[off..off + |a|] + p[off + |a|..off + |a| + |b|];
    }
  }

  lemma AnswerInTurn(e: Env, st: In, k: Node, v: Node, rest: Nodes, depth: nat)
    requires st.off <= |e.p|
    requires Dec(e, st, depth) == Answer(e, st, k)
    requires
      var a := Beyond(st, |Print(k)|, Slots(k), Caps(k));
      var b := Beyond(a, |Print(v)|, Slots(v), Caps(v));
      && Legal(e, a, v, depth) && LegalAll(e, b, rest, depth) && a.off <= |e.p| && b.off <= |e.p|
      && Dec(e, a, depth) == Answer(e, a, v) && DecPairs(e, b, depth, Len(rest)) == AnswerAll(e, b, rest)
    ensures DecPairs(e, st, depth, 1 + Len(rest)) == AnswerAll(e, st, Two(k, v, rest))
  {
    hide Dec, DecPairs, Beyond, Takes, Print, Proper, ProperAll, Slots, SlotsAll, Caps, CapsAll, Sees, SeesAll, Deep,
         DeepAll, PrintAll;
    var a := Beyond(st, |Print(k)|, Slots(k), Caps(k));
    var b := Beyond(a, |Print(v)|, Slots(v), Caps(v));
    SeesInTurn(e, st, k, v, rest);
    BeyondInTurn(st, k, v, rest);
    PairStep(e, st, depth, 1 + Len(rest), Sees(e.free, st.bufs, k, |st.caps|), a, Sees(e.free, a.bufs, v, |a.caps|), b,
             SeesAll(e.free, b.bufs, rest, |b.caps|), Beyond(b, |PrintAll(rest)|, SlotsAll(rest), CapsAll(rest)));
  }

  lemma SeesInTurn(e: Env, st: In, k: Node, v: Node, rest: Nodes)
    requires
      var a := Beyond(st, |Print(k)|, Slots(k), Caps(k));
      var b := Beyond(a, |Print(v)|, Slots(v), Caps(v));
      Takes(e, a, Slots(v), Caps(v)) && Takes(e, b, SlotsAll(rest), CapsAll(rest))
    ensures
      var a := Beyond(st, |Print(k)|, Slots(k), Caps(k));
      var b := Beyond(a, |Print(v)|, Slots(v), Caps(v));
      SeesAll(e.free, st.bufs, Two(k, v, rest), |st.caps|) ==
      Pair(Sees(e.free, st.bufs, k, |st.caps|), Sees(e.free, a.bufs, v, |a.caps|),
           SeesAll(e.free, b.bufs, rest, |b.caps|))
  {
    hide Beyond, Takes, Print, Slots, SlotsAll, Caps, CapsAll, Sees;
    var a := Beyond(st, |Print(k)|, Slots(k), Caps(k));
    var b := Beyond(a, |Print(v)|, Slots(v), Caps(v));
    Unseen(e, st, |Print(k)|, Slots(k), Caps(k), Slots(v), Caps(v));
    SeesSame(e.free, a.bufs, st.bufs, v, |st.caps| + |Caps(k)|);
    BeyondTwice(st, |Print(k)|, Slots(k), Caps(k), |Print(v)|, Slots(v), Caps(v));
    Unseen(e, st, |Print(k)| + |Print(v)|, Slots(k) + Slots(v), Caps(k) + Caps(v), SlotsAll(rest), CapsAll(rest));
    SeesSameAll(e.free, b.bufs, st.bufs, rest, |st.caps| + |Caps(k)| + |Caps(v)|);
  }

  lemma BeyondInTurn(st: In, k: Node, v: Node, rest: Nodes)
    ensures
      var a := Beyond(st, |Print(k)|, Slots(k), Caps(k));
      var b := Beyond(a, |Print(v)|, Slots(v), Caps(v));
      Beyond(b, |PrintAll(rest)|, SlotsAll(rest), CapsAll(rest)) ==
      Beyond(st, |PrintAll(Two(k, v, rest))|, SlotsAll(Two(k, v, rest)), CapsAll(Two(k, v, rest)))
  {
    hide Beyond, Print, Slots, Caps;
    BeyondTwice(st, |Print(k)|, Slots(k), Caps(k), |Print(v)|, Slots(v), Caps(v));
    BeyondTwice(st, |Print(k)| + |Print(v)|, Slots(k) + Slots(v), Caps(k) + Caps(v),
                |PrintAll(rest)|, SlotsAll(rest), CapsAll(rest));
  }

  lemma Unseen(e: Env, st: In, n: nat, a: seq<byte>, x: seq<Cap>, b: seq<byte>, y: seq<Cap>)
    requires Takes(e, Beyond(st, n, a, x), b, y)
    ensures |Beyond(st, n, a, x).bufs| == |st.bufs| && |Beyond(st, n, a, x).caps| == |st.caps| + |x|
    ensures forall i | i in b && i < |st.bufs| :: Beyond(st, n, a, x).bufs[i] == st.bufs[i]
  {
    StillThere(st, n, a, x, b);
  }

  /* ---- what is accepted is legal ---- */

  /** Bytes are the number they spell, spelled. */
  lemma {:induction false} LeBack(s: seq<byte>)
    ensures Le(UnLe(s), |s|) == s
    decreases |s|
  {
    if s != [] {
      LeBack(s[1..]);
      assert s == [s[0]] + s[1..];
      var n := UnLe(s[1..]);
      assert (s[0] + 256 * n) % 256 == s[0] && (s[0] + 256 * n) / 256 == n;
    }
  }

  /** What the reader took the bytes here to say. */
  ghost function Parsed(e: Env, st: In, depth: nat): Node
    requires st.off <= |e.p| && Dec(e, st, depth).Ok?
    decreases Fuel(depth), 0
  {
    var tag := e.p[st.off];
    if tag == 77 then Slot(e.p[st.off + 1])
    else if tag == 82 then Grant(U16(e.p[st.off + 1..st.off + 3]), e.p[st.off + 3])
    else if tag == 66 then
      Tab(ParsedAll(e, st.(off := st.off + 5), depth + 1, UnLe(e.p[st.off + 1..st.off + 5])))
    else Leaf(Dec(e, st, depth).v)
  }

  ghost function ParsedAll(e: Env, st: In, depth: nat, n: nat): Nodes
    requires st.off <= |e.p| && DecPairs(e, st, depth, n).Ok?
    decreases Fuel(depth), n + 1
  {
    if n == 0 then Last else
      var a := Dec(e, st, depth);
      var b := Dec(e, a.st, depth);
      Two(Parsed(e, st, depth), Parsed(e, a.st, depth), ParsedAll(e, b.st, depth, n - 1))
  }

  /** What it took them to say is what they spell, and legal. */
  lemma {:induction false} Sound(e: Env, st: In, depth: nat)
    requires st.off <= |e.p| && Dec(e, st, depth).Ok?
    ensures var x := Parsed(e, st, depth); At(e.p, st.off, Print(x)) && Legal(e, st, x, depth)
    decreases Fuel(depth), 0
  {
    hide DecPairs, At, Legal, Print, ParsedAll, UnLe, U16, U64;
    var tag := e.p[st.off];
    if tag == 77 {
      SlotSound(e, st, depth);
    } else if tag == 82 {
      GrantSound(e, st, depth);
    } else if tag == 66 {
      var n := UnLe(e.p[st.off + 1..st.off + 5]);
      SoundAll(e, st.(off := st.off + 5), depth + 1, n);
      TabSound(e, st, depth, n);
    } else {
      LeafSound(e, st, depth);
    }
  }

  lemma {:induction false} SoundAll(e: Env, st: In, depth: nat, n: nat)
    requires st.off <= |e.p| && DecPairs(e, st, depth, n).Ok? && depth > 0
    ensures var ns := ParsedAll(e, st, depth, n);
      Len(ns) == n && At(e.p, st.off, PrintAll(ns)) && LegalAll(e, st, ns, depth)
    decreases Fuel(depth), n + 1
  {
    hide Dec, At, Legal, LegalAll, Print, PrintAll, Parsed, Answer, Beyond;
    if n == 0 {
      NothingLegal(e, st, depth);
    } else {
      var a := Dec(e, st, depth);
      var k := Parsed(e, st, depth);
      Sound(e, st, depth);
      ReadMeans(e, st, k, depth);
      AnswerSt(e, st, k);
      var b := Dec(e, a.st, depth);
      var v := Parsed(e, a.st, depth);
      Sound(e, a.st, depth);
      ReadMeans(e, a.st, v, depth);
      AnswerSt(e, a.st, v);
      SoundAll(e, b.st, depth, n - 1);
      var rest := ParsedAll(e, b.st, depth, n - 1);
      BytesInTurn(e, st, k, v, rest);
      AllInTurn(e, st, k, v, rest, depth);
    }
  }

  lemma NothingLegal(e: Env, st: In, depth: nat)
    requires st.off <= |e.p|
    ensures At(e.p, st.off, PrintAll(Last)) && LegalAll(e, st, Last, depth)
  {}

  lemma AnswerSt(e: Env, st: In, x: Node)
    ensures Answer(e, st, x).Ok? && Answer(e, st, x).st == Beyond(st, |Print(x)|, Slots(x), Caps(x))
  {}

  lemma SlotSound(e: Env, st: In, depth: nat)
    requires st.off <= |e.p| && Dec(e, st, depth).Ok? && e.p[st.off] == 77
    ensures st.off + 2 <= |e.p|
    ensures var x := Slot(e.p[st.off + 1]); At(e.p, st.off, Print(x)) && Legal(e, st, x, depth)
  {
    hide DecPairs, U16, U64, UnLe;
    assert e.p[st.off..st.off + 2] == [77, e.p[st.off + 1]];
  }

  lemma GrantSound(e: Env, st: In, depth: nat)
    requires st.off <= |e.p| && Dec(e, st, depth).Ok? && e.p[st.off] == 82
    ensures st.off + 4 <= |e.p|
    ensures var x := Grant(U16(e.p[st.off + 1..st.off + 3]), e.p[st.off + 3]);
      At(e.p, st.off, Print(x)) && Legal(e, st, x, depth)
  {
    hide DecPairs, U64, UnLe, Le, U16, At;
    GrantSpelled(e.p, st.off);
  }

  lemma GrantSpelled(p: seq<byte>, off: nat)
    ensures off + 4 <= |p| ==> At(p, off, [p[off]] + Le(U16(p[off + 1..off + 3]), 2) + [p[off + 3]])
  {
    hide Le, UnLe;
    if off + 4 <= |p| {
      var s := p[off + 1..off + 3];
      LeBack(s);
      assert p[off..off + 4] == [p[off]] + s + [p[off + 3]];
    }
  }

  lemma TabSound(e: Env, st: In, depth: nat, n: nat)
    requires st.off + 5 <= |e.p| && depth <= MAXDEPTH && e.p[st.off] == 66 && n == UnLe(e.p[st.off + 1..st.off + 5])
    requires DecPairs(e, st.(off := st.off + 5), depth + 1, n).Ok?
    requires var ns := ParsedAll(e, st.(off := st.off + 5), depth + 1, n);
      && Len(ns) == n && At(e.p, st.off + 5, PrintAll(ns)) && LegalAll(e, st.(off := st.off + 5), ns, depth + 1)
    ensures var x := Tab(ParsedAll(e, st.(off := st.off + 5), depth + 1, n));
      At(e.p, st.off, Print(x)) && Legal(e, st, x, depth)
  {
    hide DecPairs, ParsedAll, PrintAll, Le, UnLe, Takes;
    var ns := ParsedAll(e, st.(off := st.off + 5), depth + 1, n);
    var s := e.p[st.off + 1..st.off + 5];
    LeBack(s);
    Bounds();
    assert e.p[st.off..st.off + 5] == [66] + s;
    AtBoth(e.p, st.off, [66] + s, PrintAll(ns));
    TakesHere(e, st, st.(off := st.off + 5), SlotsAll(ns), CapsAll(ns));
  }

  lemma LeafSound(e: Env, st: In, depth: nat)
    requires st.off <= |e.p| && Dec(e, st, depth).Ok? && e.p[st.off] !in {66, 77, 82}
    ensures var x := Leaf(Dec(e, st, depth).v); At(e.p, st.off, Print(x)) && Legal(e, st, x, depth)
  {
    hide DecPairs, U64, UnLe, Le, At, U16;
    var tag := e.p[st.off];
    if tag == 73 || tag == 68 {
      EightSound(e.p, st.off);
    } else if tag == 83 {
      StringSound(e.p, st.off);
    } else {
      TagSound(e.p, st.off);
    }
  }

  lemma TagSound(p: seq<byte>, off: nat)
    requires off < |p|
    ensures At(p, off, [p[off]])
  {
    assert p[off..off + 1] == [p[off]];
  }

  lemma EightSound(p: seq<byte>, off: nat)
    requires off + 9 <= |p|
    ensures At(p, off, [p[off]] + Le(U64(p[off + 1..off + 9]), 8))
    ensures Unsigned(Signed(U64(p[off + 1..off + 9]))) == U64(p[off + 1..off + 9])
  {
    var s := p[off + 1..off + 9];
    LeBack(s);
    assert p[off..off + 9] == [p[off]] + s;
  }

  lemma StringSound(p: seq<byte>, off: nat)
    requires off + 5 <= |p|
    ensures var n := UnLe(p[off + 1..off + 5]);
      off + 5 + n <= |p| ==> n < COUNTS && At(p, off, [p[off]] + Le(n, 4) + p[off + 5..off + 5 + n])
  {
    var s := p[off + 1..off + 5];
    var n := UnLe(s);
    LeBack(s);
    Bounds();
    if off + 5 + n <= |p| {
      assert p[off..off + 5 + n] == [p[off]] + s + p[off + 5..off + 5 + n];
    }
  }

  /** Something legal is spelled out here. */
  ghost predicate Spelled(e: Env, st: In, depth: nat)
  {
    exists x :: At(e.p, st.off, Print(x)) && Legal(e, st, x, depth)
  }

  /** The reader accepts exactly the bytes that spell something legal: no deeper than MAXDEPTH, every buffer one of the
      message's and named once, every right to a port that exists and with a handle to be had for it. */
  lemma ReadExact(e: Env, st: In, depth: nat)
    requires st.off <= |e.p|
    ensures Dec(e, st, depth).Ok? <==> Spelled(e, st, depth)
    ensures forall x | At(e.p, st.off, Print(x)) && Legal(e, st, x, depth) :: Dec(e, st, depth) == Answer(e, st, x)
  {
    hide Dec, At, Legal, Print, Answer;
    if Dec(e, st, depth).Ok? {
      Sound(e, st, depth);
    }
    forall x | At(e.p, st.off, Print(x)) && Legal(e, st, x, depth)
      ensures Dec(e, st, depth) == Answer(e, st, x) && Dec(e, st, depth).Ok?
    {
      ReadMeans(e, st, x, depth);
      AnswerSt(e, st, x);
    }
  }

  /* ---- the two ways to refuse ---- */

  /** f is e with more handles and more room. */
  ghost predicate Roomier(e: Env, f: Env)
  {
    f.p == e.p && f.ports == e.ports && e.free <= f.free && e.room <= f.room
  }

  /** Bytes that are refused as bad are bad whatever room there is, and bytes accepted are accepted the same with more:
      only the other refusal is about room. */
  lemma {:induction false} BadStays(e: Env, f: Env, st: In, depth: nat)
    requires st.off <= |e.p| && Roomier(e, f)
    ensures !Dec(e, st, depth).Limit? ==> Dec(f, st, depth) == Dec(e, st, depth)
    decreases Fuel(depth), 0
  {
    hide DecPairs, UnLe, U16, U64;
    if depth <= MAXDEPTH && st.off + 5 <= |e.p| && e.p[st.off] == 66 {
      BadStaysAll(e, f, st.(off := st.off + 5), depth + 1, UnLe(e.p[st.off + 1..st.off + 5]));
    }
  }

  lemma {:induction false} BadStaysAll(e: Env, f: Env, st: In, depth: nat, n: nat)
    requires st.off <= |e.p| && Roomier(e, f)
    ensures !DecPairs(e, st, depth, n).Limit? ==> DecPairs(f, st, depth, n) == DecPairs(e, st, depth, n)
    decreases Fuel(depth), n + 1
  {
    hide Dec;
    if n > 0 {
      BadStays(e, f, st, depth);
      var a := Dec(e, st, depth);
      if a.Ok? {
        BadStays(e, f, a.st, depth);
        var b := Dec(e, a.st, depth);
        if b.Ok? {
          BadStaysAll(e, f, b.st, depth, n - 1);
        }
      }
    }
  }

  /** Room for every buffer of the message, and for as many rights as any message may have. */
  ghost predicate Ample(e: Env, st: In)
  {
    |e.free| >= MAXMSGRIGHTS && st.taken + Left(st.bufs) <= e.room
  }

  ghost function Left(bufs: seq<Option<seq<byte>>>): nat
  {
    if bufs == [] then 0 else (if bufs[0].Some? then 1 else 0) + Left(bufs[1..])
  }

  lemma {:induction false} LeftLess(bufs: seq<Option<seq<byte>>>, i: nat)
    requires i < |bufs| && bufs[i].Some?
    ensures Left(bufs) >= 1 && Left(bufs[i := None]) == Left(bufs) - 1
  {
    if i > 0 {
      LeftLess(bufs[1..], i - 1);
      assert bufs[i := None][1..] == bufs[1..][i - 1 := None];
    }
  }

  /** With ample room the reader never blames the room. */
  lemma {:induction false} NeverShort(e: Env, st: In, depth: nat)
    requires st.off <= |e.p| && Ample(e, st)
    ensures !Dec(e, st, depth).Limit? && Ample(e, Dec(e, st, depth).st)
    decreases Fuel(depth), 0
  {
    hide DecPairs, UnLe, U16, U64, Left;
    if depth <= MAXDEPTH && st.off + 5 <= |e.p| && e.p[st.off] == 66 {
      NeverShortAll(e, st.(off := st.off + 5), depth + 1, UnLe(e.p[st.off + 1..st.off + 5]));
    }
    if st.off + 2 <= |e.p| && e.p[st.off + 1] < |st.bufs| && st.bufs[e.p[st.off + 1]].Some? {
      LeftLess(st.bufs, e.p[st.off + 1]);
    }
  }

  lemma {:induction false} NeverShortAll(e: Env, st: In, depth: nat, n: nat)
    requires st.off <= |e.p| && Ample(e, st)
    ensures !DecPairs(e, st, depth, n).Limit? && Ample(e, DecPairs(e, st, depth, n).st)
    decreases Fuel(depth), n + 1
  {
    hide Dec, Ample;
    if n > 0 {
      NeverShort(e, st, depth);
      var a := Dec(e, st, depth);
      if a.Ok? {
        NeverShort(e, a.st, depth);
        var b := Dec(e, a.st, depth);
        if b.Ok? {
          NeverShortAll(e, b.st, depth, n - 1);
        }
      }
    }
  }
}
