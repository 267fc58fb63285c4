/** deserialize: total on any bytes, inside them, and the inverse of serialize. */
module WireRead {
  import opened Options
  import opened Wire
  import opened WireProofs

  /** What a walk reads against: the bytes, the ports that exist, the handles right_new would give the receiver, in
      order, and how many buffers it may take in. */
  datatype Env = Env(p: seq<byte>, ports: set<int>, free: seq<int>, room: nat)

  /** The walk's progress: offset, rights minted, the message's buffers still unclaimed, and buffers taken. */
  datatype In = In(off: nat, caps: seq<Cap>, bufs: seq<Option<seq<byte>>>, taken: nat)

  /** -1 is Bad, -2 is Limit. */
  datatype Got = Ok(v: Value, st: In) | Bad(st: In) | Limit(st: In)

  lemma Bounds()
    ensures Bound(2) == 0x1_0000 && Bound(4) == 0x1_0000_0000 && Bound(8) == 0x1_0000_0000_0000_0000
  {
    assert Bound(1) == 256 && Bound(2) == 65536 && Bound(3) == 0x100_0000;
    assert Bound(5) == 0x100_0000_0000 && Bound(6) == 0x1_0000_0000_0000 && Bound(7) == 0x100_0000_0000_0000;
  }

  function U64(s: seq<byte>): u64
    requires |s| == 8
  {
    Bounds();
    UnLe(s)
  }

  function U16(s: seq<byte>): u16
    requires |s| == 2
  {
    Bounds();
    UnLe(s)
  }

  function Fuel(depth: nat): nat
  {
    if depth > MAXDEPTH then 0 else MAXDEPTH + 1 - depth
  }

  /** deserialize. */
  function Dec(e: Env, st: In, depth: nat): (r: Got)
    requires st.off <= |e.p|
    ensures r.st.off <= |e.p| && (r.Ok? ==> st.off < r.st.off)
    ensures st.off <= r.st.off && st.caps <= r.st.caps && |r.st.bufs| == |st.bufs|
    decreases Fuel(depth), 0
  {
    if depth > MAXDEPTH || st.off >= |e.p| then Bad(st) else
    var tag := e.p[st.off];
    var s := st.(off := st.off + 1);
    if tag == 78 then Ok(Nil, s)
    else if tag == 84 then Ok(Bool(true), s)
    else if tag == 70 then Ok(Bool(false), s)
    else if tag == 73 || tag == 68 then
      if s.off + 8 > |e.p| then Bad(s) else
        var u := U64(e.p[s.off..s.off + 8]);
        Ok(if tag == 73 then Int(Signed(u)) else Num(u), s.(off := s.off + 8))
    else if tag == 83 then
      if s.off + 4 > |e.p| then Bad(s) else
        var n := UnLe(e.p[s.off..s.off + 4]);
        var t := s.(off := s.off + 4);
        if t.off + n > |e.p| then Bad(t) else Ok(Str(e.p[t.off..t.off + n]), t.(off := t.off + n))
    else if tag == 66 then
      if s.off + 4 > |e.p| then Bad(s) else
        var n := UnLe(e.p[s.off..s.off + 4]);
        var t := s.(off := s.off + 4);
        if n > (|e.p| - t.off) / 2 then Bad(t) else DecPairs(e, t, depth + 1, n)
    else if tag == 77 then
      if s.off >= |e.p| then Bad(s) else
        var i := e.p[s.off];
        var t := s.(off := s.off + 1);
        if i >= |t.bufs| || t.bufs[i] == None then Bad(t)
        else if t.taken >= e.room then Limit(t)
        else Ok(Bytes(t.bufs[i].value), t.(bufs := t.bufs[i := None], taken := t.taken + 1))
    else if tag == 82 then
      if s.off + 3 > |e.p| then Bad(s) else
        var port := U16(e.p[s.off..s.off + 2]);
        var t := s.(off := s.off + 3);
        if port !in e.ports || |t.caps| >= MAXMSGRIGHTS then Bad(t)
        else if |t.caps| >= |e.free| then Limit(t)
        else Ok(Right(e.free[|t.caps|]), t.(caps := t.caps + [Cap(port, e.p[s.off + 2] != 0)]))
    else Bad(s)
  }

  /** The n pairs of a table. */
  function DecPairs(e: Env, st: In, depth: nat, n: nat): (r: Got)
    requires st.off <= |e.p|
    ensures r.st.off <= |e.p| && (r.Ok? ==> r.v.Table?)
    ensures st.off <= r.st.off && st.caps <= r.st.caps && |r.st.bufs| == |st.bufs|
    decreases Fuel(depth), n + 1
  {
    if n == 0 then Ok(Table(End), st) else
    var a := Dec(e, st, depth);
    if !a.Ok? then a else
    var b := Dec(e, a.st, depth);
    if !b.Ok? then b else
    var r := DecPairs(e, b.st, depth, n - 1);
    if !r.Ok? then r else Ok(Table(Pair(a.v, b.v, r.v.pairs)), r.st)
  }

  /* ---- what arrives ---- */

  /** The value a receiver sees: rights renumbered from its own handles, bare buffers as strings, given buffers
      as its own. m rights were minted before. A table is the assignments made to it, in order. */
  function Arrives(v: Value, tab: Rights, free: seq<int>, m: nat): Value
  {
    match v
    case Bytes(s) => Str(s)
    case Buf(_, s) => Bytes(s)
    case Right(h) => Right(if m < |free| then free[m] else h)
    case Table(ps) => Table(ArrivesPairs(ps, tab, free, m))
    case _ => v
  }

  function ArrivesPairs(ps: Pairs, tab: Rights, free: seq<int>, m: nat): Pairs
  {
    match ps
    case End => End
    case Pair(k, v, rest) =>
      Pair(Arrives(k, tab, free, m), Arrives(v, tab, free, m + |Refs(k, tab)|),
           ArrivesPairs(rest, tab, free, m + |Refs(k, tab)| + |Refs(v, tab)|))
  }

  /** The bytes of a key that arrives as a string. */
  function Text(k: Value): Option<seq<byte>>
  {
    match k
    case Str(s) => Some(s)
    case Bytes(s) => Some(s)
    case _ => None
  }

  predicate Plain(k: Value)
  {
    k.Nil? || k.Bool? || k.Int? || k.Num? || k.Str? || k.Bytes?
  }

  /** Two different plain keys of a table arrive as one, the later assignment winning, exactly when they are a string
      or a bare buffer of the same bytes. Without bare buffers every pair survives. */
  lemma KeysMeet(j: Value, k: Value, tab: Rights, free: seq<int>, m: nat, n: nat)
    requires Plain(j) && Plain(k) && j != k
    ensures Arrives(j, tab, free, m) == Arrives(k, tab, free, n) <==> Text(j).Some? && Text(j) == Text(k)
    ensures !j.Bytes? && !k.Bytes? ==> Arrives(j, tab, free, m) != Arrives(k, tab, free, n)
  {}

  /** bufs with slots nb..nb+n emptied. */
  function Claimed(bufs: seq<Option<seq<byte>>>, nb: nat, n: nat): (r: seq<Option<seq<byte>>>)
    ensures |r| == |bufs|
  {
    seq(|bufs|, i requires 0 <= i < |bufs| => if nb <= i < nb + n then None else bufs[i])
  }

  ghost predicate At(p: seq<byte>, off: nat, bs: seq<byte>)
  {
    off + |bs| <= |p| && p[off..off + |bs|] == bs
  }

  lemma AtSplit(p: seq<byte>, off: nat, a: seq<byte>, b: seq<byte>)
    requires At(p, off, a + b)
    ensures At(p, off, a) && At(p, off + |a|, b)
  {
    var s := p[off..off + |a + b|];
    assert s[..|a|] == a && s[|a|..] == b;
    assert p[off..off + |a|] == s[..|a|];
    assert p[off + |a|..off + |a| + |b|] == s[|a|..];
  }

  /** Enough room at the receiver for refs and bufs more, with the buffers waiting from slot nb. */
  ghost predicate Room(e: Env, st: In, refs: seq<Cap>, bufs: seq<(nat, seq<byte>)>, nb: nat)
  {
    && st.off <= |e.p| && |st.caps| + |refs| <= MAXMSGRIGHTS && |st.caps| + |refs| <= |e.free|
    && (forall i | 0 <= i < |refs| :: refs[i].port in e.ports)
    && nb + |bufs| <= |st.bufs| && nb + |bufs| <= 256 && st.taken + |bufs| <= e.room
    && (forall i | 0 <= i < |bufs| :: st.bufs[nb + i] == Some(bufs[i].1))
  }

  ghost function Past(st: In, n: nat, refs: seq<Cap>, nb: nat, k: nat): In
  {
    In(st.off + n, st.caps + refs, Claimed(st.bufs, nb, k), st.taken + k)
  }

  lemma PastNone(st: In, n: nat, nb: nat)
    ensures Past(st, n, [], nb, 0) == st.(off := st.off + n)
  {
    assert Claimed(st.bufs, nb, 0) == st.bufs;
    assert st.caps + [] == st.caps;
  }

  lemma PastTwice(st: In, n: nat, a: seq<Cap>, i: nat, m: nat, b: seq<Cap>, j: nat, nb: nat)
    ensures Past(Past(st, n, a, nb, i), m, b, nb + i, j) == Past(st, n + m, a + b, nb, i + j)
  {
    assert st.caps + a + b == st.caps + (a + b);
    assert Claimed(Claimed(st.bufs, nb, i), nb + i, j) == Claimed(st.bufs, nb, i + j);
  }

  /* ---- the round trip ---- */

  /** Reading where v was written gives v as it arrives, takes exactly its bytes, and mints its rights in order. */
  lemma {:induction false} DecEnc(e: Env, st: In, v: Value, tab: Rights, depth: nat, nb: nat)
    requires Clean(v, tab) && depth + Depth(v) <= MAXDEPTH && |Encoding(v, tab, nb)| <= MAXMSG
    requires At(e.p, st.off, Encoding(v, tab, nb)) && Room(e, st, Refs(v, tab), Bufs(v), nb)
    ensures Dec(e, st, depth) == Ok(Arrives(v, tab, e.free, |st.caps|),
                                    Past(st, |Encoding(v, tab, nb)|, Refs(v, tab), nb, |Bufs(v)|))
    decreases Size(v), 0
  {
    match v {
      case Table(ps) => DecTable(e, st, ps, tab, depth, nb);
      case Right(h) => DecRight(e, st, h, tab, depth, nb);
      case Buf(handle, s) => DecBuf(e, st, handle, s, tab, depth, nb);
      case Str(s) => DecStr(e, st, s, depth, nb);
      case Bytes(s) => DecStr(e, st, s, depth, nb);
      case _ => DecLeaf(e, st, v, tab, depth, nb);
    }
  }

  lemma TagAt(p: seq<byte>, off: nat, tag: byte, b: seq<byte>)
    requires At(p, off, [tag] + b)
    ensures off < |p| && p[off] == tag && At(p, off + 1, b)
  {
    AtSplit(p, off, [tag], b);
    assert p[off..off + 1][0] == tag;
  }

  lemma DecLeaf(e: Env, st: In, v: Value, tab: Rights, depth: nat, nb: nat)
    requires v.Nil? || v.Bool? || v.Int? || v.Num?
    requires depth <= MAXDEPTH && At(e.p, st.off, Encoding(v, tab, nb)) && st.off <= |e.p|
    ensures Dec(e, st, depth) == Ok(v, Past(st, |Encoding(v, tab, nb)|, [], nb, 0))
  {
    hide Claimed, Past, DecPairs, Le, Bound, UnLe;
    PastNone(st, |Encoding(v, tab, nb)|, nb);
    match v {
      case Nil => TagAt(e.p, st.off, 78, []);
      case Bool(b) => TagAt(e.p, st.off, if b then 84 else 70, []);
      case Int(i) => TagAt(e.p, st.off, 73, Le(Unsigned(i), 8)); Bounds(); LeRound(Unsigned(i), 8);
      case Num(bits) => TagAt(e.p, st.off, 68, Le(bits, 8)); Bounds(); LeRound(bits, 8);
    }
  }

  lemma DecStr(e: Env, st: In, s: seq<byte>, depth: nat, nb: nat)
    requires depth <= MAXDEPTH && |s| < 0x1_0000_0000 && At(e.p, st.off, [83] + Le(|s|, 4) + s) && st.off <= |e.p|
    ensures Dec(e, st, depth) == Ok(Str(s), Past(st, |[83] + Le(|s|, 4) + s|, [], nb, 0))
  {
    hide Claimed, Le, Past, Dec, Bound, UnLe;
    var n := Le(|s|, 4);
    PastNone(st, |[83] + n + s|, nb);
    assert [83] + n + s == [83] + (n + s);
    TagAt(e.p, st.off, 83, n + s);
    AtSplit(e.p, st.off + 1, n, s);
    Bounds();
    LeRound(|s|, 4);
    StrStep(e, st, depth, |s|);
  }

  lemma StrStep(e: Env, st: In, depth: nat, n: nat)
    requires depth <= MAXDEPTH && st.off + 5 + n <= |e.p| && e.p[st.off] == 83
    requires UnLe(e.p[st.off + 1..st.off + 5]) == n
    ensures Dec(e, st, depth) == Ok(Str(e.p[st.off + 5..st.off + 5 + n]), st.(off := st.off + 5 + n))
  {
    hide UnLe, DecPairs;
  }

  lemma DecRight(e: Env, st: In, h: int, tab: Rights, depth: nat, nb: nat)
    requires h in tab && depth <= MAXDEPTH && At(e.p, st.off, Encoding(Right(h), tab, nb))
    requires Room(e, st, [tab[h]], [], nb)
    ensures Dec(e, st, depth) == Ok(Right(e.free[|st.caps|]), Past(st, 4, [tab[h]], nb, 0))
  {
    assert Claimed(st.bufs, nb, 0) == st.bufs;
    hide Claimed;
    var n := Le(tab[h].port, 2);
    var r: seq<byte> := [if tab[h].recv then 1 else 0];
    assert [82] + n + r == [82] + (n + r);
    TagAt(e.p, st.off, 82, n + r);
    AtSplit(e.p, st.off + 1, n, r);
    assert e.p[st.off + 3..st.off + 4][0] == r[0];
    Bounds();
    LeRound(tab[h].port, 2);
    assert tab[h] == [tab[h]][0];
  }

  lemma DecBuf(e: Env, st: In, handle: nat, s: seq<byte>, tab: Rights, depth: nat, nb: nat)
    requires depth <= MAXDEPTH && At(e.p, st.off, Encoding(Buf(handle, s), tab, nb))
    requires Room(e, st, [], [(handle, s)], nb)
    ensures Dec(e, st, depth) == Ok(Bytes(s), Past(st, 2, [], nb, 1))
  {
    assert st.bufs[nb + 0] == Some([(handle, s)][0].1);
    assert Claimed(st.bufs, nb, 1) == st.bufs[nb := None];
    hide Claimed;
    var b: seq<byte> := [nb % 256];
    assert Encoding(Buf(handle, s), tab, nb) == [77] + b;
    TagAt(e.p, st.off, 77, b);
    assert e.p[st.off + 1..st.off + 2][0] == b[0];
    assert st.caps + [] == st.caps;
  }

  /** Every pair takes at least two bytes, which is what lets the reader bound a count. */
  lemma {:induction false} PairBytes(ps: Pairs, tab: Rights, nb: nat)
    requires CleanPairs(ps, tab)
    ensures |EncodingPairs(ps, tab, nb)| >= 2 * Count(ps)
    decreases ps
  {
    if ps != End {
      PairBytes(ps.rest, tab, nb + |Bufs(ps.k)| + |Bufs(ps.v)|);
    }
  }

  lemma DecTable(e: Env, st: In, ps: Pairs, tab: Rights, depth: nat, nb: nat)
    requires CleanPairs(ps, tab) && depth + DepthPairs(ps) <= MAXDEPTH && |Encoding(Table(ps), tab, nb)| <= MAXMSG
    requires At(e.p, st.off, Encoding(Table(ps), tab, nb)) && Room(e, st, RefsPairs(ps, tab), BufsPairs(ps), nb)
    ensures Dec(e, st, depth) == Ok(Table(ArrivesPairs(ps, tab, e.free, |st.caps|)),
                                    Past(st, |Encoding(Table(ps), tab, nb)|, RefsPairs(ps, tab), nb, |BufsPairs(ps)|))
    decreases SizePairs(ps), 1
  {
    hide Claimed, Dec, DecPairs, EncodingPairs, RefsPairs, BufsPairs, Past;
    var n := Le(Count(ps), 4);
    var body := EncodingPairs(ps, tab, nb);
    assert Encoding(Table(ps), tab, nb) == [66] + (n + body);
    TagAt(e.p, st.off, 66, n + body);
    AtSplit(e.p, st.off + 1, n, body);
    PairBytes(ps, tab, nb);
    Bounds();
    LeRound(Count(ps), 4);
    var t := st.(off := st.off + 5);
    DecPairsEnc(e, t, ps, tab, depth + 1, nb);
    TableStep(e, st, depth, Count(ps));
    PastHeader(st, |body|, RefsPairs(ps, tab), nb, |BufsPairs(ps)|);
  }

  lemma PastHeader(st: In, n: nat, refs: seq<Cap>, nb: nat, j: nat)
    ensures Past(st.(off := st.off + 5), n, refs, nb, j) == Past(st, 5 + n, refs, nb, j)
  {
    hide Claimed;
  }

  lemma TableStep(e: Env, st: In, depth: nat, n: nat)
    requires depth <= MAXDEPTH && st.off + 5 <= |e.p| && e.p[st.off] == 66 && UnLe(e.p[st.off + 1..st.off + 5]) == n
    requires 2 * n <= |e.p| - st.off - 5
    ensures Dec(e, st, depth) == DecPairs(e, st.(off := st.off + 5), depth + 1, n)
  {}

  /** Room for all of it is room for each part in turn. */
  lemma RoomInTurn(e: Env, st: In, a: seq<Cap>, b: seq<Cap>, x: seq<(nat, seq<byte>)>, y: seq<(nat, seq<byte>)>,
                   nb: nat, n: nat)
    requires Room(e, st, a + b, x + y, nb) && st.off + n <= |e.p|
    ensures Room(e, st, a, x, nb) && Room(e, Past(st, n, a, nb, |x|), b, y, nb + |x|)
  {
    var t := Past(st, n, a, nb, |x|);
    forall i | 0 <= i < |a|
      ensures a[i].port in e.ports
    {
      assert (a + b)[i] == a[i];
    }
    forall i | 0 <= i < |b|
      ensures b[i].port in e.ports
    {
      assert (a + b)[|a| + i] == b[i];
    }
    forall i | 0 <= i < |x|
      ensures st.bufs[nb + i] == Some(x[i].1)
    {
      assert (x + y)[i] == x[i];
    }
    forall i | 0 <= i < |y|
      ensures t.bufs[nb + |x| + i] == Some(y[i].1)
    {
      assert (x + y)[|x| + i] == y[i];
      assert st.bufs[nb + (|x| + i)] == Some(y[i].1);
    }
  }

  lemma {:induction false} DecPairsEnc(e: Env, st: In, ps: Pairs, tab: Rights, depth: nat, nb: nat)
    requires CleanPairs(ps, tab) && 0 < depth && (ps == End || depth - 1 + DepthPairs(ps) <= MAXDEPTH)
    requires |EncodingPairs(ps, tab, nb)| <= MAXMSG
    requires At(e.p, st.off, EncodingPairs(ps, tab, nb)) && Room(e, st, RefsPairs(ps, tab), BufsPairs(ps), nb)
    ensures DecPairs(e, st, depth, Count(ps)) == PairsGot(e, st, ps, tab, nb)
    decreases SizePairs(ps), 0
  {
    hide Encoding, EncodingPairs, Refs, RefsPairs, Bufs, BufsPairs, Room, At, Past, Clean, CleanPairs, Dec, DecPairs,
         Depth, DepthPairs, Claimed, Arrives, ArrivesPairs, PairsGot;
    if ps == End {
      AtEnds(e.p, st.off, EncodingPairs(ps, tab, nb));
      DecEnd(e, st, tab, depth, nb);
    } else {
      var k, v, rest := ps.k, ps.v, ps.rest;
      EncodingPair(k, v, rest, tab, nb);
      var nk, nv := nb + |Bufs(k)|, nb + |Bufs(k)| + |Bufs(v)|;
      var ek, ev, er := Encoding(k, tab, nb), Encoding(v, tab, nk), EncodingPairs(rest, tab, nv);
      AtSplit(e.p, st.off, ek + ev, er);
      AtSplit(e.p, st.off, ek, ev);
      AtEnds(e.p, st.off, ek);
      RoomInTurn2(e, st, k, v, rest, tab, nb, |ek|, |ev|);
      DecEnc(e, st, k, tab, depth, nb);
      var a := Past(st, |ek|, Refs(k, tab), nb, |Bufs(k)|);
      PastFields(st, |ek|, Refs(k, tab), nb, |Bufs(k)|);
      DecEnc(e, a, v, tab, depth, nk);
      var b := Past(a, |ev|, Refs(v, tab), nk, |Bufs(v)|);
      PastFields(a, |ev|, Refs(v, tab), nk, |Bufs(v)|);
      DecPairsEnc(e, b, rest, tab, depth, nv);
      GotIs(e, b, rest, tab, nv);
      assert PairsGot(e, b, rest, tab, nv) == Ok(Table(ArrivesPairs(rest, tab, e.free, |b.caps|)),
                                                 Past(b, |er|, RefsPairs(rest, tab), nv, |BufsPairs(rest)|));
      var c := Past(b, |er|, RefsPairs(rest, tab), nv, |BufsPairs(rest)|);
      GotInTurn(e, st, k, v, rest, tab, nb);
      PairStep(e, st, depth, Count(ps), Arrives(k, tab, e.free, |st.caps|), a, Arrives(v, tab, e.free, |a.caps|), b,
               ArrivesPairs(rest, tab, e.free, |b.caps|), c);
    }
  }

  lemma DecEnd(e: Env, st: In, tab: Rights, depth: nat, nb: nat)
    requires st.off <= |e.p|
    ensures DecPairs(e, st, depth, 0) == PairsGot(e, st, End, tab, nb)
  {
    hide Past, Dec;
    PastNone(st, 0, nb);
    assert EncodingPairs(End, tab, nb) == [] && RefsPairs(End, tab) == [] && BufsPairs(End) == [];
  }

  lemma GotIs(e: Env, st: In, ps: Pairs, tab: Rights, nb: nat)
    ensures PairsGot(e, st, ps, tab, nb) ==
      Ok(Table(ArrivesPairs(ps, tab, e.free, |st.caps|)),
         Past(st, |EncodingPairs(ps, tab, nb)|, RefsPairs(ps, tab), nb, |BufsPairs(ps)|))
  {}

  ghost function PairsGot(e: Env, st: In, ps: Pairs, tab: Rights, nb: nat): Got
  {
    Ok(Table(ArrivesPairs(ps, tab, e.free, |st.caps|)),
       Past(st, |EncodingPairs(ps, tab, nb)|, RefsPairs(ps, tab), nb, |BufsPairs(ps)|))
  }

  lemma GotInTurn(e: Env, st: In, k: Value, v: Value, rest: Pairs, tab: Rights, nb: nat)
    ensures var nk, nv := nb + |Bufs(k)|, nb + |Bufs(k)| + |Bufs(v)|;
      var ek, ev, er := Encoding(k, tab, nb), Encoding(v, tab, nk), EncodingPairs(rest, tab, nv);
      var a := Past(st, |ek|, Refs(k, tab), nb, |Bufs(k)|);
      var b := Past(a, |ev|, Refs(v, tab), nk, |Bufs(v)|);
      PairsGot(e, st, Pair(k, v, rest), tab, nb) ==
      Ok(Table(Pair(Arrives(k, tab, e.free, |st.caps|), Arrives(v, tab, e.free, |a.caps|),
                    ArrivesPairs(rest, tab, e.free, |b.caps|))),
         Past(b, |er|, RefsPairs(rest, tab), nv, |BufsPairs(rest)|))
  {
    hide Encoding, EncodingPairs, Refs, RefsPairs, Bufs, BufsPairs, Past, Arrives;
    EncodingPair(k, v, rest, tab, nb);
    var nk, nv := nb + |Bufs(k)|, nb + |Bufs(k)| + |Bufs(v)|;
    var ek, ev, er := Encoding(k, tab, nb), Encoding(v, tab, nk), EncodingPairs(rest, tab, nv);
    var a := Past(st, |ek|, Refs(k, tab), nb, |Bufs(k)|);
    PastFields(st, |ek|, Refs(k, tab), nb, |Bufs(k)|);
    PastFields(a, |ev|, Refs(v, tab), nk, |Bufs(v)|);
    PastTwice(st, |ek|, Refs(k, tab), |Bufs(k)|, |ev|, Refs(v, tab), |Bufs(v)|, nb);
    PastTwice(st, |ek| + |ev|, Refs(k, tab) + Refs(v, tab), |Bufs(k)| + |Bufs(v)|, |er|, RefsPairs(rest, tab),
              |BufsPairs(rest)|, nb);
  }

  lemma PairStep(e: Env, st: In, depth: nat, n: nat, k: Value, a: In, v: Value, b: In, rest: Pairs, c: In)
    requires n > 0 && st.off <= |e.p| && a.off <= |e.p| && b.off <= |e.p|
    requires Dec(e, st, depth) == Ok(k, a) && Dec(e, a, depth) == Ok(v, b)
    requires DecPairs(e, b, depth, n - 1) == Ok(Table(rest), c)
    ensures DecPairs(e, st, depth, n) == Ok(Table(Pair(k, v, rest)), c)
  {}

  lemma AtEnds(p: seq<byte>, off: nat, a: seq<byte>)
    requires At(p, off, a)
    ensures off + |a| <= |p|
  {}

  lemma PastFields(st: In, n: nat, refs: seq<Cap>, nb: nat, k: nat)
    ensures Past(st, n, refs, nb, k).off == st.off + n && |Past(st, n, refs, nb, k).caps| == |st.caps| + |refs|
  {}

  lemma RoomInTurn2(e: Env, st: In, k: Value, v: Value, rest: Pairs, tab: Rights, nb: nat, n: nat, m: nat)
    requires Room(e, st, RefsPairs(Pair(k, v, rest), tab), BufsPairs(Pair(k, v, rest)), nb) && st.off + n + m <= |e.p|
    ensures Room(e, st, Refs(k, tab), Bufs(k), nb)
    ensures var a := Past(st, n, Refs(k, tab), nb, |Bufs(k)|);
      && Room(e, a, Refs(v, tab), Bufs(v), nb + |Bufs(k)|)
      && Room(e, Past(a, m, Refs(v, tab), nb + |Bufs(k)|, |Bufs(v)|), RefsPairs(rest, tab), BufsPairs(rest),
              nb + |Bufs(k)| + |Bufs(v)|)
  {
    hide Room, Past, Refs, RefsPairs, Bufs, BufsPairs;
    EncodingPair(k, v, rest, tab, nb);
    RoomForThree(e, st, Refs(k, tab), Refs(v, tab), RefsPairs(rest, tab), Bufs(k), Bufs(v), BufsPairs(rest), nb, n, m);
  }

  lemma RoomForThree(e: Env, st: In, a: seq<Cap>, b: seq<Cap>, c: seq<Cap>, x: seq<(nat, seq<byte>)>,
                     y: seq<(nat, seq<byte>)>, z: seq<(nat, seq<byte>)>, nb: nat, n: nat, m: nat)
    requires Room(e, st, a + b + c, x + y + z, nb) && st.off + n + m <= |e.p|
    ensures Room(e, st, a, x, nb)
    ensures var t := Past(st, n, a, nb, |x|);
      Room(e, t, b, y, nb + |x|) && Room(e, Past(t, m, b, nb + |x|, |y|), c, z, nb + |x| + |y|)
  {
    hide Room, Past;
    RoomInTurn(e, st, a + b, c, x + y, z, nb, n + m);
    RoomInTurn(e, st, a, b, x, y, nb, n);
    PastTwice(st, n, a, |x|, m, b, |y|, nb);
  }
}
