/** serialize accepts exactly the values within its limits, and writes exactly their encoding. */
module WireProofs {
  import opened Wire

  lemma DistinctPrefix(a: seq<(nat, seq<byte>)>, b: seq<(nat, seq<byte>)>)
    requires Distinct(a + b)
    ensures Distinct(a)
  {
    forall i, j | 0 <= i < j < |a|
      ensures a[i].0 != a[j].0
    {
      assert (a + b)[i] == a[i] && (a + b)[j] == a[j];
    }
  }

  lemma DistinctOne(a: seq<(nat, seq<byte>)>, handle: nat, s: seq<byte>)
    requires Distinct(a)
    ensures Distinct(a + [(handle, s)]) <==> !Given(a, handle)
  {
    var b := a + [(handle, s)];
    if Given(a, handle) {
      var j :| 0 <= j < |a| && a[j].0 == handle;
      assert b[j].0 == b[|a|].0;
    }
  }

  lemma EmptyTail<T>(a: seq<T>)
    ensures a + [] == a
  {}

  lemma {:induction false} EncIff(w: Out, v: Value, tab: Rights, depth: nat)
    requires Sane(w)
    ensures Enc(w, v, tab, depth).ok <==> Fits(w, v, tab, depth)
    ensures Enc(w, v, tab, depth).ok ==> Enc(w, v, tab, depth).w == After(w, v, tab)
    decreases Size(v), 0
  {
    if depth <= MAXDEPTH {
      match v {
        case Right(h) => RightIff(w, h, tab, depth);
        case Buf(handle, s) => BufIff(w, handle, s, tab, depth);
        case Table(ps) => TableIff(w, ps, tab, depth);
        case Str(s) => StrIff(w, s);
        case Bytes(s) => StrIff(w, s);
        case _ => LeafIff(w, v, tab, depth);
      }
    }
  }

  lemma LeafIff(w: Out, v: Value, tab: Rights, depth: nat)
    requires Sane(w) && depth <= MAXDEPTH && (v.Nil? || v.Bool? || v.Int? || v.Num? || v.Unsendable?)
    ensures Enc(w, v, tab, depth).ok <==> Fits(w, v, tab, depth)
    ensures Enc(w, v, tab, depth).ok ==> Enc(w, v, tab, depth).w == After(w, v, tab)
  {
    hide Le, Distinct;
    EmptyTail(w.refs);
    EmptyTail(w.bufs);
    match v {
      case Int(i) => assert w.data + [73] + Le(Unsigned(i), 8) == w.data + ([73] + Le(Unsigned(i), 8));
      case Num(bits) => assert w.data + [68] + Le(bits, 8) == w.data + ([68] + Le(bits, 8));
      case _ =>
    }
  }

  lemma StrIff(w: Out, s: seq<byte>)
    requires Sane(w)
    ensures Put3(w, [83], Le(|s|, 4), s).ok <==> |w.data| + |[83] + Le(|s|, 4) + s| <= MAXMSG
    ensures Put3(w, [83], Le(|s|, 4), s).ok ==>
      Put3(w, [83], Le(|s|, 4), s).w == Out(w.data + ([83] + Le(|s|, 4) + s), w.refs + [], w.bufs + [])
    ensures Distinct(w.bufs + [])
  {
    hide Le;
    EmptyTail(w.refs);
    EmptyTail(w.bufs);
    assert w.data + [83] + Le(|s|, 4) + s == w.data + ([83] + Le(|s|, 4) + s);
  }

  lemma RightIff(w: Out, h: int, tab: Rights, depth: nat)
    requires Sane(w) && depth <= MAXDEPTH
    ensures Enc(w, Right(h), tab, depth).ok <==> Fits(w, Right(h), tab, depth)
    ensures Enc(w, Right(h), tab, depth).ok ==> Enc(w, Right(h), tab, depth).w == After(w, Right(h), tab)
  {
    hide Le, Distinct;
    EmptyTail(w.bufs);
    if h in tab {
      var r: seq<byte> := [if tab[h].recv then 1 else 0];
      assert w.data + [82] + Le(tab[h].port, 2) + r == w.data + ([82] + Le(tab[h].port, 2) + r);
    }
  }

  lemma BufIff(w: Out, handle: nat, s: seq<byte>, tab: Rights, depth: nat)
    requires Sane(w) && depth <= MAXDEPTH
    ensures Enc(w, Buf(handle, s), tab, depth).ok <==> Fits(w, Buf(handle, s), tab, depth)
    ensures Enc(w, Buf(handle, s), tab, depth).ok ==>
      Enc(w, Buf(handle, s), tab, depth).w == After(w, Buf(handle, s), tab)
  {
    DistinctOne(w.bufs, handle, s);
    hide Distinct, Given;
    EmptyTail(w.refs);
    var b: seq<byte> := [77];
    var c: seq<byte> := [|w.bufs| % 256];
    assert w.data + b + c == w.data + (b + c);
    assert b + c == Encoding(Buf(handle, s), tab, |w.bufs|);
  }

  lemma TableIff(w: Out, ps: Pairs, tab: Rights, depth: nat)
    requires Sane(w) && depth <= MAXDEPTH
    ensures Enc(w, Table(ps), tab, depth).ok <==> Fits(w, Table(ps), tab, depth)
    ensures Enc(w, Table(ps), tab, depth).ok ==> Enc(w, Table(ps), tab, depth).w == After(w, Table(ps), tab)
    decreases SizePairs(ps), 1
  {
    hide Le, Distinct, EncPairs, EncodingPairs, RefsPairs, BufsPairs, CleanPairs, Patch;
    var r := Put2(w, [66], Le(0, 4));
    if r.ok {
      EncPairsIff(r.w, ps, tab, depth + 1);
      var t := EncPairs(r.w, ps, tab, depth + 1);
      if t.ok {
        var body := EncodingPairs(ps, tab, |w.bufs|);
        assert t.w.data == w.data + [66] + Le(0, 4) + body;
        PatchCount(w.data, body, Count(ps));
      }
    }
  }

  lemma PatchCount(data: seq<byte>, body: seq<byte>, n: nat)
    ensures Patch(data + [66] + Le(0, 4) + body, |data| + 1, Le(n, 4)) == data + ([66] + Le(n, 4) + body)
  {
    hide Le;
    var s := data + [66] + Le(0, 4) + body;
    assert s[..|data| + 1] == data + [66];
    assert s[|data| + 5..] == body;
  }

  lemma AfterTurns(w: Out, k: Value, v: Value, rest: Pairs, tab: Rights)
    ensures AfterPairs(w, Pair(k, v, rest), tab) == AfterPairs(After(After(w, k, tab), v, tab), rest, tab)
  {
    hide Encoding, EncodingPairs, Refs, RefsPairs, Bufs, BufsPairs;
    EncodingPair(k, v, rest, tab, |w.bufs|);
    var a := After(w, k, tab);
    var b := After(a, v, tab);
    Assoc4(w.bufs, Bufs(k), Bufs(v), BufsPairs(rest));
    Assoc4(w.refs, Refs(k, tab), Refs(v, tab), RefsPairs(rest, tab));
    Assoc4(w.data, Encoding(k, tab, |w.bufs|), Encoding(v, tab, |a.bufs|), EncodingPairs(rest, tab, |b.bufs|));
  }

  lemma Assoc4<T>(a: seq<T>, b: seq<T>, c: seq<T>, d: seq<T>)
    ensures a + (b + c + d) == a + b + c + d
  {}

  /** Fitting is where one ends up. */
  lemma FitsAfter(w: Out, v: Value, tab: Rights, depth: nat)
    ensures Fits(w, v, tab, depth) <==> depth + Depth(v) <= MAXDEPTH && Clean(v, tab) && Sane(After(w, v, tab))
  {}

  lemma FitsPairsAfter(w: Out, ps: Pairs, tab: Rights, depth: nat)
    ensures FitsPairs(w, ps, tab, depth) <==>
      (ps == End || depth - 1 + DepthPairs(ps) <= MAXDEPTH) && CleanPairs(ps, tab) && Sane(AfterPairs(w, ps, tab))
  {}

  lemma SaneBefore(w: Out, v: Value, tab: Rights)
    requires Sane(After(w, v, tab))
    ensures Sane(w)
  {
    DistinctPrefix(w.bufs, Bufs(v));
  }

  lemma SaneBeforePairs(w: Out, ps: Pairs, tab: Rights)
    requires Sane(AfterPairs(w, ps, tab))
    ensures Sane(w)
  {
    DistinctPrefix(w.bufs, BufsPairs(ps));
  }

  /** Fitting one pair and then the rest is fitting them in turn. */
  lemma FitsInTurn(w: Out, k: Value, v: Value, rest: Pairs, tab: Rights, depth: nat)
    requires depth > 0
    ensures FitsPairs(w, Pair(k, v, rest), tab, depth) <==>
      && Fits(w, k, tab, depth) && Fits(After(w, k, tab), v, tab, depth)
      && FitsPairs(After(After(w, k, tab), v, tab), rest, tab, depth)
  {
    hide Encoding, EncodingPairs, Depth, DepthPairs, Clean, CleanPairs, Sane, After, AfterPairs, Fits, FitsPairs;
    EncodingPair(k, v, rest, tab, |w.bufs|);
    var a := After(w, k, tab);
    var b := After(a, v, tab);
    AfterTurns(w, k, v, rest, tab);
    FitsAfter(w, k, tab, depth);
    FitsAfter(a, v, tab, depth);
    FitsPairsAfter(b, rest, tab, depth);
    FitsPairsAfter(w, Pair(k, v, rest), tab, depth);
    if Sane(AfterPairs(b, rest, tab)) {
      SaneBeforePairs(b, rest, tab);
      SaneBefore(a, v, tab);
    }
  }

  lemma EncodingPair(k: Value, v: Value, rest: Pairs, tab: Rights, nb: nat)
    ensures EncodingPairs(Pair(k, v, rest), tab, nb) ==
      Encoding(k, tab, nb) + Encoding(v, tab, nb + |Bufs(k)|) + EncodingPairs(rest, tab, nb + |Bufs(k)| + |Bufs(v)|)
    ensures DepthPairs(Pair(k, v, rest)) == Max(1 + Max(Depth(k), Depth(v)), DepthPairs(rest))
    ensures CleanPairs(Pair(k, v, rest), tab) <==> Clean(k, tab) && Clean(v, tab) && CleanPairs(rest, tab)
    ensures RefsPairs(Pair(k, v, rest), tab) == Refs(k, tab) + Refs(v, tab) + RefsPairs(rest, tab)
    ensures BufsPairs(Pair(k, v, rest)) == Bufs(k) + Bufs(v) + BufsPairs(rest)
    ensures rest == End ==> DepthPairs(rest) == 0
  {}

  lemma AfterSane(w: Out, v: Value, tab: Rights, depth: nat)
    requires Fits(w, v, tab, depth)
    ensures Sane(After(w, v, tab))
  {}

  lemma {:induction false} EncPairsIff(w: Out, ps: Pairs, tab: Rights, depth: nat)
    requires Sane(w) && 0 < depth
    ensures EncPairs(w, ps, tab, depth).ok <==> FitsPairs(w, ps, tab, depth)
    ensures EncPairs(w, ps, tab, depth).ok ==> EncPairs(w, ps, tab, depth).w == AfterPairs(w, ps, tab)
    decreases SizePairs(ps), 0
  {
    if ps == End {
      EmptyTail(w.refs);
      EmptyTail(w.bufs);
      EmptyTail(w.data);
    } else {
      hide Fits, FitsPairs, After, AfterPairs, Sane, Enc;
      FitsInTurn(w, ps.k, ps.v, ps.rest, tab, depth);
      AfterTurns(w, ps.k, ps.v, ps.rest, tab);
      EncIff(w, ps.k, tab, depth);
      if Fits(w, ps.k, tab, depth) {
        var a := After(w, ps.k, tab);
        AfterSane(w, ps.k, tab, depth);
        EncIff(a, ps.v, tab, depth);
        if Fits(a, ps.v, tab, depth) {
          AfterSane(a, ps.v, tab, depth);
          EncPairsIff(After(a, ps.v, tab), ps.rest, tab, depth);
        }
      }
    }
  }
}
