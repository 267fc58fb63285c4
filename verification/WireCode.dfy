/** The serializer's code, against what the wire format says. */
module WireCode {
  import opened Options
  import opened Wire
  import opened WireProofs
  import opened WireRead
  import opened WireExact

  ghost function Nothing(): Out { Out([], [], []) }

  function Slots(bufs: seq<(nat, seq<byte>)>): (r: seq<Option<seq<byte>>>)
    ensures |r| == |bufs|
  {
    seq(|bufs|, i requires 0 <= i < |bufs| => Some(bufs[i].1))
  }

  /** A message that serialize accepted is read back whole: every byte used, the value as it arrives, the rights
      minted being exactly the references the message carries, in order, and every buffer claimed. */
  lemma RoundTrip(v: Value, tab: Rights, ports: set<int>, free: seq<int>, room: nat)
    requires var w := Enc(Nothing(), v, tab, 0);
      w.ok && (forall i | 0 <= i < |w.w.refs| ::
                 w.w.refs[i].port in ports) && |w.w.refs| <= |free| && |w.w.bufs| <= room
    ensures var w := Enc(Nothing(), v, tab, 0).w;
      var r := Dec(Env(w.data, ports, free, room), In(0, [], Slots(w.bufs), 0), 0);
      && r.Ok? && r.v == Arrives(v, tab, free, 0) && r.st.off == |w.data| && r.st.caps == w.refs == Refs(v, tab)
      && (forall i | 0 <= i < |r.st.bufs| :: r.st.bufs[i] == None)
  {
    hide Enc, Encoding, Dec, Refs, Bufs, Arrives, Depth, Clean, Room, At, Claimed, Slots;
    var w := Enc(Nothing(), v, tab, 0).w;
    EncIff(Nothing(), v, tab, 0);
    assert w == After(Nothing(), v, tab);
    assert w.data == Encoding(v, tab, 0) && w.refs == Refs(v, tab) && w.bufs == Bufs(v);
    RoomAtStart(w, ports, free, room);
    DecEnc(Env(w.data, ports, free, room), In(0, [], Slots(w.bufs), 0), v, tab, 0, 0);
    ClaimedAll(w.bufs);
  }

  lemma RoomAtStart(w: Out, ports: set<int>, free: seq<int>, room: nat)
    requires Sane(w) && (forall i | 0 <= i < |w.refs| :: w.refs[i].port in ports) && |w.refs| <= |free|
    requires |w.bufs| <= room
    ensures Room(Env(w.data, ports, free, room), In(0, [], Slots(w.bufs), 0), w.refs, w.bufs, 0)
    ensures At(w.data, 0, w.data)
  {}

  lemma ClaimedAll(bufs: seq<(nat, seq<byte>)>)
    ensures forall i | 0 <= i < |bufs| :: Claimed(Slots(bufs), 0, |bufs|)[i] == None
  {}

  /** What serialize accepts from scratch. */
  lemma Accepts(v: Value, tab: Rights)
    ensures Enc(Nothing(), v, tab, 0).ok <==>
      && Depth(v) <= MAXDEPTH && Clean(v, tab) && |Refs(v, tab)| <= MAXMSGRIGHTS
      && |Bufs(v)| <= MAXMSGBUFS && Distinct(Bufs(v)) && |Encoding(v, tab, 0)| <= MAXMSG
  {
    hide Enc, Encoding, Refs, Bufs, Depth, Clean;
    EncIff(Nothing(), v, tab, 0);
    assert Nothing().bufs + Bufs(v) == Bufs(v);
  }

  /** Whatever was there is still there, and only more has followed it. */
  ghost predicate Grown(w: Out, r: Out)
  {
    w.data <= r.data && w.refs <= r.refs && w.bufs <= r.bufs
  }

  lemma PatchAfter(w: seq<byte>, s: seq<byte>, i: nat, bs: seq<byte>)
    requires w <= s && |w| <= i
    ensures w <= Patch(s, i, bs)
  {}

  lemma PutGrows(w: Out, a: seq<byte>, b: seq<byte>, c: seq<byte>)
    ensures Grown(w, Put(w, a).w) && Grown(w, Put2(w, a, b).w) && Grown(w, Put3(w, a, b, c).w)
    ensures Put3(w, a, b, c).w.refs == w.refs && Put2(w, a, b).w.refs == w.refs
    ensures Put3(w, a, b, c).w.bufs == w.bufs && Put2(w, a, b).w.bufs == w.bufs
  {}

  lemma {:induction false} EncGrows(w: Out, v: Value, tab: Rights, depth: nat)
    ensures Grown(w, Enc(w, v, tab, depth).w)
    decreases Size(v)
  {
    hide Le, Put, Put2, Put3, Patch, Given;
    if depth <= MAXDEPTH {
      match v {
        case Nil => PutGrows(w, [78], [], []);
        case Bool(b) => PutGrows(w, [if b then 84 else 70], [], []);
        case Int(i) => PutGrows(w, [73], Le(Unsigned(i), 8), []);
        case Num(bits) => PutGrows(w, [68], Le(bits, 8), []);
        case Str(s) => PutGrows(w, [83], Le(|s|, 4), s);
        case Bytes(s) => PutGrows(w, [83], Le(|s|, 4), s);
        case Right(h) => if h in tab { PutGrows(w, [82], Le(tab[h].port, 2), [if tab[h].recv then 1 else 0]); }
        case Buf(_, _) => PutGrows(w, [77], [|w.bufs| % 256], []);
        case Table(ps) =>
          PutGrows(w, [66], Le(0, 4), []);
          var r := Put2(w, [66], Le(0, 4));
          if r.ok {
            EncPairsGrows(r.w, ps, tab, depth + 1);
            PatchAfter(w.data, EncPairs(r.w, ps, tab, depth + 1).w.data, |w.data| + 1, Le(Count(ps), 4));
          }
        case _ =>
      }
    }
  }

  lemma {:induction false} EncPairsGrows(w: Out, ps: Pairs, tab: Rights, depth: nat)
    ensures Grown(w, EncPairs(w, ps, tab, depth).w)
    decreases SizePairs(ps)
  {
    hide Enc;
    match ps {
      case End =>
      case Pair(k, v, rest) =>
        var a := Enc(w, k, tab, depth);
        EncGrows(w, k, tab, depth);
        if a.ok {
          var b := Enc(a.w, v, tab, depth);
          EncGrows(a.w, v, tab, depth);
          if b.ok {
            EncPairsGrows(b.w, rest, tab, depth);
          }
        }
    }
  }

  /** The growing message buffer, with the references and buffers taken so far. */
  class Writer {
    var p: array<byte>
    var len: nat
    var refs: seq<Cap>
    var bufs: seq<(nat, seq<byte>)>
    var grants: nat        // how many more times there will be memory to grow
    var starved: bool      // there was none when it was needed

    ghost predicate Valid()
      reads this
    {
      len <= p.Length <= MAXMSG
    }

    ghost function View(): Out
      reads this, p
      requires Valid()
    {
      Out(p[..len], refs, bufs)
    }

    constructor (grants: nat)
      ensures Valid() && View() == Nothing() && fresh(p) && !starved && this.grants == grants
    {
      p := new byte[0];
      len, refs, bufs := 0, [], [];
      this.grants, starved := grants, false;
    }

    /** Grow to hold `need` bytes: double, then clamp to the largest message. Without memory, nothing changes. */
    method Grow(need: nat)
      requires Valid() && p.Length < need <= MAXMSG && !starved
      modifies this`p, this`grants, this`starved
      ensures Valid() && p[..len] == old(p[..len]) && starved == (old(grants) == 0)
      ensures if starved then p == old(p) && grants == 0 else fresh(p) && need <= p.Length && grants == old(grants) - 1
    {
      if grants == 0 {
        starved := true;
        return;
      }
      grants := grants - 1;
      var ncap := if p.Length > 0 then p.Length * 2 else 256;
      while ncap < need
        invariant 0 < ncap
        decreases need - ncap
      {
        ncap := ncap * 2;
      }
      if ncap > MAXMSG {
        ncap := MAXMSG;
      }
      var np := new byte[ncap];
      var i := 0;
      while i < len
        invariant i <= len && np[..i] == p[..i]
        modifies np
      {
        np[i] := p[i];
        i := i + 1;
      }
      p := np;
    }

    /** Copy a piece in after what is there. */
    method Append(src: seq<byte>)
      requires len + |src| <= p.Length
      modifies p
      ensures p[..len + |src|] == old(p[..len]) + src
    {
      for i := 0 to |src|
        invariant p[..len + i] == old(p[..len]) + src[..i]
      {
        p[len + i] := src[i];
        assert p[..len + i + 1] == p[..len + i] + [src[i]];
      }
      assert src[..|src|] == src;
    }

    /** wput: refused exactly when the message would pass the limit, or there is no memory for it. */
    method PutBytes(src: seq<byte>) returns (ok: bool)
      requires Valid() && !starved
      modifies this, p
      ensures Valid() && (p == old(p) || fresh(p)) && (starved ==> !ok && grants == 0 && View() == old(View()))
      ensures !starved ==> Sent(ok, View()) == Put(old(View()), src)
    {
      if len + |src| > p.Length {
        if len + |src| > MAXMSG {
          return false;
        }
        Grow(len + |src|);
        if starved {
          return false;
        }
      }
      Append(src);
      len := len + |src|;
      ok := true;
    }

    method PutTwo(a: seq<byte>, b: seq<byte>) returns (ok: bool)
      requires Valid() && !starved
      modifies this, p
      ensures Valid() && (p == old(p) || fresh(p)) && (starved ==> !ok && grants == 0 && Grown(old(View()), View()))
      ensures !starved ==> Sent(ok, View()) == Put2(old(View()), a, b)
    {
      ok := PutBytes(a);
      if ok {
        ok := PutBytes(b);
      }
    }

    method PutThree(a: seq<byte>, b: seq<byte>, c: seq<byte>) returns (ok: bool)
      requires Valid() && !starved
      modifies this, p
      ensures Valid() && (p == old(p) || fresh(p)) && (starved ==> !ok && grants == 0 && Grown(old(View()), View()))
      ensures !starved ==> Sent(ok, View()) == Put3(old(View()), a, b, c)
    {
      ok := PutTwo(a, b);
      if ok {
        ok := PutBytes(c);
      }
    }

    /** Write the pair count over the place kept for it. */
    method PatchAt(at: nat, bs: seq<byte>)
      requires Valid() && at + |bs| <= len
      modifies p
      ensures View() == old(View()).(data := Patch(old(View().data), at, bs))
    {
      ghost var was := p[..len];
      var i := 0;
      while i < |bs|
        invariant i <= |bs| && p[..at] == was[..at] && p[at..at + i] == bs[..i] && p[at + i..len] == was[at + i..]
      {
        p[at + i] := bs[i];
        i := i + 1;
      }
      assert p[..len] == was[..at] + bs + was[at + |bs|..];
    }

    /** Is the buffer already in this message? */
    method Lent(handle: nat) returns (yes: bool)
      ensures yes == Given(bufs, handle)
    {
      var j := 0;
      while j < |bufs|
        invariant j <= |bufs| && forall i | 0 <= i < j :: bufs[i].0 != handle
      {
        if bufs[j].0 == handle {
          return true;
        }
        j := j + 1;
      }
      yes := false;
    }

    /** serialize. Running out of memory, it fails with all that was written before still in place. */
    method Serialize(v: Value, tab: Rights, depth: nat) returns (ok: bool)
      requires Valid() && !starved
      modifies this, p
      ensures Valid() && (p == old(p) || fresh(p)) && (starved ==> !ok && grants == 0 && Grown(old(View()), View()))
      ensures !starved ==> Sent(ok, View()) == Enc(old(View()), v, tab, depth)
      decreases Size(v), 0
    {
      hide Put, Put2, Put3, Le, EncPairs;
      if depth > MAXDEPTH {
        return false;
      }
      match v {
        case Nil => ok := PutBytes([78]);
        case Bool(b) => ok := PutBytes([if b then 84 else 70]);
        case Int(i) => ok := PutTwo([73], Le(Unsigned(i), 8));
        case Num(bits) => ok := PutTwo([68], Le(bits, 8));
        case Str(s) => ok := PutThree([83], Le(|s|, 4), s);
        case Bytes(s) => ok := PutThree([83], Le(|s|, 4), s);
        case Right(h) =>
          if h !in tab || |refs| >= MAXMSGRIGHTS {
            return false;
          }
          ok := PutThree([82], Le(tab[h].port, 2), [if tab[h].recv then 1 else 0]);
          if ok {
            refs := refs + [tab[h]];
          }
        case Buf(handle, s) =>
          var lent := Lent(handle);
          if |bufs| >= MAXMSGBUFS || lent {
            return false;
          }
          ok := PutTwo([77], [|bufs| % 256]);
          if ok {
            bufs := bufs + [(handle, s)];
          }
        case Table(ps) => ok := SerializeTable(ps, tab, depth);
        case Unsendable => ok := false;
      }
    }

    method SerializeTable(pairs: Pairs, tab: Rights, depth: nat) returns (ok: bool)
      requires Valid() && !starved && depth <= MAXDEPTH
      modifies this, p
      ensures Valid() && (p == old(p) || fresh(p)) && (starved ==> !ok && grants == 0 && Grown(old(View()), View()))
      ensures !starved ==> Sent(ok, View()) == Enc(old(View()), Table(pairs), tab, depth)
      decreases SizePairs(pairs), 2
    {
      hide Enc, EncPairs, Put2, Patch, Le;
      var at := len;
      TableRefused(View(), pairs, tab, depth);
      PutGrows(View(), [66], Le(0, 4), []);
      ok := PutTwo([66], Le(0, 4));
      if !ok {
        return;
      }
      TableEnc(old(View()), View(), pairs, tab, depth);
      var n;
      ok, n := SerializePairs(pairs, tab, depth + 1);
      if ok {
        PatchAt(at + 1, Le(n, 4));
      }
    }

    /** The lua_next loop: keys and values in turn, counting pairs. */
    method SerializePairs(pairs: Pairs, tab: Rights, depth: nat) returns (ok: bool, n: nat)
      requires Valid() && !starved
      modifies this, p
      ensures Valid() && (p == old(p) || fresh(p)) && (starved ==> !ok && grants == 0 && Grown(old(View()), View()))
      ensures !starved ==> Sent(ok, View()) == EncPairs(old(View()), pairs, tab, depth)
      ensures ok ==> n == Count(pairs)
      decreases SizePairs(pairs), 1
    {
      hide Enc, EncPairs;
      ghost var w := View();
      var ps := pairs;
      n := 0;
      while ps != End
        invariant Valid() && (p == old(p) || fresh(p)) && !starved && Grown(w, View())
        invariant EncPairs(View(), ps, tab, depth) == EncPairs(w, pairs, tab, depth)
        invariant n + Count(ps) == Count(pairs) && SizePairs(ps) <= SizePairs(pairs)
        decreases ps
      {
        PairsTurn(View(), ps, tab, depth);
        EncGrows(View(), ps.k, tab, depth);
        ok := Serialize(ps.k, tab, depth);
        if !ok {
          return;
        }
        EncGrows(View(), ps.v, tab, depth);
        ok := Serialize(ps.v, tab, depth);
        if !ok {
          return;
        }
        ps, n := ps.rest, n + 1;
      }
      PairsEnd(View(), tab, depth);
      ok := true;
    }
  }

  /** One pair, then the rest. */
  lemma PairsTurn(w: Out, ps: Pairs, tab: Rights, depth: nat)
    requires ps != End
    ensures var a := Enc(w, ps.k, tab, depth);
      var b := Enc(a.w, ps.v, tab, depth);
      EncPairs(w, ps, tab, depth) == if !a.ok then a else if !b.ok then b else EncPairs(b.w, ps.rest, tab, depth)
  {
    hide Enc;
  }

  lemma PairsEnd(w: Out, tab: Rights, depth: nat)
    ensures EncPairs(w, End, tab, depth) == Sent(true, w)
  {}

  lemma TableRefused(w: Out, ps: Pairs, tab: Rights, depth: nat)
    requires depth <= MAXDEPTH
    ensures !Put2(w, [66], Le(0, 4)).ok ==> Enc(w, Table(ps), tab, depth) == Put2(w, [66], Le(0, 4))
  {}

  lemma TableEnc(w0: Out, w: Out, ps: Pairs, tab: Rights, depth: nat)
    requires depth <= MAXDEPTH && Put2(w0, [66], Le(0, 4)) == Sent(true, w)
    ensures var t := EncPairs(w, ps, tab, depth + 1);
      && |w0.data| + 5 <= |t.w.data|
      && Enc(w0, Table(ps), tab, depth)
         == (if !t.ok then t else Sent(true, t.w.(data := Patch(t.w.data, |w0.data| + 1, Le(Count(ps), 4)))))
  {
    hide EncPairs, Le, Patch;
    EncPairsGrows(w, ps, tab, depth + 1);
  }

  /* ---- reading ---- */

  function Append(ps: Pairs, qs: Pairs): Pairs
  {
    if ps == End then qs else Pair(ps.k, ps.v, Append(ps.rest, qs))
  }

  lemma {:induction false} AppendSnoc(ps: Pairs, k: Value, v: Value, rest: Pairs)
    ensures Append(Append(ps, Pair(k, v, End)), rest) == Append(ps, Pair(k, v, rest))
    decreases ps
  {
    if ps != End {
      AppendSnoc(ps.rest, k, v, rest);
    }
  }

  lemma {:induction false} AppendEnd(ps: Pairs)
    ensures Append(ps, End) == ps
    decreases ps
  {
    if ps != End {
      AppendEnd(ps.rest);
    }
  }

  /** What the rest of a table's pairs come to, after some have been stored. */
  ghost function Joined(acc: Pairs, g: Got): Got
  {
    if g.Ok? && g.v.Table? then Ok(Table(Append(acc, g.v.pairs)), g.st) else g
  }

  /** The table loop of deserialize. */
  method ReadPairs(e: Env, start: In, depth: nat, n: nat) returns (r: Got)
    requires start.off <= |e.p|
    ensures r == DecPairs(e, start, depth, n)
    decreases Fuel(depth), 1
  {
    hide Dec, DecPairs, Append, Joined;
    var i, st, acc := 0, start, End;
    JoinNone(DecPairs(e, start, depth, n));
    while i < n
      invariant i <= n && st.off <= |e.p| && DecPairs(e, start, depth, n) == Joined(acc, DecPairs(e, st, depth, n - i))
    {
      JoinTurn(e, st, depth, n - i, acc);
      var a := Read(e, st, depth);
      if !a.Ok? {
        return a;
      }
      var b := Read(e, a.st, depth);
      if !b.Ok? {
        return b;
      }
      acc := Append(acc, Pair(a.v, b.v, End));
      st, i := b.st, i + 1;
    }
    JoinLast(e, st, depth, acc);
    r := Ok(Table(acc), st);
  }

  lemma JoinNone(g: Got)
    ensures Joined(End, g) == g
  {}

  lemma JoinTurn(e: Env, st: In, depth: nat, m: nat, acc: Pairs)
    requires st.off <= |e.p| && m > 0
    ensures var a := Dec(e, st, depth);
      var b := Dec(e, a.st, depth);
      Joined(acc, DecPairs(e, st, depth, m)) ==
      (if !a.Ok? then a else if !b.Ok? then b
       else Joined(Append(acc, Pair(a.v, b.v, End)), DecPairs(e, b.st, depth, m - 1)))
  {
    hide Dec;
    var a := Dec(e, st, depth);
    var b := Dec(e, a.st, depth);
    if a.Ok? && b.Ok? {
      var rest := DecPairs(e, b.st, depth, m - 1);
      if rest.Ok? {
        AppendSnoc(acc, a.v, b.v, rest.v.pairs);
      }
    }
  }

  lemma JoinLast(e: Env, st: In, depth: nat, acc: Pairs)
    requires st.off <= |e.p|
    ensures Joined(acc, DecPairs(e, st, depth, 0)) == Ok(Table(acc), st)
  {
    AppendEnd(acc);
  }

  /** deserialize. */
  method Read(e: Env, st: In, depth: nat) returns (r: Got)
    requires st.off <= |e.p|
    ensures r.Ok? <==> Spelled(e, st, depth)
    ensures forall x | At(e.p, st.off, Print(x)) && Legal(e, st, x, depth) :: r == Answer(e, st, x)
    ensures r == Dec(e, st, depth)
    decreases Fuel(depth), 0
  {
    hide DecPairs, UnLe, U64, U16, Signed, Spelled, At, Print, Legal, Answer;
    ReadExact(e, st, depth);
    if depth > MAXDEPTH || st.off >= |e.p| {
      return Bad(st);
    }
    var tag := e.p[st.off];
    var s := st.(off := st.off + 1);
    match tag {
      case 78 => r := Ok(Nil, s);
      case 84 => r := Ok(Bool(true), s);
      case 70 => r := Ok(Bool(false), s);
      case 73 =>
        if s.off + 8 > |e.p| { return Bad(s); }
        r := Ok(Int(Signed(U64(e.p[s.off..s.off + 8]))), s.(off := s.off + 8));
      case 68 =>
        if s.off + 8 > |e.p| { return Bad(s); }
        r := Ok(Num(U64(e.p[s.off..s.off + 8])), s.(off := s.off + 8));
      case 83 =>
        if s.off + 4 > |e.p| { return Bad(s); }
        var n := UnLe(e.p[s.off..s.off + 4]);
        s := s.(off := s.off + 4);
        if s.off + n > |e.p| { return Bad(s); }
        r := Ok(Str(e.p[s.off..s.off + n]), s.(off := s.off + n));
      case 66 =>
        if s.off + 4 > |e.p| { return Bad(s); }
        var n := UnLe(e.p[s.off..s.off + 4]);
        s := s.(off := s.off + 4);
        if n > (|e.p| - s.off) / 2 { return Bad(s); }
        r := ReadPairs(e, s, depth + 1, n);
      case 77 =>
        if s.off >= |e.p| { return Bad(s); }
        var i := e.p[s.off];
        s := s.(off := s.off + 1);
        if i >= |s.bufs| || s.bufs[i] == None { return Bad(s); }
        if s.taken >= e.room { return Limit(s); }
        r := Ok(Bytes(s.bufs[i].value), s.(bufs := s.bufs[i := None], taken := s.taken + 1));
      case 82 =>
        if s.off + 3 > |e.p| { return Bad(s); }
        var port := U16(e.p[s.off..s.off + 2]);
        var recv := e.p[s.off + 2];
        s := s.(off := s.off + 3);
        if port !in e.ports || |s.caps| >= MAXMSGRIGHTS { return Bad(s); }
        if |s.caps| >= |e.free| { return Limit(s); }
        r := Ok(Right(e.free[|s.caps|]), s.(caps := s.caps + [Cap(port, recv != 0)]));
      case _ => r := Bad(s);
    }
  }
}
