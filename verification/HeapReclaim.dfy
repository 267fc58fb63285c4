/** Why reclaim is exact: the tally of listed bytes equals a chunk's capacity exactly when nothing in it is in
    use, and giving such a chunk back disturbs nothing else. */
module HeapReclaim {
  import opened HeapState
  import opened HeapSteps
  import opened Totals
  import opened HeapAccount
  import opened HeapMoves

  const CHUNK_BYTES: nat := 8064

  /** What a call that neither hands out nor takes back leaves alone. */
  ghost predicate Quiet(h: Heap, g: Heap)
  {
    g.s.live == h.s.live && Keeps(h.s, g.s) && g.c.live == h.c.live && g.c.peak == h.c.peak && g.own == h.own
  }

  lemma QuietTrans(h: Heap, g: Heap, k: Heap)
    requires Quiet(h, g) && Quiet(g, k)
    ensures Quiet(h, k)
  {
    KeepsTrans(h.s, g.s, k.s);
  }

  lemma OkQuiet(h: Heap, due: int)
    requires Ok(h, due)
    ensures Quiet(h, h)
  {
    InvKeeps(h.s);
  }

  lemma KeepsGrow(s: State, t: State, u: State)
    requires Keeps(s, t) && Keeps(t, u) && (forall p | p in s.live :: p in t.live && t.live[p] == s.live[p])
    ensures Keeps(s, u)
  {}

  lemma NewOk(h: Heap, size: nat)
    requires h.s.blk == map[] && h.s.live == map[] && 0 < h.own && h.own % ALIGN == 0 && 0 < size
    requires h.s.reg == map[h.own := size]
    requires h.s.head == seq(NLIST, _ => 0) && h.s.fl == seq(NLIST, _ => []) && Mapped(h.s.mem, h.own, size)
    requires h.chunks == [] && h.larges == [] && h.lost == map[] && h.bumpleft == 0
    requires h.nlargefree == seq(NLARGECLASS, _ => 0)
    requires h.c == Counters(0, 0, size, 0, 0, 0, 0, 0)
    ensures Ok(h, 0)
  {
    hide Inv, Total, Except;
    NewInv(h, size);
    NewBooks(h, size);
  }

  lemma NewBooks(h: Heap, size: nat)
    requires h.s.blk == map[] && h.s.live == map[] && h.s.reg == map[h.own := size] && h.s.fl == seq(NLIST, _ => [])
    requires h.chunks == [] && h.larges == [] && h.lost == map[] && h.bumpleft == 0
    requires h.nlargefree == seq(NLARGECLASS, _ => 0)
    requires h.c == Counters(0, 0, size, 0, 0, 0, 0, 0)
    ensures Books(h, 0)
  {
    hide Total;
    TotalNone(h.s.blk, Full());
    TotalNone(h.s.live, Id());
    TotalNone(h.s.live, RoundOf());
    TotalNone(h.s.live, AskOf());
    TotalNone(h.s.live, OneOf());
    TotalNone(Except(h.s.blk, h.s.live.Keys), Cache());
    TotalTake(h.s.reg, Id(), h.own);
    TotalNone(h.s.reg - {h.own}, Id());
  }

  lemma NewInv(h: Heap, size: nat)
    requires h.s.blk == map[] && h.s.live == map[] && 0 < h.own && h.own % ALIGN == 0 && 0 < size
    requires h.s.reg == map[h.own := size]
    requires h.s.head == seq(NLIST, _ => 0) && h.s.fl == seq(NLIST, _ => []) && Mapped(h.s.mem, h.own, size)
    ensures Inv(h.s)
  {}

  /* ---- draining ---- */

  lemma DrainStep(h: Heap, k: nat, due: int)
    requires Ok(h, due) && k < NCLASS && Width(k) <= h.bumpleft
    ensures h.chunks != [] && |h.s.head| == NLIST && |h.s.fl| == NLIST && h.bump !in h.s.live
    ensures h.s.live[h.bump := Width(k)] - {h.bump} == h.s.live
    ensures var g := GiveSmall(Cut(h, k, Width(k)), h.bump); Ok(g, due) && Quiet(h, g) && g.s.mem.Keys == h.s.mem.Keys
  {
    hide Ok, Keeps, Total;
    ClassSize(k);
    var w := Width(k);
    CutOk(h, k, w, due);
    var m := Cut(h, k, w);
    GiveSmallOk(m, h.bump, due - w);
    var g := GiveSmall(m, h.bump);
    KeepsGrow(h.s, m.s, g.s);
    Sizes(h, due);
    assert g.s.live == h.s.live;
  }

  lemma Sizes(h: Heap, due: int)
    requires Ok(h, due)
    ensures |h.s.head| == NLIST && |h.s.fl| == NLIST && |h.nlargefree| == NLARGECLASS
  {}

  lemma RetireStep(h: Heap, due: int)
    requires Ok(h, due)
    ensures Ok(Retire(h), due) && Quiet(h, Retire(h)) && (h.chunks != [] ==> h.chunks[0] in h.lost)
    ensures forall b | b in h.chunks :: b in h.lost
  {
    RetireOk(h, due);
    if h.chunks != [] {
      assert h.chunks[0] in h.chunks;
    }
  }

  /* ---- the large cache ---- */

  lemma ListEnd(h: Heap, k: nat, due: int)
    requires Ok(h, due) && k < NLIST
    ensures |h.s.head| == NLIST && |h.s.fl| == NLIST && (h.s.head[k] == 0 <==> h.s.fl[k] == [])
  {
    hide RegOk, BlkOk, LinksOk, Complete, Books, LiveOk;
    HeadAt(h.s, k);
  }

  lemma CachedHead(h: Heap, k: nat, due: int)
    requires Ok(h, due) && NCLASS <= k < NLIST && |h.s.head| == NLIST && h.s.head[k] != 0
    ensures h.s.head[k] >= LARGE_HEADER && h.s.head[k] - LARGE_HEADER in h.larges && h.larges != []
  {
    hide RegOk, BlkOk, LinksOk, Complete, LiveOk, BumpOk, TilesOk, CountsOk, BytesOk, RegionsOk;
    HeadAt(h.s, k);
    assert Homed(h, h.s.head[k]);
  }

  lemma CachedSize(h: Heap, i: nat, due: int)
    requires Ok(h, due) && i < |h.larges|
    ensures
      var b := h.larges[i];
      b in h.s.reg && b + LARGE_HEADER in h.s.blk && h.s.blk[b + LARGE_HEADER].size + LARGE_HEADER == h.s.reg[b]
                                  && h.s.blk[b + LARGE_HEADER].list == NCLASS + LargeClassOf(h.s.reg[b])
                                  && h.s.reg[b] > 528
  {
    hide HomesOk, RegionsOk, Inv, BumpOk, TilesOk, CountsOk, BytesOk;
    assert h.larges[i] in h.larges;
    LargeHome(h, h.larges[i]);
    LargeBig(h, h.larges[i]);
  }

  lemma LargeBig(h: Heap, b: nat)
    requires RegionsOk(h) && b in h.larges
    ensures b in h.s.reg && h.s.reg[b] > 528
  {}

  lemma ListSizeList(k: nat)
    requires NCLASS < k < NLIST
    ensures ListSize(k) > 0 && ListOf(ListSize(k)) == k && ListSize(k) > 512
  {
    var n := ListSize(k);
    assert n + LARGE_HEADER == (k - NCLASS + 1) * 512;
    assert LargeWant(n + LARGE_HEADER) == n + LARGE_HEADER;
  }

  ghost predicate MayEvict(h: Heap, k: nat, i: nat)
  {
    && NCLASS <= k < NLIST && |h.s.head| == NLIST && |h.s.fl| == NLIST && h.s.fl[k] != [] && h.s.head[k] in h.s.mem
    && h.s.mem[h.s.head[k]].Link?
    && h.s.head[k] in h.s.blk && |h.nlargefree| == NLARGECLASS && h.nlargefree[k - NCLASS] > 0
    && h.s.head[k] !in h.s.live
    && i < |h.larges| && h.larges[i] + LARGE_HEADER == h.s.head[k] && h.larges[i] in h.s.reg
    && h.s.reg[h.larges[i]] == h.s.blk[h.s.head[k]].size + LARGE_HEADER
  }

  /** A cached block is taken from its bucket and its region given back. */
  ghost function Evicted(h: Heap, k: nat, i: nat): Heap
    requires MayEvict(h, k, i)
  {
    DropLarge(TakeLarge(h, k, ListSize(k)), i)
  }

  lemma EvictStep(h: Heap, k: nat, i: nat, due: int)
    requires Ok(h, due) && NCLASS <= k < NLIST && |h.s.head| == NLIST && h.s.head[k] != 0
    requires i < |h.larges| && h.larges[i] + LARGE_HEADER == h.s.head[k]
    ensures MayEvict(h, k, i)
    ensures var g := Evicted(h, k, i); Ok(g, due) && Quiet(h, g) && |g.larges| < |h.larges|
  {
    hide Ok, Keeps, Total, ListSize, ListOf;
    Sizes(h, due);
    ListEnd(h, k, due);
    CachedSize(h, i, due);
    HeadList(h, k, due);
    ListSizeList(k);
    var n := ListSize(k);
    TakeLargeOk(h, k, n, due);
    var m := TakeLarge(h, k, n);
    DropLargeOk(m, i, due - n);
    var g := DropLarge(m, i);
    KeepsGrow(h.s, m.s, g.s);
    assert h.s.live[h.s.head[k] := n] - {h.s.head[k]} == h.s.live;
  }

  lemma HeadList(h: Heap, k: nat, due: int)
    requires Ok(h, due) && k < NLIST && |h.s.head| == NLIST && h.s.head[k] != 0
    ensures h.s.head[k] in h.s.blk && h.s.blk[h.s.head[k]].list == k
  {
    hide RegOk, BlkOk, LinksOk, Complete, Books, LiveOk;
    HeadAt(h.s, k);
  }

  lemma CacheEmpty(h: Heap, due: int)
    requires Ok(h, due) && |h.s.fl| == NLIST && (forall j | NCLASS <= j < NLIST :: h.s.fl[j] == [])
    ensures h.c.largecached == 0
  {
    hide Ok, Total;
    CachedIs(h, due);
    var idle := Except(h.s.blk, h.s.live.Keys);
    forall p | p in idle
      ensures Cache()(idle[p]) == 0
    {
      IdleListed(h, p, due);
    }
    TotalZero(idle, Cache());
  }

  lemma CachedIs(h: Heap, due: int)
    requires Ok(h, due)
    ensures h.c.largecached == Total(Except(h.s.blk, h.s.live.Keys), Cache())
  {
    hide Total, Except, Inv;
  }

  lemma IdleListed(h: Heap, p: nat, due: int)
    requires Ok(h, due) && p in h.s.blk && p !in h.s.live
    ensures |h.s.fl| == NLIST && h.s.blk[p].list < NLIST && p in h.s.fl[h.s.blk[p].list]
  {
    hide Listed, BlkOk, LinksOk, LiveOk, Books;
    PlacedAt(h.s, p);
  }

  /* ---- the tally ---- */

  /** Something handed out lies in chunk b. */
  ghost predicate InUse(h: Heap, b: nat)
  {
    exists p :: p in h.s.live && p in h.s.blk && h.s.blk[p].base == b
  }

  /** The blocks handed out were cut where they were cut. */
  ghost predicate SameHomes(h: Heap, g: Heap)
  {
    forall p | p in h.s.live :: (p in g.s.blk <==> p in h.s.blk) && (p in h.s.blk ==> g.s.blk[p] == h.s.blk[p])
  }

  lemma InUseSame(h: Heap, g: Heap, b: nat)
    requires g.s.live == h.s.live && SameHomes(h, g)
    ensures InUse(g, b) <==> InUse(h, b)
  {
    if InUse(h, b) {
      var p :| p in h.s.live && p in h.s.blk && h.s.blk[p].base == b;
      assert p in g.s.live && p in g.s.blk && g.s.blk[p].base == b;
    }
  }

  lemma HomesTrans(h: Heap, g: Heap, k: Heap)
    requires SameHomes(h, g) && SameHomes(g, k) && g.s.live == h.s.live
    ensures SameHomes(h, k)
  {}

  lemma EvictHomes(h: Heap, k: nat, i: nat)
    requires MayEvict(h, k, i)
    ensures SameHomes(h, Evicted(h, k, i))
  {
    EvictView(h, k, i);
  }

  lemma HomesSelf(h: Heap)
    ensures SameHomes(h, h)
  {}

  lemma QuietLive(h: Heap, g: Heap)
    requires Quiet(h, g)
    ensures g.s.live == h.s.live
  {}

  /** The chunks g has left of h's: the one being cut, and those with something handed out. */
  ghost predicate OnlyUsed(h: Heap, g: Heap)
  {
    && (h.bumpleft > 0 ==> h.chunks != [])
    && (forall b :: b in g.chunks <==> b in h.chunks && ((h.bumpleft > 0 && b == h.chunks[0]) || InUse(h, b)))
  }

  lemma OnlyUsedSince(h: Heap, g: Heap, k: Heap)
    requires OnlyUsed(g, k) && g.s.live == h.s.live && SameHomes(h, g) && g.chunks == h.chunks
    requires g.bumpleft == h.bumpleft
    ensures OnlyUsed(h, k)
  {
    hide InUse, SameHomes;
    forall b
      ensures b in k.chunks <==> b in h.chunks && ((h.bumpleft > 0 && b == h.chunks[0]) || InUse(h, b))
    {
      InUseSame(h, g, b);
    }
  }

  lemma SmallInChunk(h: Heap, k: nat, p: nat, due: int)
    requires Ok(h, due) && k < NCLASS && |h.s.fl| == NLIST && p in h.s.fl[k]
    ensures p in h.s.blk && h.s.blk[p].list == k && h.s.blk[p].base in h.chunks && p !in h.s.live
    ensures h.s.blk[p].size == Width(k)
  {
    hide RegOk, LinksOk, Complete, LiveOk, BumpOk, TilesOk, CountsOk, BytesOk, RegionsOk;
    ListedAt(h.s, k, p);
    assert Homed(h, p);
    PlacedAt(h.s, p);
  }

  /** A small block is in a chunk's range exactly when it was cut from it. */
  lemma RangeIff(h: Heap, k: nat, p: nat, i: nat, due: int)
    requires Ok(h, due) && k < NCLASS && |h.s.fl| == NLIST && p in h.s.fl[k] && i < |h.chunks|
    ensures p in h.s.blk && h.chunks[i] in h.s.reg
    ensures h.chunks[i] + CHUNK_HEADER <= p < h.chunks[i] + h.s.reg[h.chunks[i]] <==> h.s.blk[p].base == h.chunks[i]
  {
    hide InvBut, Books;
    SmallInChunk(h, k, p, due);
    InRange(h, p, i, due, 0);
  }

  lemma InRange(h: Heap, p: nat, i: nat, due: int, x: nat)
    requires InvBut(h.s, x) && Books(h, due)
    requires p in h.s.blk && h.s.blk[p].list < NCLASS && i < |h.chunks|
    ensures h.chunks[i] in h.s.reg
    ensures h.chunks[i] + CHUNK_HEADER <= p < h.chunks[i] + h.s.reg[h.chunks[i]] <==> h.s.blk[p].base == h.chunks[i]
  {
    hide LinksOk, Complete, LiveOk, BumpOk, TilesOk, CountsOk, BytesOk, BlkOk, ListsOk, CacheOk, Distinct;
    var b := h.chunks[i];
    assert b in h.chunks;
    assert Homed(h, p);
    PlacedAt(h.s, p);
    if h.s.blk[p].base != b {
      Outside(h.s, b, p);
    }
  }

  ghost predicate Summed(h: Heap, fb: map<nat, nat>, seen: set<nat>)
  {
    forall b | b in h.chunks :: b in fb && fb[b] == Total(Only(h.s.blk, seen), InRegion(b))
  }

  /** seen is the first i lists and the first j blocks of the next. */
  ghost predicate Seen(fl: seq<seq<nat>>, i: nat, j: nat, seen: set<nat>)
  {
    && i < |fl| && j <= |fl[i]|
    && (forall k, p | 0 <= k < i && p in fl[k] :: p in seen)
    && (forall p | p in fl[i][..j] :: p in seen)
    && (forall p | p in seen :: p in fl[i][..j] || exists k :: 0 <= k < i && p in fl[k])
  }

  lemma TallyNone(h: Heap, fb: map<nat, nat>)
    requires forall b | b in h.chunks :: b in fb && fb[b] == 0
    ensures Summed(h, fb, {})
    ensures |h.s.fl| == NLIST ==> Seen(h.s.fl, 0, 0, {})
  {
    assert Only(h.s.blk, {}) == map[];
  }

  lemma SeenNew(h: Heap, i: nat, j: nat, seen: set<nat>, due: int)
    requires Ok(h, due) && i < NCLASS && |h.s.fl| == NLIST && Seen(h.s.fl, i, j, seen) && j < |h.s.fl[i]|
    ensures h.s.fl[i][j] !in seen && Seen(h.s.fl, i, j + 1, seen + {h.s.fl[i][j]})
  {
    hide RegOk, LinksOk, Complete, LiveOk, BlkOk, Books;
    var q := h.s.fl[i];
    ListDistinct(h.s, i);
    assert q[..j + 1] == q[..j] + [q[j]];
    assert q[j] !in q[..j];
    assert q[j] in q;
    forall k | 0 <= k < i
      ensures q[j] !in h.s.fl[k]
    {
      ListsApart(h.s, k, i, q[j]);
    }
  }

  lemma TallyOne(h: Heap, fb: map<nat, nat>, seen: set<nat>, i: nat, j: nat, due: int)
    requires Ok(h, due) && i < NCLASS && |h.s.fl| == NLIST && Seen(h.s.fl, i, j, seen) && j < |h.s.fl[i]|
    requires Summed(h, fb, seen)
    ensures h.s.fl[i][j] in h.s.blk && h.s.blk[h.s.fl[i][j]].base in fb
    ensures Seen(h.s.fl, i, j + 1, seen + {h.s.fl[i][j]})
    ensures var b := h.s.blk[h.s.fl[i][j]].base; Summed(h, fb[b := fb[b] + CLASSES[i]], seen + {h.s.fl[i][j]})
  {
    hide Ok, Total, Only, Seen;
    var p := h.s.fl[i][j];
    SeenNew(h, i, j, seen, due);
    assert p in h.s.fl[i] by { SeenIn(h.s.fl, i, j, seen); }
    SmallInChunk(h, i, p, due);
    forall b | b in h.chunks
      ensures Total(Only(h.s.blk, seen + {p}), InRegion(b))
           == Total(Only(h.s.blk, seen), InRegion(b)) + InRegion(b)(h.s.blk[p])
    {
      TotalOnlyAdd(h.s.blk, InRegion(b), seen, p);
    }
  }

  lemma SeenIn(fl: seq<seq<nat>>, i: nat, j: nat, seen: set<nat>)
    requires Seen(fl, i, j, seen)
    ensures i < |fl| && j <= |fl[i]|
  {}

  lemma SeenList(fl: seq<seq<nat>>, i: nat, seen: set<nat>)
    requires i + 1 < |fl| && Seen(fl, i, |fl[i]|, seen)
    ensures Seen(fl, i + 1, 0, seen)
  {
    assert fl[i][..|fl[i]|] == fl[i];
  }

  lemma ListNext(h: Heap, k: nat, due: int)
    requires Ok(h, due) && k < NLIST
    ensures |h.s.head| == NLIST && |h.s.fl| == NLIST && h.s.head[k] == Next(h.s.fl[k], 0)
    ensures (h.s.head[k] == 0 <==> |h.s.fl[k]| == 0)
  {
    hide RegOk, BlkOk, LinksOk, Complete, Books, LiveOk;
    HeadAt(h.s, k);
  }

  lemma NonZero(s: State, k: nat, j: nat)
    requires RegOk(s) && BlkOk(s) && ListsOk(s) && k < NLIST && j <= |s.fl[k]|
    ensures Next(s.fl[k], j) == 0 <==> j == |s.fl[k]|
  {
    if j < |s.fl[k]| {
      assert s.fl[k][j] in s.fl[k];
      ListedAt(s, k, s.fl[k][j]);
      PlacedAt(s, s.fl[k][j]);
    }
  }

  lemma LinkNext(h: Heap, k: nat, j: nat, due: int)
    requires Ok(h, due) && k < NLIST && |h.s.fl| == NLIST && j < |h.s.fl[k]|
    ensures h.s.fl[k][j] in h.s.mem && h.s.mem[h.s.fl[k][j]] == Link(Next(h.s.fl[k], j + 1))
    ensures Next(h.s.fl[k], j + 1) == 0 <==> j + 1 == |h.s.fl[k]|
  {
    hide RegOk, BlkOk, LinksOk, Complete, Books, LiveOk;
    LinkAt(h.s, k, j);
    NonZero(h.s, k, j + 1);
  }

  /** For every chunk other than the one being cut: its tally fills it exactly when it is not in use. */
  ghost predicate Tallied(h: Heap, fb: map<nat, nat>)
  {
    forall b | b in h.chunks && Tail(h, b) == 0 ::
      b in fb && b in h.lost && b in h.s.reg && (fb[b] + h.lost[b] == h.s.reg[b] - CHUNK_HEADER <==> !InUse(h, b))
  }

  lemma TallyDone(h: Heap, fb: map<nat, nat>, seen: set<nat>, due: int)
    requires Ok(h, due) && |h.s.fl| == NLIST && Summed(h, fb, seen) && Seen(h.s.fl, NCLASS, 0, seen)
    ensures Tallied(h, fb)
  {
    hide Ok, Total, Only, Seen;
    forall b | b in h.chunks && Tail(h, b) == 0
      ensures b in fb && b in h.lost && b in h.s.reg
      ensures (fb[b] + h.lost[b] == h.s.reg[b] - CHUNK_HEADER <==> !InUse(h, b))
    {
      TileAt(h, b, due);
      TotalAllOf(h.s.blk, InRegion(b), seen);
      UnseenIff(h, seen, b, due);
    }
  }

  lemma UnseenIff(h: Heap, seen: set<nat>, b: nat, due: int)
    requires Ok(h, due) && |h.s.fl| == NLIST && Seen(h.s.fl, NCLASS, 0, seen) && b in h.chunks
    ensures (forall p | p in h.s.blk && p !in seen :: InRegion(b)(h.s.blk[p]) == 0) <==> !InUse(h, b)
  {
    hide Ok, Seen;
    forall p | p in h.s.blk && h.s.blk[p].base == b
      ensures (p in seen <==> p !in h.s.live) && h.s.blk[p].size > 0
    {
      SeenIff(h, seen, p, due);
    }
  }

  lemma TileAt(h: Heap, b: nat, due: int)
    requires Ok(h, due) && b in h.chunks
    ensures b in h.s.reg && b in h.lost
    ensures CHUNK_HEADER + Total(h.s.blk, InRegion(b)) + h.lost[b] + Tail(h, b) == h.s.reg[b]
  {
    assert Tiled(h, b);
  }

  lemma SeenIff(h: Heap, seen: set<nat>, p: nat, due: int)
    requires Ok(h, due) && |h.s.fl| == NLIST && Seen(h.s.fl, NCLASS, 0, seen) && p in h.s.blk
    requires h.s.blk[p].base in h.chunks
    ensures (p in seen <==> p !in h.s.live) && h.s.blk[p].size > 0
  {
    hide RegOk, BlkOk, LinksOk, LiveOk, BumpOk, TilesOk, BytesOk, CacheOk, CountsOk, Listed;
    assert Homed(h, p);
    PlacedAt(h.s, p);
    if p !in h.s.live {
      IdleListed(h, p, due);
    }
    if p in seen {
      var k :| 0 <= k < NCLASS && p in h.s.fl[k];
      ListedAt(h.s, k, p);
    }
  }

  /* ---- unlinking a chunk's blocks ---- */

  lemma UnlinkStart(h: Heap, k: nat, b: nat, due: int)
    requires InvBut(h.s, b) && Books(h, due) && k < NCLASS
    ensures |h.s.head| == NLIST && |h.s.fl| == NLIST && h.s.head[k] == Next(h.s.fl[k], 0)
    ensures (h.s.head[k] == 0 <==> |h.s.fl[k]| == 0) && Keeps(h.s, h.s)
  {
    hide RegOk, BlkOk, LinksOk, Complete, Books, LiveOk;
    HeadAt(h.s, k);
    SameMemKeeps(h.s, h.s);
  }

  lemma UnlinkHere(h: Heap, k: nat, j: nat, b: nat, due: int)
    requires InvBut(h.s, b) && Books(h, due) && k < NCLASS && |h.s.fl| == NLIST && j < |h.s.fl[k]| && b in h.chunks
    ensures var p := h.s.fl[k][j];
      && p in h.s.blk && b in h.s.reg && (b + CHUNK_HEADER <= p < b + h.s.reg[b] <==> h.s.blk[p].base == b)
      && p in h.s.mem && h.s.mem[p] == Link(Next(h.s.fl[k], j + 1)) && p != 0
    ensures Next(h.s.fl[k], j + 1) == 0 <==> j + 1 == |h.s.fl[k]|
  {
    hide RegOk, BlkOk, LinksOk, Complete, Books, LiveOk;
    var i :| 0 <= i < |h.chunks| && h.chunks[i] == b;
    var p := h.s.fl[k][j];
    assert p in h.s.fl[k];
    ListedAt(h.s, k, p);
    InRange(h, p, i, due, b);
    LinkAt(h.s, k, j);
    NonZero(h.s, k, j);
    NonZero(h.s, k, j + 1);
  }

  lemma UnlinkStep(h: Heap, k: nat, j: nat, b: nat, due: int)
    requires InvBut(h.s, b) && Books(h, due) && k < NCLASS && |h.s.fl| == NLIST && j < |h.s.fl[k]|
    requires |h.s.head| == NLIST
    requires h.s.fl[k][j] in h.s.blk && h.s.blk[h.s.fl[k][j]].base == b
    ensures h.s.fl[k][j] in h.s.mem && h.s.mem[h.s.fl[k][j]].Link?
    ensures var g := h.(s := Unlink(h.s, k, j)); InvBut(g.s, b) && Books(g, due) && Keeps(h.s, g.s)
    ensures Next(Unlink(h.s, k, j).fl[k], j) == Next(h.s.fl[k], j + 1)
  {
    hide InvBut, Keeps, RegionsOk, HomesOk, BumpOk, TilesOk, BytesOk, Total;
    UnlinkInv(h.s, k, j, b);
    GroundKept(h, h.(s := Unlink(h.s, k, j)));
  }

  /* ---- the sweep ---- */

  ghost predicate OnlyLists(h: Heap, g: Heap)
  {
    g == h.(s := h.s.(mem := g.s.mem, head := g.s.head, fl := g.s.fl))
  }

  /** Chunk i is gone, and nothing else. */
  ghost predicate Dropped(h: Heap, g: Heap, i: nat)
  {
    && i < |h.chunks| && h.chunks[i] in h.s.reg && g.chunks == RemoveAt(h.chunks, i)
    && g.s.reg == h.s.reg - {h.chunks[i]} && g.s.blk == Others(h.s.blk, h.chunks[i]) && g.s.live == h.s.live
    && g.lost == h.lost - {h.chunks[i]} && g.bumpleft == h.bumpleft
  }

  lemma UnlinkBegin(h: Heap, i: nat, due: int)
    requires Ok(h, due) && i < |h.chunks|
    ensures InvBut(h.s, h.chunks[i]) && Books(h, due) && Keeps(h.s, h.s) && |h.s.fl| == NLIST && h.chunks[i] in h.chunks
    ensures h.chunks[i] in h.s.reg
  {
    hide InvBut, Books;
    Excuse(h.s, h.chunks[i]);
    InvKeeps(h.s);
    BeginFacts(h, i, due);
  }

  lemma BeginFacts(h: Heap, i: nat, due: int)
    requires Ok(h, due) && i < |h.chunks|
    ensures |h.s.fl| == NLIST && h.chunks[i] in h.chunks && h.chunks[i] in h.s.reg && h.chunks[i] in h.lost
  {}

  lemma DropStep(h0: Heap, h: Heap, i: nat, due: int)
    requires Ok(h0, due) && i < |h0.chunks| && !InUse(h0, h0.chunks[i]) && Tail(h0, h0.chunks[i]) == 0
    requires OnlyLists(h0, h) && InvBut(h.s, h0.chunks[i]) && Books(h, due) && Keeps(h0.s, h.s) && |h.s.fl| == NLIST
    requires forall j, p | 0 <= j < NCLASS && p in h.s.fl[j] && p in h.s.blk :: h.s.blk[p].base != h0.chunks[i]
    requires forall j | NCLASS <= j < NLIST :: h.s.fl[j] == h0.s.fl[j]
    ensures h.chunks[i] in h.s.reg && h.chunks == h0.chunks
    ensures Ok(DropChunk(h, i), due) && Quiet(h0, DropChunk(h, i)) && Dropped(h0, DropChunk(h, i), i)
  {
    hide InvBut, Keeps, Books, Ok, Total, Inv;
    Sizes(h0, due);
    var b := h0.chunks[i];
    assert Vacant(h.s, b) by {
      forall k, p | 0 <= k < NLIST && p in h.s.fl[k] && p in h.s.blk
        ensures h.s.blk[p].base != b
      {
        if k >= NCLASS {
          LargeNotIn(h0, k, p, i, due);
        }
      }
    }
    DropChunkOk(h, i, due);
    KeepsTrans(h0.s, h.s, DropChunk(h, i).s);
  }

  lemma LargeNotIn(h: Heap, k: nat, p: nat, i: nat, due: int)
    requires Ok(h, due) && NCLASS <= k < NLIST && |h.s.fl| == NLIST && p in h.s.fl[k] && i < |h.chunks|
    ensures p in h.s.blk && h.s.blk[p].base != h.chunks[i]
  {
    hide RegOk, BlkOk, LinksOk, Complete, LiveOk, BumpOk, TilesOk, BytesOk, CacheOk, CountsOk, Listed;
    ListedAt(h.s, k, p);
    assert Homed(h, p);
    assert h.chunks[i] in h.chunks;
  }

  /** The first i chunks left are settled; every chunk gone was not in use. */
  ghost predicate Swept(h0: Heap, h: Heap, i: nat)
  {
    && i <= |h.chunks|
    && (forall b | b in h.chunks :: b in h0.chunks && (InUse(h, b) <==> InUse(h0, b)))
    && (forall b | b in h0.chunks && b !in h.chunks :: !InUse(h0, b) && Tail(h0, b) == 0)
    && (forall j | 0 <= j < i :: Tail(h, h.chunks[j]) > 0 || InUse(h, h.chunks[j]))
    && (h0.bumpleft > 0 && h0.chunks != [] ==> h.chunks != [] && h.chunks[0] == h0.chunks[0])
  }

  lemma TallyAt(h: Heap, fb: map<nat, nat>, i: nat, due: int)
    requires Ok(h, due) && Tallied(h, fb) && i < |h.chunks|
    ensures var b := h.chunks[i];
      && b in h.lost && b in h.s.reg && h.s.reg[b] >= CHUNK_HEADER
      && (Tail(h, b) == 0 ==> b in fb && (fb[b] + h.lost[b] == h.s.reg[b] - CHUNK_HEADER <==> !InUse(h, b)))
  {
    hide InUse, Inv, HomesOk, TilesOk, BumpOk, Tail;
    assert h.chunks[i] in h.chunks;
  }

  lemma InUseElsewhere(h: Heap, g: Heap, i: nat, b: nat)
    requires Dropped(h, g, i) && b != h.chunks[i]
    ensures InUse(g, b) <==> InUse(h, b)
  {
    if InUse(h, b) {
      var p :| p in h.s.live && p in h.s.blk && h.s.blk[p].base == b;
      assert p in g.s.live && p in g.s.blk && g.s.blk[p].base == b;
    }
  }

  lemma DroppedTail(h: Heap, g: Heap, i: nat, b: nat)
    requires Dropped(h, g, i) && Distinct(h.chunks) && Tail(h, h.chunks[i]) == 0 && b in g.chunks
    ensures Tail(g, b) == Tail(h, b) && b in h.chunks && b != h.chunks[i]
  {
    RemoveAtIn(h.chunks, i);
  }

  lemma TalliedLess(h: Heap, g: Heap, fb: map<nat, nat>, i: nat, due: int)
    requires Ok(h, due) && Tallied(h, fb) && Dropped(h, g, i) && Tail(h, h.chunks[i]) == 0
    ensures Tallied(g, fb)
  {
    hide InUse, Inv, HomesOk, TilesOk, BumpOk, Tail, Distinct, CountsOk, BytesOk, CacheOk;
    forall b | b in g.chunks && Tail(g, b) == 0
      ensures b in fb && b in g.lost && b in g.s.reg
      ensures (fb[b] + g.lost[b] == g.s.reg[b] - CHUNK_HEADER <==> !InUse(g, b))
    {
      DroppedTail(h, g, i, b);
      InUseElsewhere(h, g, i, b);
    }
  }

  lemma SweptStart(h: Heap)
    ensures Swept(h, h, 0)
  {}

  /** The chunk being cut, if any, is still the first. */
  lemma CurAt(h0: Heap, h: Heap, i: nat)
    requires Swept(h0, h, i) && h.bumpleft == h0.bumpleft && i < |h.chunks|
    ensures h0.chunks != [] && (Tail(h, h.chunks[i]) > 0 <==> h.bumpleft > 0 && h.chunks[i] == h0.chunks[0])
  {
    assert h.chunks[i] in h.chunks;
  }

  lemma SweptKeep(h0: Heap, h: Heap, i: nat)
    requires Swept(h0, h, i) && i < |h.chunks| && (Tail(h, h.chunks[i]) > 0 || InUse(h, h.chunks[i]))
    ensures Swept(h0, h, i + 1)
  {}

  lemma SweptDrop(h0: Heap, h: Heap, g: Heap, i: nat)
    requires Swept(h0, h, i) && i < |h.chunks| && Dropped(h, g, i) && Tail(h, h.chunks[i]) == 0
    requires !InUse(h, h.chunks[i])
    requires Distinct(h.chunks) && h.bumpleft == h0.bumpleft
    ensures Swept(h0, g, i) && i <= |g.chunks| < |h.chunks|
  {
    hide InUse, Distinct;
    RemoveAtIn(h.chunks, i);
    var b := h.chunks[i];
    assert b in h.chunks;
    assert Tail(h0, b) == 0;
    forall c | c in g.chunks
      ensures c in h0.chunks && (InUse(g, c) <==> InUse(h0, c))
    {
      InUseElsewhere(h, g, i, c);
    }
    forall j | 0 <= j < i
      ensures Tail(g, g.chunks[j]) > 0 || InUse(g, g.chunks[j])
    {
      assert g.chunks[j] == h.chunks[j];
      assert g.chunks[j] in g.chunks;
      DroppedTail(h, g, i, g.chunks[j]);
      InUseElsewhere(h, g, i, g.chunks[j]);
    }
  }

  lemma DroppedBump(h: Heap, g: Heap, i: nat)
    requires Dropped(h, g, i)
    ensures g.bumpleft == h.bumpleft
  {}

  lemma OkDistinct(h: Heap, due: int)
    requires Ok(h, due)
    ensures Distinct(h.chunks)
  {}

  lemma SweptAll(h0: Heap, h: Heap)
    requires Swept(h0, h, |h.chunks|) && h.bumpleft == h0.bumpleft && (h0.bumpleft > 0 ==> h0.chunks != [])
    ensures forall b :: b in h.chunks <==> b in h0.chunks && ((h.bumpleft > 0 && b == h0.chunks[0]) || InUse(h0, b))
  {
    hide InUse;
    forall b | b in h.chunks
      ensures (h.bumpleft > 0 && b == h0.chunks[0]) || InUse(h0, b)
    {
      var j :| 0 <= j < |h.chunks| && h.chunks[j] == b;
      assert Tail(h, h.chunks[j]) > 0 || InUse(h, h.chunks[j]);
    }
  }

  lemma BumpChunk(h: Heap, due: int)
    requires Ok(h, due)
    ensures h.bumpleft > 0 ==> h.chunks != []
  {}

  /** What letting a cached block go comes to. */
  lemma EvictView(h: Heap, k: nat, i: nat)
    requires MayEvict(h, k, i)
    ensures var p := h.s.head[k];
      var b := h.larges[i];
      Evicted(h, k, i) ==
      h.(s := State(Unmap(h.s.mem, b, h.s.reg[b]), h.s.reg - {b}, h.s.blk - {p}, h.s.live,
                    h.s.head[k := h.s.mem[p].next], h.s.fl[k := h.s.fl[k][1..]]),
         larges := RemoveAt(h.larges, i),
         nlargefree := h.nlargefree[k - NCLASS := h.nlargefree[k - NCLASS] - 1],
         c := h.c.(largecached := h.c.largecached - h.s.reg[b], mapped := h.c.mapped - h.s.reg[b]))
  {
    var p := h.s.head[k];
    assert h.s.live[p := ListSize(k)] - {p} == h.s.live;
  }

  lemma DropView(h: Heap, i: nat)
    requires i < |h.chunks| && h.chunks[i] in h.s.reg
    ensures var b := h.chunks[i];
      DropChunk(h, i) ==
      h.(s := h.s.(mem := Unmap(h.s.mem, b, h.s.reg[b]), reg := h.s.reg - {b}, blk := Others(h.s.blk, b)),
         chunks := RemoveAt(h.chunks, i), lost := h.lost - {b},
         c := h.c.(mapped := h.c.mapped - h.s.reg[b], nchunks := h.c.nchunks - 1))
  {}

  /* ---- handing out and taking back ---- */

  /** A call that hands out p for n bytes, or nothing. */
  ghost predicate Served(h: Heap, g: Heap, p: nat, n: nat)
  {
    && Keeps(h.s, g.s) && g.c.live == h.c.live && g.c.peak == h.c.peak
    && (p == 0 ==> g.s.live == h.s.live)
    && (p != 0 ==> p !in h.s.live && g.s.live == h.s.live[p := n])
  }

  lemma ServedAfter(h: Heap, m: Heap, g: Heap, p: nat, n: nat)
    requires Quiet(h, m) && Served(m, g, p, n)
    ensures Served(h, g, p, n)
  {
    KeepsTrans(h.s, m.s, g.s);
  }

  lemma ServedNone(h: Heap, g: Heap, n: nat)
    requires Quiet(h, g)
    ensures Served(h, g, 0, n)
  {}

  /** A call that takes p back. */
  ghost predicate Taken(h: Heap, g: Heap, p: nat)
  {
    Keeps(h.s, g.s) && g.c.live == h.c.live && g.c.peak == h.c.peak && g.s.live == h.s.live - {p}
  }

  lemma UnmappedSame(mem: map<nat, Cell>, t: map<nat, Cell>, b: nat, n: nat)
    requires Unmapped(mem, b, n) && t.Keys == mem.Keys
    ensures Unmapped(t, b, n)
  {
    forall a: nat | b <= a < b + n
      ensures a !in t
    {
      assert a !in mem.Keys;
    }
  }

  lemma SmallIs(n: nat)
    requires ClassOf(n) < NCLASS
    ensures ListOf(n) == ClassOf(n) && n <= 512
  {}

  lemma LiveIs(h: Heap, p: nat, due: int)
    requires Ok(h, due) && p in h.s.live
    ensures p in h.s.blk && |h.s.head| == NLIST && |h.s.fl| == NLIST
    ensures 0 < h.s.live[p] <= h.s.blk[p].size && h.s.blk[p].size == CapOf(h.s.live[p])
    ensures h.s.blk[p].list == ListOf(h.s.live[p])
    ensures h.s.live[p] <= 512 ==> h.s.blk[p].list < NCLASS && h.s.blk[p].size == Width(h.s.blk[p].list)
  {
    hide Inv, Books;
    LiveFacts(h, p);
  }

  lemma LargeAt(h: Heap, p: nat, due: int)
    requires Ok(h, due) && p in h.s.live && h.s.live[p] > 512
    ensures p >= LARGE_HEADER && p - LARGE_HEADER in h.s.reg && p - LARGE_HEADER in h.larges && p in h.s.blk
    ensures h.s.blk[p].list == NCLASS + LargeClassOf(h.s.reg[p - LARGE_HEADER])
    ensures h.s.reg[p - LARGE_HEADER] == h.s.blk[p].size + LARGE_HEADER
  {
    hide Inv, BumpOk, TilesOk, BytesOk, CacheOk, CountsOk, RegionsOk, CapOf, ListOf;
    LiveFacts(h, p);
    assert Homed(h, p);
  }

  lemma CachedReg(h: Heap, k: nat, due: int)
    requires Ok(h, due) && NCLASS <= k < NLIST && |h.s.head| == NLIST && h.s.head[k] != 0
    ensures h.s.head[k] in h.s.blk && h.s.head[k] >= LARGE_HEADER && h.s.head[k] - LARGE_HEADER in h.s.reg
    ensures h.s.reg[h.s.head[k] - LARGE_HEADER] == h.s.blk[h.s.head[k]].size + LARGE_HEADER
  {
    hide RegOk, BlkOk, LinksOk, Complete, LiveOk, BumpOk, TilesOk, CountsOk, BytesOk, RegionsOk;
    HeadAt(h.s, k);
    assert Homed(h, h.s.head[k]);
  }

  /** large_free's guard against taking off more than was asked never bites. */
  lemma AskedSum(h: Heap, p: nat, due: int)
    requires Ok(h, due) && p in h.s.live && h.s.live[p] > 512
    ensures h.s.live[p] <= h.c.largeAsked
  {
    hide Inv, RegionsOk, HomesOk, BumpOk, TilesOk, BytesOk, CacheOk;
    TotalTake(h.s.live, AskOf(), p);
  }

  /* ---- what realloc promises its caller ---- */

  /** The n bytes at p are mapped in both and the same. */
  ghost predicate Same(mem: map<nat, Cell>, t: map<nat, Cell>, p: nat, n: nat)
  {
    forall a: nat | p <= a < p + n :: a in mem && a in t && t[a] == mem[a]
  }

  /** Every block but ptr is handed out as before, with its bytes. */
  ghost predicate OthersSame(s: State, t: State, ptr: nat)
  {
    forall q | q in s.live && q != ptr :: q in t.live && t.live[q] == s.live[q] && Same(s.mem, t.mem, q, s.live[q])
  }

  /** realloc's whole effect on what is handed out and on its bytes. */
  ghost predicate Realloced(s: State, t: State, ptr: nat, osize: nat, nsize: nat, r: nat)
  {
    && OthersSame(s, t, ptr)
    && (nsize == 0 ==> r == 0 && t.live == s.live - {ptr})
    && (nsize > 0 && r == 0 ==> t.live == s.live && (ptr in s.live ==> Same(s.mem, t.mem, ptr, s.live[ptr])))
    && (nsize > 0 && r != 0 ==>
          && (r == ptr || r !in s.live) && t.live == (s.live - {ptr})[r := nsize]
          && (ptr != 0 ==> Copied(s.mem, t.mem, ptr, r, if osize < nsize then osize else nsize)))
  }

  lemma PutOthers(h: Heap, p: nat, a: nat, v: nat, due: int)
    requires Ok(h, due) && p in h.s.live && p <= a < p + h.s.live[p]
    ensures OthersSame(h.s, PutByte(h.s, a, v), p)
  {
    hide Inv, Books;
    PutInv(h.s, p, a, v);
  }

  lemma ClassLimit(n: nat)
    ensures ClassOf(n) < NCLASS <==> n <= 512
  {
    SmallList(n);
  }

  lemma NoteOk(h: Heap, live: int, peak: int, delta: int)
    requires Ok(h, -delta) && live == h.c.live + delta
    ensures Ok(h.(c := h.c.(live := live, peak := peak)), 0)
  {
    hide Inv, RegionsOk, HomesOk, BumpOk, TilesOk, Total;
    GroundKept(h, h.(c := h.c.(live := live, peak := peak)));
  }

  lemma KeepsSame(s: State, t: State, p: nat, n: nat)
    requires Keeps(s, t) && p in s.live && p in t.live && n <= s.live[p] && n <= t.live[p]
    ensures Same(s.mem, t.mem, p, n)
  {}

  lemma KeepsOthers(s: State, t: State, ptr: nat)
    requires Keeps(s, t) && (forall q | q in s.live && q != ptr :: q in t.live && t.live[q] == s.live[q])
    ensures OthersSame(s, t, ptr)
  {
    hide Keeps, Same;
    forall q | q in s.live && q != ptr
      ensures Same(s.mem, t.mem, q, s.live[q])
    {
      KeepsSame(s, t, q, s.live[q]);
    }
  }

  /** Only counters differ from one to the next. */
  ghost predicate SameState(h: Heap, g: Heap)
  {
    g.s == h.s
  }

  lemma FreeDone(h0: Heap, h1: Heap, g: Heap, ptr: nat, osize: nat)
    requires Taken(h0, h1, ptr) && SameState(h1, g) && ptr in h0.s.live && h0.s.live[ptr] == osize && ptr != 0
    ensures Realloced(h0.s, g.s, ptr, osize, 0, 0)
  {
    KeepsOthers(h0.s, g.s, ptr);
  }

  lemma NothingDone(h: Heap, osize: nat)
    requires Ok(h, 0)
    ensures Realloced(h.s, h.s, 0, osize, 0, 0) && 0 !in h.s.live
  {
    hide Books, Inv, Keeps;
    InvKeeps(h.s);
    KeepsOthers(h.s, h.s, 0);
    NotNull(h.s);
    assert h.s.live - {0} == h.s.live;
  }

  lemma NotNull(s: State)
    requires Inv(s)
    ensures 0 !in s.live
  {
    hide ListsOk, LinksOk, Complete, CapOf, ListOf, BlkOk, LiveOk;
    if 0 in s.live {
      LiveAt(s, 0);
      PlacedAt(s, 0);
      assert false;
    }
  }

  lemma AllocDone(h0: Heap, h1: Heap, g: Heap, osize: nat, nsize: nat, r: nat)
    requires Ok(h0, 0) && Served(h0, h1, r, nsize) && SameState(h1, g) && nsize > 0
    ensures Realloced(h0.s, g.s, 0, osize, nsize, r)
  {
    hide Ok, Keeps;
    KeepsOthers(h0.s, g.s, 0);
    NothingDone(h0, 0);
    assert h0.s.live - {0} == h0.s.live;
  }

  lemma MoveFailed(h0: Heap, h1: Heap, ptr: nat, osize: nat, nsize: nat)
    requires Served(h0, h1, 0, nsize) && ptr in h0.s.live && nsize > 0
    ensures Realloced(h0.s, h1.s, ptr, osize, nsize, 0)
  {
    hide Keeps;
    KeepsOthers(h0.s, h1.s, ptr);
    KeepsSame(h0.s, h1.s, ptr, h0.s.live[ptr]);
  }

  lemma MoveReady(h0: Heap, h1: Heap, ptr: nat, q: nat, osize: nat, nsize: nat)
    requires Served(h0, h1, q, nsize) && q != 0 && ptr in h0.s.live && h0.s.live[ptr] == osize && Ok(h1, 0 - nsize)
    ensures var n := if osize < nsize then osize else nsize;
      && ptr != q && Mapped(h1.s.mem, ptr, n) && Ok(h1.(s := Copy(h1.s, ptr, q, n)), 0 - nsize)
      && ptr in h1.s.live && h1.s.live[ptr] == osize && Inv(h1.s)
  {
    hide Inv, Books, Keeps;
    CopyOk(h1, ptr, q, if osize < nsize then osize else nsize, 0 - nsize);
  }

  lemma MoveDone(h0: Heap, h1: Heap, h2: Heap, h3: Heap, g: Heap, ptr: nat, q: nat, osize: nat, nsize: nat)
    requires Served(h0, h1, q, nsize) && q != 0 && ptr != 0 && ptr in h0.s.live && h0.s.live[ptr] == osize && nsize > 0
    requires Inv(h1.s)
    requires
      var n := if osize < nsize then osize else nsize;
      Mapped(h1.s.mem, ptr, n) && h2 == h1.(s := Copy(h1.s, ptr, q, n))
    requires Taken(h2, h3, ptr) && SameState(h3, g)
    ensures Realloced(h0.s, g.s, ptr, osize, nsize, q)
  {
    hide Inv, Keeps, CopyBytes, Mapped, Same, Copied;
    var n := if osize < nsize then osize else nsize;
    CopyInv(h1.s, ptr, q, n);
    forall r | r in h0.s.live && r != ptr
      ensures r in g.s.live && g.s.live[r] == h0.s.live[r] && Same(h0.s.mem, g.s.mem, r, h0.s.live[r])
    {
      KeepsSame(h0.s, h1.s, r, h0.s.live[r]);
      CopySame(h1.s, ptr, q, n, r);
      KeepsSame(h2.s, h3.s, r, h0.s.live[r]);
      SameTrans(h0.s.mem, h1.s.mem, h2.s.mem, r, h0.s.live[r]);
      SameTrans(h0.s.mem, h2.s.mem, h3.s.mem, r, h0.s.live[r]);
    }
    KeepsSame(h0.s, h1.s, ptr, n);
    KeepsSame(h2.s, h3.s, q, n);
    CopiedAcross(h0.s.mem, h1.s.mem, h2.s.mem, h3.s.mem, ptr, q, n);
    assert g.s.live == (h0.s.live - {ptr})[q := nsize];
  }

  lemma CopySame(s: State, p: nat, q: nat, n: nat, r: nat)
    requires Inv(s) && p in s.live && q in s.live && p != q && n <= s.live[p] && n <= s.live[q] && r in s.live && r != q
    ensures Mapped(s.mem, p, n) && Same(s.mem, Copy(s, p, q, n).mem, r, s.live[r])
  {
    hide Inv, Copied;
    CopyInv(s, p, q, n);
  }

  lemma SameTrans(m: map<nat, Cell>, t: map<nat, Cell>, u: map<nat, Cell>, p: nat, n: nat)
    requires Same(m, t, p, n) && Same(t, u, p, n)
    ensures Same(m, u, p, n)
  {}

  lemma CopiedAcross(m: map<nat, Cell>, t: map<nat, Cell>, u: map<nat, Cell>, v: map<nat, Cell>, p: nat, q: nat, n: nat)
    requires Same(m, t, p, n) && Copied(t, u, p, q, n) && Same(u, v, q, n)
    ensures Copied(m, v, p, q, n)
  {}

  lemma KeepDone(h: Heap, g: Heap, p: nat, osize: nat, nsize: nat)
    requires p in h.s.live && h.s.live[p] == osize && nsize > 0 && p != 0 && g.s == Resize(h.s, p, nsize)
    requires Keeps(h.s, g.s)
    ensures Realloced(h.s, g.s, p, osize, nsize, p)
  {
    hide Keeps;
    KeepsOthers(h.s, g.s, p);
    KeepsSame(h.s, g.s, p, if osize < nsize then osize else nsize);
    assert g.s.live == (h.s.live - {p})[p := nsize];
  }

  /** Would the chunk source's offer be a fresh aligned region? */
  predicate Suitable(mem: map<nat, Cell>, b: nat, n: nat)
  {
    b != 0 && b % ALIGN == 0 && Unmapped(mem, b, n)
  }

  lemma SuitableNonzero(mem: map<nat, Cell>, b: nat, n: nat)
    ensures Suitable(mem, b, n) ==> b != 0
  {}

  lemma ChunkSuits(mem: map<nat, Cell>, t: map<nat, Cell>, b: nat, n: nat)
    requires Suitable(mem, b, n) && t.Keys == mem.Keys
    ensures b != 0 && b % ALIGN == 0 && Unmapped(t, b, n)
  {
    UnmappedSame(mem, t, b, n);
  }
}
