/** Each move of the allocator, with its bookkeeping, keeps the whole heap in order. */
module HeapMoves {
  import opened HeapState
  import opened HeapSteps
  import opened Totals
  import opened HeapAccount

  /* ---- totals as one block changes hands ---- */

  lemma LiveLess(live: map<nat, nat>, p: nat)
    requires p in live
    ensures Total(live, Id()) == Total(live - {p}, Id()) + live[p]
    ensures Total(live, RoundOf()) == Total(live - {p}, RoundOf()) + RoundOf()(live[p])
    ensures Total(live, AskOf()) == Total(live - {p}, AskOf()) + AskOf()(live[p])
    ensures Total(live, OneOf()) == Total(live - {p}, OneOf()) + OneOf()(live[p])
  {
    TotalTake(live, Id(), p);
    TotalTake(live, RoundOf(), p);
    TotalTake(live, AskOf(), p);
    TotalTake(live, OneOf(), p);
  }

  lemma LiveMore(live: map<nat, nat>, p: nat, n: nat)
    requires p !in live
    ensures Total(live[p := n], Id()) == Total(live, Id()) + n
    ensures Total(live[p := n], RoundOf()) == Total(live, RoundOf()) + RoundOf()(n)
    ensures Total(live[p := n], AskOf()) == Total(live, AskOf()) + AskOf()(n)
    ensures Total(live[p := n], OneOf()) == Total(live, OneOf()) + OneOf()(n)
  {
    hide Total;
    TotalAdd(live, Id(), p, n);
    TotalAdd(live, RoundOf(), p, n);
    TotalAdd(live, AskOf(), p, n);
    TotalAdd(live, OneOf(), p, n);
  }

  ghost function Idle(blk: map<nat, Blk>, live: map<nat, nat>): nat
  {
    Total(Except(blk, live.Keys), Cache())
  }

  lemma IdleMore(blk: map<nat, Blk>, live: map<nat, nat>, p: nat)
    requires p in live && p in blk
    ensures Idle(blk, live - {p}) == Idle(blk, live) + Cache()(blk[p])
  {
    var m := Except(blk, (live - {p}).Keys);
    assert m - {p} == Except(blk, live.Keys);
    TotalTake(m, Cache(), p);
  }

  lemma IdleLess(blk: map<nat, Blk>, live: map<nat, nat>, p: nat, n: nat)
    requires p !in live && p in blk
    ensures Idle(blk, live[p := n]) + Cache()(blk[p]) == Idle(blk, live)
  {
    IdleMore(blk, live[p := n], p);
    assert live[p := n] - {p} == live;
  }

  /** A block cut straight into use, or given up straight from use, is never idle. */
  lemma IdleSame(blk: map<nat, Blk>, live: map<nat, nat>, p: nat, k: Blk, n: nat)
    ensures p !in live && p !in blk ==> Idle(blk[p := k], live[p := n]) == Idle(blk, live)
    ensures p in live ==> Idle(blk - {p}, live - {p}) == Idle(blk, live)
  {
    if p !in live && p !in blk {
      assert Except(blk[p := k], live[p := n].Keys) == Except(blk, live.Keys);
    }
    if p in live {
      assert Except(blk - {p}, (live - {p}).Keys) == Except(blk, live.Keys);
    }
  }

  /** Nothing but lists, use and counters differ. */
  ghost predicate SameGround(h: Heap, g: Heap)
  {
    && g.s.reg == h.s.reg && g.s.blk == h.s.blk && g.own == h.own && g.chunks == h.chunks && g.larges == h.larges
    && g.lost == h.lost
    && g.bump == h.bump && g.bumpleft == h.bumpleft && g.c.mapped == h.c.mapped
  }

  lemma GroundKept(h: Heap, g: Heap)
    requires SameGround(h, g)
    ensures RegionsOk(h) ==> RegionsOk(g)
    ensures HomesOk(h) ==> HomesOk(g)
    ensures BumpOk(h) ==> BumpOk(g)
    ensures TilesOk(h) ==> TilesOk(g)
    ensures RegionsOk(h) && BytesOk(h) ==> BytesOk(g)
  {
    hide Used, Apart;
    if HomesOk(h) {
      forall p | p in g.s.blk
        ensures g.s.blk[p].base in g.s.reg && Homed(g, p)
      {
        assert Homed(h, p);
      }
    }
    if TilesOk(h) {
      forall b | b in g.chunks
        ensures b in g.s.reg && b in g.lost && Tiled(g, b)
      {
        assert Tiled(h, b);
      }
    }
  }

  lemma LiveFacts(h: Heap, p: nat)
    requires Inv(h.s) && p in h.s.live
    ensures p in h.s.blk && |h.s.head| == NLIST && |h.s.fl| == NLIST
    ensures 0 < h.s.live[p] <= h.s.blk[p].size && h.s.blk[p].size == CapOf(h.s.live[p])
    ensures h.s.blk[p].list == ListOf(h.s.live[p])
    ensures h.s.blk[p].list < NCLASS <==> h.s.live[p] <= 512
  {
    hide RegOk, BlkOk, LinksOk, Complete, ListOf, CapOf;
    LiveAt(h.s, p);
    SmallList(h.s.live[p]);
  }

  /* ---- small_free ---- */

  ghost function GiveSmall(h: Heap, p: nat): Heap
    requires p in h.s.blk && h.s.blk[p].list < |h.s.head| && h.s.blk[p].list < |h.s.fl|
  {
    h.(s := Push(h.s, p), c := h.c.(rounded := h.c.rounded - h.s.blk[p].size))
  }

  lemma GiveSmallOk(h: Heap, p: nat, due: int)
    requires Ok(h, due) && p in h.s.live && h.s.live[p] <= 512
    ensures p in h.s.blk && h.s.blk[p].list < |h.s.head| && h.s.blk[p].list < |h.s.fl|
    ensures Ok(GiveSmall(h, p), due + h.s.live[p]) && Keeps(h.s, GiveSmall(h, p).s)
  {
    hide Inv, RegionsOk, HomesOk, BumpOk, TilesOk, CapOf, ListOf, Total, Except, Keeps, BytesOk;
    LiveFacts(h, p);
    PushInv0(h.s, p);
    GroundKept(h, GiveSmall(h, p));
    LiveLess(h.s.live, p);
    IdleMore(h.s.blk, h.s.live, p);
  }

  lemma PushInv0(s: State, p: nat)
    requires Inv(s) && p in s.live && p in s.blk && s.blk[p].list < NLIST
    ensures |s.head| == NLIST && |s.fl| == NLIST && Inv(Push(s, p)) && Keeps(s, Push(s, p))
  {
    hide BlkOk, LiveOk, LinksOk, Complete, Keeps, RegOk;
    PushInv(s, p, 0);
  }

  /* ---- large_free, keeping the block ---- */

  ghost function CacheLarge(h: Heap, p: nat): Heap
    requires p in h.s.blk && h.s.blk[p].list < |h.s.head| && h.s.blk[p].list < |h.s.fl| && p in h.s.live
    requires NCLASS <= h.s.blk[p].list < NCLASS + |h.nlargefree|
  {
    var i := h.s.blk[p].list - NCLASS;
    h.(s := Push(h.s, p), nlargefree := h.nlargefree[i := h.nlargefree[i] + 1],
       c := h.c.(largecached := h.c.largecached + h.s.blk[p].size + LARGE_HEADER, nlarges := h.c.nlarges - 1,
                 largeAsked := h.c.largeAsked - h.s.live[p]))
  }

  lemma CacheLargeOk(h: Heap, p: nat, due: int)
    requires Ok(h, due) && p in h.s.live && h.s.live[p] > 512 && p in h.s.blk && h.s.blk[p].list < NLIST
    requires NCLASS <= h.s.blk[p].list && h.nlargefree[h.s.blk[p].list - NCLASS] < LARGE_CACHED
    ensures |h.s.head| == NLIST && |h.s.fl| == NLIST
    ensures Ok(CacheLarge(h, p), due + h.s.live[p]) && Keeps(h.s, CacheLarge(h, p).s)
  {
    hide Inv, RegionsOk, HomesOk, BumpOk, TilesOk, CapOf, ListOf, Total, Except, Keeps, BytesOk;
    LiveFacts(h, p);
    PushInv0(h.s, p);
    GroundKept(h, CacheLarge(h, p));
    LiveLess(h.s.live, p);
    IdleMore(h.s.blk, h.s.live, p);
  }

  /* ---- a listed block is handed out ---- */

  lemma PopInv0(s: State, k: nat, n: nat)
    requires Inv(s) && k < NLIST && s.fl[k] != [] && n > 0 && ListOf(n) == k
    ensures |s.head| == NLIST && |s.fl| == NLIST
    ensures s.head[k] in s.mem && s.mem[s.head[k]].Link? && s.head[k] == s.fl[k][0] && s.head[k] !in s.live
    ensures s.head[k] in s.blk
    ensures s.blk[s.head[k]].list == k && s.blk[s.head[k]].size == CapOf(n)
    ensures Inv(Pop(s, k, n)) && Keeps(s, Pop(s, k, n))
  {
    hide BlkOk, LiveOk, ListsOk, LinksOk, Complete, Keeps, RegOk, ListOf, CapOf;
    ListsSizes(s);
    PopInv(s, k, n, 0);
    LiveAt(Pop(s, k, n), s.head[k]);
  }

  ghost function TakeSmall(h: Heap, k: nat, n: nat): Heap
    requires k < |h.s.head| && k < |h.s.fl| && h.s.fl[k] != [] && h.s.head[k] in h.s.mem && h.s.mem[h.s.head[k]].Link?
    requires k < NCLASS
  {
    h.(s := Pop(h.s, k, n), c := h.c.(rounded := h.c.rounded + Width(k)))
  }

  lemma TakeSmallOk(h: Heap, k: nat, n: nat, due: int)
    requires Ok(h, due) && k < NCLASS && h.s.fl[k] != [] && n > 0 && ListOf(n) == k
    ensures |h.s.head| == NLIST && |h.s.fl| == NLIST && h.s.head[k] in h.s.mem && h.s.mem[h.s.head[k]].Link?
    ensures h.s.head[k] !in h.s.live
    ensures Ok(TakeSmall(h, k, n), due - n) && Keeps(h.s, TakeSmall(h, k, n).s)
  {
    hide Inv, RegionsOk, HomesOk, BumpOk, TilesOk, CapOf, ListOf, Total, Except, Keeps, BytesOk;
    PopInv0(h.s, k, n);
    SmallList(n);
    SmallCap(n);
    GroundKept(h, TakeSmall(h, k, n));
    LiveMore(h.s.live, h.s.head[k], n);
    IdleLess(h.s.blk, h.s.live, h.s.head[k], n);
  }

  lemma SmallCap(n: nat)
    requires ListOf(n) < NCLASS
    ensures CapOf(n) == Width(ListOf(n)) && n <= 512
  {}

  ghost function TakeLarge(h: Heap, k: nat, n: nat): Heap
    requires k < |h.s.head| && k < |h.s.fl| && h.s.fl[k] != [] && h.s.head[k] in h.s.mem && h.s.mem[h.s.head[k]].Link?
    requires h.s.head[k] in h.s.blk
    requires NCLASS <= k < NCLASS + |h.nlargefree| && h.nlargefree[k - NCLASS] > 0
  {
    var i := k - NCLASS;
    h.(s := Pop(h.s, k, n), nlargefree := h.nlargefree[i := h.nlargefree[i] - 1],
       c := h.c.(largecached := h.c.largecached - h.s.blk[h.s.head[k]].size - LARGE_HEADER,
                 nlarges := h.c.nlarges + 1, largeAsked := h.c.largeAsked + n))
  }

  lemma TakeLargeOk(h: Heap, k: nat, n: nat, due: int)
    requires Ok(h, due) && NCLASS <= k < NLIST && h.s.fl[k] != [] && n > 0 && ListOf(n) == k
    ensures |h.s.head| == NLIST && |h.s.fl| == NLIST && h.s.head[k] in h.s.mem && h.s.mem[h.s.head[k]].Link?
    ensures h.s.head[k] !in h.s.live
    ensures h.s.head[k] in h.s.blk && h.nlargefree[k - NCLASS] > 0
    ensures Ok(TakeLarge(h, k, n), due - n) && Keeps(h.s, TakeLarge(h, k, n).s)
  {
    hide Inv, RegionsOk, HomesOk, BumpOk, TilesOk, CapOf, ListOf, Total, Except, Keeps, BytesOk;
    PopInv0(h.s, k, n);
    SmallList(n);
    GroundKept(h, TakeLarge(h, k, n));
    LiveMore(h.s.live, h.s.head[k], n);
    IdleLess(h.s.blk, h.s.live, h.s.head[k], n);
  }

  /* ---- a block is cut at the bump pointer ---- */

  ghost function Cut(h: Heap, k: nat, n: nat): Heap
    requires k < NCLASS && h.chunks != [] && Width(k) <= h.bumpleft
  {
    h.(s := Carve(h.s, h.bump, Blk(Width(k), k, h.chunks[0]), n), bump := h.bump + Width(k),
       bumpleft := h.bumpleft - Width(k),
       c := h.c.(rounded := h.c.rounded + Width(k)))
  }

  lemma CutInv(h: Heap, k: nat, n: nat)
    requires Inv(h.s) && BumpOk(h) && k < NCLASS && Width(k) <= h.bumpleft && n > 0 && ListOf(n) == k
    ensures h.chunks != [] && h.bump !in h.s.blk && h.bump !in h.s.live && h.bump > 0
    ensures Inv(Cut(h, k, n).s) && Keeps(h.s, Cut(h, k, n).s)
  {
    hide RegOk, BlkOk, LiveOk, ListsOk, LinksOk, Complete, Keeps, CapOf, ListOf, Placed, ListSize;
    var w := Blk(Width(k), k, h.chunks[0]);
    assert h.bump !in h.s.blk by {
      if h.bump in h.s.blk {
        PlacedAt(h.s, h.bump);
        PlacedSize(h.s, h.bump);
      }
    }
    SmallCap(n);
    SmallSize(k);
    PlacedNew(Carve(h.s, h.bump, w, n), h.bump);
    CarveInv(h.s, h.bump, w, n, 0);
  }

  lemma SmallSize(k: nat)
    requires k < NCLASS
    ensures ListSize(k) == Width(k)
  {}

  lemma PlacedSize(s: State, p: nat)
    requires p in s.blk && Placed(s, p)
    ensures s.blk[p].size >= 8
  {}

  lemma PlacedNew(s: State, p: nat)
    requires p in s.blk
    requires var k := s.blk[p];
      && k.base in s.reg && k.base + LARGE_HEADER <= p && p + k.size <= k.base + s.reg[k.base]
      && p % ALIGN == 0 && 8 <= k.size && k.list <= NLIST && (k.list < NLIST ==> k.size == ListSize(k.list))
    ensures Placed(s, p)
  {}

  lemma CutGround(h: Heap, k: nat, n: nat)
    requires RegionsOk(h) && HomesOk(h) && BumpOk(h) && k < NCLASS && Width(k) <= h.bumpleft && h.chunks != []
    requires h.bump !in h.s.blk
    ensures RegionsOk(Cut(h, k, n)) && HomesOk(Cut(h, k, n)) && BumpOk(Cut(h, k, n))
  {
    hide Distinct;
    CutBumpOk(h, k, n);
    var g := Cut(h, k, n);
    hide Apart;
    forall p | p in g.s.blk
      ensures g.s.blk[p].base in g.s.reg && Homed(g, p)
    {
      if p != h.bump {
        assert Homed(h, p);
      }
    }
  }

  lemma CutBumpOk(h: Heap, k: nat, n: nat)
    requires BumpOk(h) && k < NCLASS && Width(k) <= h.bumpleft && h.chunks != []
    ensures BumpOk(Cut(h, k, n))
  {
    hide Width;
  }

  lemma UsedMore(blk: map<nat, Blk>, p: nat, k: Blk, b: nat)
    requires p !in blk
    ensures Used(blk[p := k], b) == Used(blk, b) + (if k.base == b then k.size else 0)
  {
    TotalAdd(blk, InRegion(b), p, k);
  }

  lemma CutTiles(h: Heap, k: nat, n: nat)
    requires TilesOk(h) && k < NCLASS && Width(k) <= h.bumpleft && h.chunks != [] && h.bump !in h.s.blk
    ensures TilesOk(Cut(h, k, n))
  {
    hide Used;
    var g := Cut(h, k, n);
    forall b | b in g.chunks
      ensures b in g.s.reg && b in g.lost && Tiled(g, b)
    {
      assert Tiled(h, b);
      UsedMore(h.s.blk, h.bump, Blk(Width(k), k, h.chunks[0]), b);
    }
  }

  lemma CutOk(h: Heap, k: nat, n: nat, due: int)
    requires Ok(h, due) && k < NCLASS && Width(k) <= h.bumpleft && n > 0 && ListOf(n) == k
    ensures h.chunks != [] && h.bump !in h.s.live && h.bump > 0
    ensures Ok(Cut(h, k, n), due - n) && Keeps(h.s, Cut(h, k, n).s)
  {
    hide Inv, RegionsOk, HomesOk, BumpOk, TilesOk, CapOf, ListOf, Total, Except, Keeps;
    CutInv(h, k, n);
    SmallCap(n);
    CutGround(h, k, n);
    CutTiles(h, k, n);
    LiveMore(h.s.live, h.bump, n);
    var w := Blk(Width(k), k, h.chunks[0]);
    IdleSame(h.s.blk, h.s.live, h.bump, w, n);
    TotalAdd(h.s.blk, Full(), h.bump, w);
    OwnKept(h);
    OwnKept(Cut(h, k, n));
  }

  lemma OwnKept(h: Heap)
    requires RegionsOk(h)
    ensures h.own in h.s.reg
  {}

  /* ---- the bump region is retired, and a new chunk taken ---- */

  /** drain_bump's end: what could not be cut is the chunk's loss. */
  ghost function Retire(h: Heap): Heap
  {
    if h.chunks == [] || h.chunks[0] !in h.lost then h.(bumpleft := 0)
    else h.(lost := h.lost[h.chunks[0] := h.lost[h.chunks[0]] + h.bumpleft], bumpleft := 0)
  }

  lemma RetireGround(h: Heap)
    requires RegionsOk(h) && HomesOk(h) && BumpOk(h) && TilesOk(h) && (h.bumpleft > 0 ==> h.chunks != [])
    ensures RegionsOk(Retire(h)) && HomesOk(Retire(h)) && BumpOk(Retire(h)) && TilesOk(Retire(h))
  {
    hide Used, Distinct, Apart;
    var g := Retire(h);
    forall p | p in g.s.blk
      ensures g.s.blk[p].base in g.s.reg && Homed(g, p)
    {
      assert Homed(h, p);
    }
    forall b | b in g.chunks
      ensures b in g.s.reg && b in g.lost && Tiled(g, b)
    {
      assert Tiled(h, b);
    }
  }

  lemma RetireOk(h: Heap, due: int)
    requires Ok(h, due)
    ensures Ok(Retire(h), due) && Keeps(h.s, Retire(h).s)
  {
    hide Inv, HomesOk, TilesOk, CapOf, ListOf, Total, Except, Keeps, Distinct, Apart;
    RetireGround(h);
    InvKeeps(h.s);
    if h.chunks != [] {
      assert h.chunks[0] in h.chunks;
      TotalSet<nat>(h.lost, Id(), h.chunks[0], h.lost[h.chunks[0]] + h.bumpleft);
    }
  }

  lemma InvKeeps(s: State)
    requires Inv(s)
    ensures Keeps(s, s)
  {
    SameMemKeeps(s, s);
  }

  ghost function AddChunk(h: Heap, b: nat, want: nat): Heap
    requires want >= CHUNK_HEADER
  {
    h.(s := AddRegion(h.s, b, want), chunks := [b] + h.chunks, lost := h.lost[b := 0],
       bump := b + CHUNK_HEADER, bumpleft := want - CHUNK_HEADER,
       c := h.c.(mapped := h.c.mapped + want, nchunks := h.c.nchunks + 1))
  }

  lemma AddChunkRegions(h: Heap, b: nat, want: nat)
    requires RegionsOk(h) && CHUNK_HEADER <= want && b !in h.s.reg
    ensures RegionsOk(AddChunk(h, b, want)) && b !in h.chunks && b !in h.larges
  {
    hide Span;
    var g := AddChunk(h, b, want);
    assert forall c | c in h.chunks :: c in g.chunks;
    assert g.chunks[0] == b;
  }

  /** Homes stay homes when lists and regions only grow. */
  lemma HomesGrow(h: Heap, g: Heap, p: nat)
    requires p in h.s.blk && h.s.blk[p].base in h.s.reg && Homed(h, p) && p in g.s.blk && g.s.blk[p] == h.s.blk[p]
    requires h.s.blk[p].base in g.s.reg && g.s.reg[h.s.blk[p].base] == h.s.reg[h.s.blk[p].base]
    requires forall b | b in h.chunks :: b in g.chunks
    requires forall b | b in h.larges :: b in g.larges
    ensures Homed(g, p)
  {}

  lemma AddChunkHomes(h: Heap, b: nat, want: nat)
    requires HomesOk(h) && CHUNK_HEADER <= want && b !in h.s.reg
    ensures HomesOk(AddChunk(h, b, want))
  {
    hide Span, Homed;
    var g := AddChunk(h, b, want);
    assert forall c | c in h.chunks :: c in g.chunks;
    forall p | p in g.s.blk
      ensures g.s.blk[p].base in g.s.reg && Homed(g, p)
    {
      HomesGrow(h, g, p);
    }
  }

  lemma AddChunkBump(h: Heap, b: nat, want: nat)
    requires CHUNK_HEADER <= want && b % ALIGN == 0
    requires forall p | p in h.s.blk :: Apart(b, want, p, h.s.blk[p].size)
    ensures BumpOk(AddChunk(h, b, want))
  {
    hide Span;
  }

  lemma UsedNone(blk: map<nat, Blk>, b: nat)
    requires forall p | p in blk :: blk[p].base != b
    ensures Used(blk, b) == 0
  {
    TotalZero(blk, InRegion(b));
  }

  lemma AddChunkTiles(h: Heap, b: nat, want: nat)
    requires RegionsOk(h) && TilesOk(h) && CHUNK_HEADER <= want && b !in h.s.reg && h.bumpleft == 0
    requires forall p | p in h.s.blk :: h.s.blk[p].base != b
    ensures TilesOk(AddChunk(h, b, want))
  {
    hide Used, Span, Distinct;
    var g := AddChunk(h, b, want);
    forall c | c in g.chunks
      ensures c in g.s.reg && c in g.lost && Tiled(g, c)
    {
      if c == b {
        UsedNone(h.s.blk, b);
      } else {
        assert c in h.chunks;
        assert Tiled(h, c);
      }
    }
  }

  lemma AddChunkOk(h: Heap, b: nat, want: nat, due: int)
    requires Ok(h, due) && h.bumpleft == 0 && CHUNK_HEADER <= want && 0 < b && b % ALIGN == 0
    requires Unmapped(h.s.mem, b, want)
    ensures Ok(AddChunk(h, b, want), due) && Keeps(h.s, AddChunk(h, b, want).s)
  {
    hide Inv, HomesOk, TilesOk, BumpOk, RegionsOk, CapOf, ListOf, Total, Except, Keeps, Apart, Unmapped, Span;
    AddRegionInv(h.s, b, want);
    OwnKept(h);
    AddChunkRegions(h, b, want);
    AddChunkHomes(h, b, want);
    AddChunkBump(h, b, want);
    AddChunkTiles(h, b, want);
    TotalAdd(h.s.reg, Id(), b, want);
    LostFresh(h, b);
    TotalAdd(h.lost, Id(), b, 0);
  }

  lemma LostFresh(h: Heap, b: nat)
    requires RegionsOk(h) && b !in h.s.reg
    ensures b !in h.lost
  {}

  /* ---- a large block of its own ---- */

  ghost function NewLarge(h: Heap, b: nat, want: nat, n: nat): Heap
    requires want >= LARGE_HEADER
  {
    var k := Blk(want - LARGE_HEADER, NCLASS + LargeClassOf(want), b);
    h.(s := Carve(AddRegion(h.s, b, want), b + LARGE_HEADER, k, n), larges := [b] + h.larges,
       c := h.c.(mapped := h.c.mapped + want, nlarges := h.c.nlarges + 1, largeAsked := h.c.largeAsked + n))
  }

  lemma NewLargeInv(h: Heap, b: nat, want: nat, n: nat)
    requires Inv(h.s) && n > 512 && want == LargeWant(n + LARGE_HEADER) && 0 < b && b % ALIGN == 0
    requires Unmapped(h.s.mem, b, want)
    ensures b !in h.s.reg && b + LARGE_HEADER !in h.s.blk && b + LARGE_HEADER !in h.s.live && want > 528
    ensures forall p | p in h.s.blk :: h.s.blk[p].base != b && Apart(b, want, p, h.s.blk[p].size)
    ensures Inv(NewLarge(h, b, want, n).s) && Keeps(h.s, NewLarge(h, b, want, n).s)
  {
    hide RegOk, BlkOk, LiveOk, ListsOk, LinksOk, Complete, Keeps, Placed, ListSize, Unmapped, Span;
    var r := AddRegion(h.s, b, want);
    AddRegionInv(h.s, b, want);
    var p := b + LARGE_HEADER;
    assert p !in h.s.blk;
    LargeSizes(n);
    var k := Blk(want - LARGE_HEADER, NCLASS + LargeClassOf(want), b);
    PlacedNew(Carve(r, p, k, n), p);
    CarveInv(r, p, k, n, 0);
    KeepsTrans(h.s, r, Carve(r, p, k, n));
  }

  lemma LargeSizes(n: nat)
    requires n > 512
    ensures var want := LargeWant(n + LARGE_HEADER);
      && want > 528 && CapOf(n) == want - LARGE_HEADER && ListOf(n) == NCLASS + LargeClassOf(want)
      && (ListOf(n) < NLIST ==> ListSize(ListOf(n)) == want - LARGE_HEADER)
  {}

  lemma NewLargeRegions(h: Heap, b: nat, want: nat, n: nat)
    requires RegionsOk(h) && want > 528 && b !in h.s.reg
    ensures RegionsOk(NewLarge(h, b, want, n)) && b !in h.chunks && b !in h.larges
  {
    hide Span, LargeClassOf;
    var g := NewLarge(h, b, want, n);
    assert forall c | c in h.larges :: c in g.larges;
    assert g.larges[0] == b;
  }

  lemma NewLargeHomes(h: Heap, b: nat, want: nat, n: nat)
    requires HomesOk(h) && want > 528 && b !in h.s.reg && b + LARGE_HEADER !in h.s.blk
    ensures HomesOk(NewLarge(h, b, want, n))
  {
    hide Span, LargeClassOf, Homed;
    var g := NewLarge(h, b, want, n);
    assert forall c | c in h.larges :: c in g.larges;
    assert g.larges[0] == b;
    NewLargeHome(h, b, want, n);
    forall p | p in g.s.blk
      ensures g.s.blk[p].base in g.s.reg && Homed(g, p)
    {
      if p in h.s.blk {
        HomesGrow(h, g, p);
      }
    }
  }

  lemma NewLargeHome(h: Heap, b: nat, want: nat, n: nat)
    requires want > 528
    ensures Homed(NewLarge(h, b, want, n), b + LARGE_HEADER)
  {
    hide Span, LargeClassOf;
    assert NewLarge(h, b, want, n).larges[0] == b;
  }

  lemma NewLargeBump(h: Heap, b: nat, want: nat, n: nat)
    requires BumpOk(h) && want > 528 && b !in h.s.reg
    requires forall c | c in h.s.reg :: Apart(b, want, c, h.s.reg[c])
    ensures BumpOk(NewLarge(h, b, want, n))
  {
    hide Span, LargeClassOf;
  }

  lemma NewLargeTiles(h: Heap, b: nat, want: nat, n: nat)
    requires RegionsOk(h) && TilesOk(h) && want > 528 && b !in h.s.reg && b + LARGE_HEADER !in h.s.blk
    ensures TilesOk(NewLarge(h, b, want, n))
  {
    hide Used, Span, Distinct, LargeClassOf;
    var g := NewLarge(h, b, want, n);
    var k := Blk(want - LARGE_HEADER, NCLASS + LargeClassOf(want), b);
    forall c | c in g.chunks
      ensures c in g.s.reg && c in g.lost && Tiled(g, c)
    {
      assert Tiled(h, c);
      UsedMore(h.s.blk, b + LARGE_HEADER, k, c);
    }
  }

  lemma InvRegs(s: State)
    requires Inv(s)
    ensures RegOk(s) && BlkOk(s)
  {}

  lemma NewLargeOk(h: Heap, b: nat, want: nat, n: nat, due: int)
    requires Ok(h, due) && n > 512 && want == LargeWant(n + LARGE_HEADER) && 0 < b && b % ALIGN == 0
    requires Unmapped(h.s.mem, b, want)
    ensures b + LARGE_HEADER !in h.s.live
    ensures Ok(NewLarge(h, b, want, n), due - n) && Keeps(h.s, NewLarge(h, b, want, n).s)
  {
    hide Inv, HomesOk, TilesOk, BumpOk, RegionsOk, CountsOk, BytesOk, CacheOk, Keeps, Apart, Unmapped, RegOk, BlkOk,
         LargeWant, NewLarge;
    NewLargeInv(h, b, want, n);
    OwnKept(h);
    InvRegs(h.s);
    AddRegionRegs(h.s, b, want);
    NewLargeRegions(h, b, want, n);
    NewLargeHomes(h, b, want, n);
    NewLargeBump(h, b, want, n);
    NewLargeTiles(h, b, want, n);
    NewLargeBooks(h, b, want, n, due);
  }

  lemma NewLargeBooks(h: Heap, b: nat, want: nat, n: nat, due: int)
    requires h.own in h.s.reg && CountsOk(h, due) && BytesOk(h) && CacheOk(h) && n > 512 && want > 528
    requires b !in h.s.reg && b + LARGE_HEADER !in h.s.blk && b + LARGE_HEADER !in h.s.live
    ensures h.own in NewLarge(h, b, want, n).s.reg
    ensures CountsOk(NewLarge(h, b, want, n), due - n) && BytesOk(NewLarge(h, b, want, n))
    ensures CacheOk(NewLarge(h, b, want, n))
  {
    hide Total, Except, Span, LargeClassOf;
    TotalAdd(h.s.reg, Id(), b, want);
    var p := b + LARGE_HEADER;
    var k := Blk(want - LARGE_HEADER, NCLASS + LargeClassOf(want), b);
    LiveMore(h.s.live, p, n);
    IdleSame(h.s.blk, h.s.live, p, k, n);
    TotalAdd(h.s.blk, Full(), p, k);
  }

  /* ---- a large block's region goes back ---- */

  function RemoveAt(q: seq<nat>, i: nat): seq<nat>
    requires i < |q|
  {
    q[..i] + q[i + 1..]
  }

  lemma RemoveAtIn(q: seq<nat>, i: nat)
    requires i < |q| && Distinct(q)
    ensures Distinct(RemoveAt(q, i)) && forall x :: x in RemoveAt(q, i) <==> x in q && x != q[i]
  {
    var r := RemoveAt(q, i);
    forall a, b | 0 <= a < b < |r|
      ensures r[a] != r[b]
    {
      assert q[if a < i then a else a + 1] != q[if b < i then b else b + 1];
    }
    forall x | x in q && x != q[i]
      ensures x in r
    {
      var j :| 0 <= j < |q| && q[j] == x;
      assert r[if j < i then j else j - 1] == x;
    }
    forall x | x in r
      ensures x in q && x != q[i]
    {
      var j :| 0 <= j < |r| && r[j] == x;
      assert q[if j < i then j else j + 1] == x;
    }
  }

  ghost function DropLarge(h: Heap, i: nat): Heap
    requires i < |h.larges| && h.larges[i] in h.s.reg && h.larges[i] + LARGE_HEADER in h.s.live
  {
    var b := h.larges[i];
    var p := b + LARGE_HEADER;
    h.(s := DropRegion(Forget(h.s, p), b), larges := RemoveAt(h.larges, i),
       c := h.c.(mapped := h.c.mapped - h.s.reg[b], nlarges := h.c.nlarges - 1,
                 largeAsked := h.c.largeAsked - h.s.live[p]))
  }

  lemma HomeOf(h: Heap, p: nat)
    requires HomesOk(h) && p in h.s.blk
    ensures h.s.blk[p].base in h.s.reg && Homed(h, p)
  {}

  lemma HomeInLarge(h: Heap, b: nat, p: nat)
    requires RegionsOk(h) && HomesOk(h) && b in h.larges && p in h.s.blk && h.s.blk[p].base == b
    ensures p == b + LARGE_HEADER && b in h.s.reg && h.s.blk[p].size + LARGE_HEADER == h.s.reg[b]
    ensures h.s.blk[p].list >= NCLASS
  {}

  lemma LargeHome(h: Heap, b: nat)
    requires RegionsOk(h) && HomesOk(h) && b in h.larges
    ensures b in h.s.reg && b + LARGE_HEADER in h.s.blk && h.s.blk[b + LARGE_HEADER].base == b && b != h.own
    ensures b !in h.chunks
    ensures h.s.blk[b + LARGE_HEADER].size + LARGE_HEADER == h.s.reg[b]
    ensures h.s.blk[b + LARGE_HEADER].list == NCLASS + LargeClassOf(h.s.reg[b])
  {}

  lemma DropLargeInv(h: Heap, i: nat)
    requires Inv(h.s) && RegionsOk(h) && HomesOk(h) && i < |h.larges| && h.larges[i] + LARGE_HEADER in h.s.live
    ensures h.larges[i] in h.s.reg
    ensures Inv(DropLarge(h, i).s) && Keeps(h.s, DropLarge(h, i).s)
  {
    hide RegOk, BlkOk, LiveOk, ListsOk, LinksOk, Complete, Keeps, RegionsOk, HomesOk;
    var b := h.larges[i];
    assert b in h.larges;
    LargeHome(h, b);
    var p := b + LARGE_HEADER;
    var f := Forget(h.s, p);
    ForgetInv(h.s, p, 0);
    forall q | q in f.blk
      ensures f.blk[q].base != b
    {
      if f.blk[q].base == b {
        HomeInLarge(h, b, q);
      }
    }
    DropRegionInv(f, b, 0);
    KeepsVia(h.s, f, DropRegion(f, b));
  }

  lemma KeepsVia(s: State, t: State, u: State)
    requires Keeps(s, t) && Keeps(t, u) && u.live == t.live
    requires (forall p | p in t.live :: p in s.live && t.live[p] == s.live[p])
    ensures Keeps(s, u)
  {}

  lemma DropLargeRegions(h: Heap, i: nat)
    requires RegionsOk(h) && i < |h.larges| && h.larges[i] in h.s.reg && h.larges[i] + LARGE_HEADER in h.s.live
    ensures RegionsOk(DropLarge(h, i))
  {
    hide Distinct;
    RemoveAtIn(h.larges, i);
    assert h.larges[i] in h.larges;
  }

  lemma HomeElsewhere(h: Heap, g: Heap, p: nat)
    requires p in h.s.blk && h.s.blk[p].base in h.s.reg && Homed(h, p) && p in g.s.blk && g.s.blk[p] == h.s.blk[p]
    requires h.s.blk[p].base in g.s.reg && g.s.reg[h.s.blk[p].base] == h.s.reg[h.s.blk[p].base]
    requires h.s.blk[p].base in h.chunks ==> h.s.blk[p].base in g.chunks
    requires h.s.blk[p].base in h.larges ==> h.s.blk[p].base in g.larges
    ensures Homed(g, p)
  {}

  lemma HomesWithout(h: Heap, g: Heap, b: nat)
    requires RegionsOk(h) && HomesOk(h) && b in h.larges
    requires g.s.blk == h.s.blk - {b + LARGE_HEADER} && g.s.reg == h.s.reg - {b} && g.chunks == h.chunks
    requires forall c :: c in g.larges <==> c in h.larges && c != b
    ensures HomesOk(g)
  {
    hide LargeClassOf, Homed, RegionsOk, HomesOk;
    forall p | p in g.s.blk
      ensures g.s.blk[p].base in g.s.reg && Homed(g, p)
    {
      HomeOf(h, p);
      if h.s.blk[p].base == b {
        HomeInLarge(h, b, p);
      }
      HomeElsewhere(h, g, p);
    }
    forall c | c in g.larges
      ensures c + LARGE_HEADER in g.s.blk && g.s.blk[c + LARGE_HEADER].base == c
    {
      LargeHome(h, c);
    }
    HomesIntro(g);
  }

  lemma DropLargeHomes(h: Heap, i: nat)
    requires RegionsOk(h) && HomesOk(h) && i < |h.larges| && h.larges[i] in h.s.reg
    requires h.larges[i] + LARGE_HEADER in h.s.live
    ensures HomesOk(DropLarge(h, i))
  {
    hide RegionsOk, HomesOk;
    DropLargeLarges(h, i);
    HomesWithout(h, DropLarge(h, i), h.larges[i]);
  }

  lemma HomesIntro(h: Heap)
    requires forall p | p in h.s.blk :: h.s.blk[p].base in h.s.reg && Homed(h, p)
    requires forall b | b in h.larges :: b + LARGE_HEADER in h.s.blk && h.s.blk[b + LARGE_HEADER].base == b
    ensures HomesOk(h)
  {}

  lemma DropLargeLarges(h: Heap, i: nat)
    requires RegionsOk(h) && i < |h.larges| && h.larges[i] in h.s.reg && h.larges[i] + LARGE_HEADER in h.s.live
    ensures h.larges[i] in h.larges && forall c :: c in DropLarge(h, i).larges <==> c in h.larges && c != h.larges[i]
  {
    RemoveAtIn(h.larges, i);
  }

  lemma DropLargeBump(h: Heap, i: nat)
    requires RegionsOk(h) && BumpOk(h) && i < |h.larges| && h.larges[i] in h.s.reg
    requires h.larges[i] + LARGE_HEADER in h.s.live
    ensures BumpOk(DropLarge(h, i))
  {
    hide Distinct;
    var b := h.larges[i];
    assert b in h.larges;
    if h.bumpleft > 0 {
      assert h.chunks[0] in h.chunks;
    }
  }

  lemma UsedLess(blk: map<nat, Blk>, p: nat, b: nat)
    requires p in blk
    ensures Used(blk, b) == Used(blk - {p}, b) + (if blk[p].base == b then blk[p].size else 0)
  {
    TotalTake(blk, InRegion(b), p);
  }

  lemma DropLargeTiles(h: Heap, i: nat)
    requires RegionsOk(h) && HomesOk(h) && TilesOk(h) && i < |h.larges| && h.larges[i] in h.s.reg
    requires h.larges[i] + LARGE_HEADER in h.s.live
    ensures TilesOk(DropLarge(h, i))
  {
    hide Used, Distinct, LargeClassOf, HomesOk;
    var g := DropLarge(h, i);
    var b := h.larges[i];
    assert b in h.larges;
    LargeHome(h, b);
    forall c | c in g.chunks
      ensures c in g.s.reg && c in g.lost && Tiled(g, c)
    {
      assert Tiled(h, c);
      UsedLess(h.s.blk, b + LARGE_HEADER, c);
    }
  }

  lemma DropLargeOk(h: Heap, i: nat, due: int)
    requires Ok(h, due) && i < |h.larges| && h.larges[i] + LARGE_HEADER in h.s.live
    ensures h.larges[i] in h.s.reg
    ensures Ok(DropLarge(h, i), due + h.s.live[h.larges[i] + LARGE_HEADER]) && Keeps(h.s, DropLarge(h, i).s)
  {
    hide Inv, HomesOk, TilesOk, BumpOk, RegionsOk, CapOf, ListOf, Total, Except, Keeps, LargeClassOf;
    DropLargeInv(h, i);
    OwnKept(h);
    DropLargeRegions(h, i);
    DropLargeHomes(h, i);
    DropLargeBump(h, i);
    DropLargeTiles(h, i);
    var b := h.larges[i];
    assert b in h.larges;
    LargeHome(h, b);
    var p := b + LARGE_HEADER;
    LiveFacts(h, p);
    TotalTake(h.s.reg, Id(), b);
    TotalTake(h.s.blk, Full(), p);
    LiveLess(h.s.live, p);
    IdleSame(h.s.blk, h.s.live, p, h.s.blk[p], 0);
    OwnKept(DropLarge(h, i));
  }

  /* ---- a chunk nothing uses goes back ---- */

  ghost function DropChunk(h: Heap, i: nat): Heap
    requires i < |h.chunks| && h.chunks[i] in h.s.reg
  {
    var b := h.chunks[i];
    h.(s := DropRegion(Purge(h.s, b), b), chunks := RemoveAt(h.chunks, i), lost := h.lost - {b},
       c := h.c.(mapped := h.c.mapped - h.s.reg[b], nchunks := h.c.nchunks - 1))
  }

  /** Nothing handed out, and nothing listed, is in region b. */
  ghost predicate Vacant(s: State, b: nat)
  {
    && (forall p | p in s.live :: p in s.blk ==> s.blk[p].base != b)
    && |s.fl| == NLIST && (forall k, p | 0 <= k < NLIST && p in s.fl[k] && p in s.blk :: s.blk[p].base != b)
  }

  lemma DropChunkInv(h: Heap, i: nat)
    requires i < |h.chunks| && InvBut(h.s, h.chunks[i]) && RegionsOk(h) && Vacant(h.s, h.chunks[i])
    ensures h.chunks[i] in h.s.reg && Inv(DropChunk(h, i).s) && Keeps(h.s, DropChunk(h, i).s)
  {
    hide RegOk, BlkOk, LiveOk, LinksOk, Complete, Keeps;
    var b := h.chunks[i];
    assert b in h.chunks;
    PurgeInv(h.s, b);
    var f := Purge(h.s, b);
    DropRegionInv(f, b, b);
    Unexcuse(DropRegion(f, b), b);
    KeepsTrans(h.s, f, DropRegion(f, b));
  }

  lemma DropChunkRegions(h: Heap, i: nat)
    requires RegionsOk(h) && i < |h.chunks| && h.chunks[i] in h.s.reg
    ensures RegionsOk(DropChunk(h, i))
  {
    hide Distinct;
    RemoveAtIn(h.chunks, i);
    assert h.chunks[i] in h.chunks;
  }

  lemma DropChunkHomes(h: Heap, i: nat)
    requires RegionsOk(h) && HomesOk(h) && i < |h.chunks| && h.chunks[i] in h.s.reg
    ensures HomesOk(DropChunk(h, i))
  {
    hide LargeClassOf;
    RemoveAtIn(h.chunks, i);
    var g := DropChunk(h, i);
    var b := h.chunks[i];
    assert b in h.chunks;
    forall p | p in g.s.blk
      ensures g.s.blk[p].base in g.s.reg && Homed(g, p)
    {
      assert Homed(h, p);
    }
  }

  lemma DropChunkBump(h: Heap, i: nat)
    requires RegionsOk(h) && BumpOk(h) && i < |h.chunks| && h.chunks[i] in h.s.reg && Tail(h, h.chunks[i]) == 0
    ensures BumpOk(DropChunk(h, i))
  {}

  ghost function Mine(blk: map<nat, Blk>, b: nat): set<nat>
  {
    set p | p in blk && blk[p].base == b
  }

  /** Forgetting region b's blocks takes b's bytes out of the totals and no other's. */
  lemma PurgeTotals(blk: map<nat, Blk>, b: nat, f: Blk -> nat)
    ensures Total(blk, f) == Total(Others(blk, b), f) + Total(Only(blk, Mine(blk, b)), f)
  {
    hide Total;
    var keys := Mine(blk, b);
    TotalSplit(blk, f, keys);
    assert Except(blk, keys) == Others(blk, b);
  }

  lemma PurgeUsed(blk: map<nat, Blk>, b: nat, c: nat)
    requires b != c
    ensures Used(Others(blk, b), c) == Used(blk, c)
  {
    hide Total;
    PurgeTotals(blk, b, InRegion(c));
    TotalZero(Only(blk, Mine(blk, b)), InRegion(c));
  }

  lemma PurgeFull(blk: map<nat, Blk>, b: nat)
    requires forall p | p in blk && blk[p].base == b :: blk[p].list < NCLASS
    ensures Total(blk, Full()) == Total(Others(blk, b), Full()) + Used(blk, b)
  {
    hide Total;
    PurgeTotals(blk, b, Full());
    PurgeTotals(blk, b, InRegion(b));
    var rest := Others(blk, b);
    TotalZero(rest, InRegion(b));
    var mine := Only(blk, Mine(blk, b));
    TotalSame(mine, Full(), mine, InRegion(b));
  }

  lemma PurgeIdle(blk: map<nat, Blk>, live: map<nat, nat>, b: nat)
    requires forall p | p in blk && blk[p].base == b :: blk[p].list < NCLASS
    ensures Idle(Others(blk, b), live) == Idle(blk, live)
  {
    hide Total;
    var rest := Others(blk, b);
    var idle := Except(blk, live.Keys);
    var keys := Mine(blk, b);
    TotalSplit(idle, Cache(), keys);
    TotalZero(Only(idle, keys), Cache());
    assert Except(idle, keys) == Except(rest, live.Keys);
  }

  lemma DropChunkTiles(h: Heap, i: nat)
    requires RegionsOk(h) && TilesOk(h) && i < |h.chunks| && h.chunks[i] in h.s.reg && Tail(h, h.chunks[i]) == 0
    ensures TilesOk(DropChunk(h, i))
  {
    hide Used, Distinct;
    var g := DropChunk(h, i);
    var b := h.chunks[i];
    RemoveAtIn(h.chunks, i);
    forall c | c in g.chunks
      ensures c in g.s.reg && c in g.lost && Tiled(g, c)
    {
      assert c in h.chunks && c != b;
      assert Tiled(h, c);
      PurgeUsed(h.s.blk, b, c);
      assert Tail(g, c) == Tail(h, c);
    }
  }

  lemma ChunkHomes(h: Heap, b: nat)
    requires RegionsOk(h) && HomesOk(h) && b in h.chunks
    ensures forall p | p in h.s.blk && h.s.blk[p].base == b :: h.s.blk[p].list < NCLASS
  {
    forall p | p in h.s.blk && h.s.blk[p].base == b
      ensures h.s.blk[p].list < NCLASS
    {
      assert Homed(h, p);
    }
  }

  lemma DropChunkOk(h: Heap, i: nat, due: int)
    requires i < |h.chunks| && InvBut(h.s, h.chunks[i]) && Books(h, due) && Vacant(h.s, h.chunks[i])
    requires Tail(h, h.chunks[i]) == 0
    ensures h.chunks[i] in h.s.reg
    ensures Ok(DropChunk(h, i), due) && Keeps(h.s, DropChunk(h, i).s)
  {
    hide Inv, InvBut, RegionsOk, HomesOk, BumpOk, TilesOk, CountsOk, BytesOk, CacheOk, Keeps, Vacant, Tail, DropChunk;
    DropChunkBooks(h, i, due);
    DropChunkInv(h, i);
    DropChunkRegions(h, i);
    DropChunkHomes(h, i);
    DropChunkBump(h, i);
    DropChunkTiles(h, i);
  }

  lemma DropChunkBooks(h: Heap, i: nat, due: int)
    requires i < |h.chunks| && Books(h, due) && Vacant(h.s, h.chunks[i]) && Tail(h, h.chunks[i]) == 0
    ensures h.chunks[i] in h.s.reg && h.own in DropChunk(h, i).s.reg
    ensures CountsOk(DropChunk(h, i), due) && BytesOk(DropChunk(h, i)) && CacheOk(DropChunk(h, i))
  {
    hide HomesOk, BumpOk, Total, Except, Used, Distinct, Vacant, Tail;
    var b := h.chunks[i];
    assert b in h.chunks;
    assert Tiled(h, b);
    ChunkHomes(h, b);
    PurgeFull(h.s.blk, b);
    PurgeIdle(h.s.blk, h.s.live, b);
    TotalTake(h.s.reg, Id(), b);
    TotalTake(h.lost, Id(), b);
  }

  /* ---- in place ---- */

  ghost function Refit(h: Heap, p: nat, n: nat): Heap
    requires p in h.s.live
  {
    h.(s := Resize(h.s, p, n),
       c := h.c.(largeAsked := if n <= 512 then h.c.largeAsked else h.c.largeAsked + n - h.s.live[p]))
  }

  lemma RefitOk(h: Heap, p: nat, n: nat, due: int)
    requires Ok(h, due) && p in h.s.live && n > 0 && ListOf(n) == ListOf(h.s.live[p]) && CapOf(n) == CapOf(h.s.live[p])
    ensures Ok(Refit(h, p, n), due + h.s.live[p] - n) && Keeps(h.s, Refit(h, p, n).s)
  {
    hide Inv, RegionsOk, HomesOk, BumpOk, TilesOk, CapOf, ListOf, Total, Keeps, BytesOk;
    ResizeInv(h.s, p, n);
    GroundKept(h, Refit(h, p, n));
    SmallList(n);
    SmallList(h.s.live[p]);
    TotalSet<nat>(h.s.live, Id(), p, n);
    TotalSet<nat>(h.s.live, RoundOf(), p, n);
    TotalSet<nat>(h.s.live, AskOf(), p, n);
    TotalSet<nat>(h.s.live, OneOf(), p, n);
    assert h.s.live[p := n].Keys == h.s.live.Keys;
  }

  lemma PutOk(h: Heap, p: nat, a: nat, v: nat, due: int)
    requires Ok(h, due) && p in h.s.live && p <= a < p + h.s.live[p]
    ensures Ok(h.(s := PutByte(h.s, a, v)), due)
  {
    hide Inv, RegionsOk, HomesOk, BumpOk, TilesOk, CapOf, ListOf, Total, Keeps, BytesOk;
    PutInv(h.s, p, a, v);
    GroundKept(h, h.(s := PutByte(h.s, a, v)));
  }

  lemma CopyOk(h: Heap, p: nat, q: nat, n: nat, due: int)
    requires Ok(h, due) && p in h.s.live && q in h.s.live && p != q && n <= h.s.live[p] && n <= h.s.live[q]
    ensures Mapped(h.s.mem, p, n) && Ok(h.(s := Copy(h.s, p, q, n)), due)
  {
    hide Inv, RegionsOk, HomesOk, BumpOk, TilesOk, CapOf, ListOf, Total, Keeps, BytesOk;
    CopyInv(h.s, p, q, n);
    GroundKept(h, h.(s := Copy(h.s, p, q, n)));
  }
}
