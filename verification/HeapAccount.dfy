/** The allocator's books: which regions are chunks and which are large blocks, the bump region, how each chunk's
    bytes add up, and the counters that statistics are made of. */
module HeapAccount {
  import opened HeapState
  import opened HeapSteps
  import opened Totals

  const LARGE_CACHED: nat := 4

  datatype Counters = Counters(live: int, peak: int, mapped: int, nchunks: int, nlarges: int, rounded: int,
                               largeAsked: int, largecached: int)

  datatype Heap = Heap(
    s: State,
    own: nat,                 // the region the heap's own record lives in
    chunks: seq<nat>,         // newest first; the bump region is in the first
    lost: map<nat, nat>,      // each chunk's tail too small to cut
    larges: seq<nat>,
    bump: nat,
    bumpleft: nat,
    nlargefree: seq<nat>,
    c: Counters
  )

  /* ---- weights ---- */

  ghost function Id(): nat -> nat { (n: nat) => n }
  ghost function RoundOf(): nat -> nat { (n: nat) => if n <= 512 then CapOf(n) else 0 }
  ghost function AskOf(): nat -> nat { (n: nat) => if n <= 512 then 0 else n }
  ghost function OneOf(): nat -> nat { (n: nat) => if n <= 512 then 0 else 1 }
  ghost function InRegion(b: nat): Blk -> nat { (k: Blk) => if k.base == b then k.size else 0 }
  ghost function Full(): Blk -> nat { (k: Blk) => if k.list < NCLASS then k.size else k.size + LARGE_HEADER }
  ghost function Cache(): Blk -> nat { (k: Blk) => if k.list < NCLASS then 0 else k.size + LARGE_HEADER }

  ghost function Used(blk: map<nat, Blk>, b: nat): nat
  {
    Total(blk, InRegion(b))
  }

  /* ---- the invariant ---- */

  ghost predicate Distinct(q: seq<nat>)
  {
    forall i, j | 0 <= i < j < |q| :: q[i] != q[j]
  }

  ghost predicate RegionsOk(h: Heap)
  {
    && Distinct(h.chunks) && Distinct(h.larges) && h.own in h.s.reg && h.own !in h.chunks && h.own !in h.larges
    && (forall b | b in h.chunks :: b !in h.larges && b in h.s.reg && b in h.lost && CHUNK_HEADER <= h.s.reg[b])
    && (forall b | b in h.larges :: b in h.s.reg && 528 < h.s.reg[b])
    && (forall b | b in h.s.reg :: b in h.chunks || b in h.larges || b == h.own)
    && (forall b | b in h.lost :: b in h.chunks)
  }

  /** A block is cut from a chunk past its header, or is all of a large block's region past its header. */
  ghost predicate Homed(h: Heap, p: nat)
    requires p in h.s.blk && h.s.blk[p].base in h.s.reg
  {
    var k := h.s.blk[p];
    || (k.base in h.chunks && k.base + CHUNK_HEADER <= p && k.list < NCLASS)
    || (k.base in h.larges && p == k.base + LARGE_HEADER && k.size + LARGE_HEADER == h.s.reg[k.base]
        && k.list == NCLASS + LargeClassOf(h.s.reg[k.base]))
  }

  ghost predicate HomesOk(h: Heap)
  {
    && (forall p | p in h.s.blk :: h.s.blk[p].base in h.s.reg && Homed(h, p))
    && (forall b | b in h.larges :: b + LARGE_HEADER in h.s.blk && h.s.blk[b + LARGE_HEADER].base == b)
  }

  ghost predicate BumpOk(h: Heap)
  {
    h.bumpleft > 0 ==>
      && h.chunks != [] && h.chunks[0] in h.s.reg
      && h.chunks[0] + CHUNK_HEADER <= h.bump && h.bump + h.bumpleft <= h.chunks[0] + h.s.reg[h.chunks[0]]
      && h.bump % ALIGN == 0
      && (forall p | p in h.s.blk :: Apart(h.bump, h.bumpleft, p, h.s.blk[p].size))
  }

  ghost function Tail(h: Heap, b: nat): nat
  {
    if h.chunks != [] && b == h.chunks[0] then h.bumpleft else 0
  }

  /** A chunk is its header, its blocks, its lost tail and, for the newest, the bump region. */
  ghost predicate Tiled(h: Heap, b: nat)
    requires b in h.s.reg && b in h.lost
  {
    CHUNK_HEADER + Used(h.s.blk, b) + h.lost[b] + Tail(h, b) == h.s.reg[b]
  }

  ghost predicate TilesOk(h: Heap)
  {
    forall b | b in h.chunks :: b in h.s.reg && b in h.lost && Tiled(h, b)
  }

  ghost predicate CacheOk(h: Heap)
  {
    && |h.s.fl| == NLIST && |h.nlargefree| == NLARGECLASS
    && forall i | 0 <= i < NLARGECLASS :: h.nlargefree[i] == |h.s.fl[NCLASS + i]| && h.nlargefree[i] <= LARGE_CACHED
  }

  /** What the counters count; `due` is what the live counter has yet to be told. */
  ghost predicate CountsOk(h: Heap, due: int)
  {
    && h.c.live == Total(h.s.live, Id()) + due
    && h.c.rounded == Total(h.s.live, RoundOf())
    && h.c.largeAsked == Total(h.s.live, AskOf())
    && h.c.nlarges == Total(h.s.live, OneOf())
    && h.c.largecached == Total(Except(h.s.blk, h.s.live.Keys), Cache())
    && h.c.nchunks == |h.chunks|
    && h.c.mapped == Total(h.s.reg, Id())
  }

  /** Every mapped byte is the heap's own, a chunk header, a block with any header of its own, lost, or bump. */
  ghost predicate BytesOk(h: Heap)
    requires h.own in h.s.reg
  {
    h.c.mapped == h.s.reg[h.own] + CHUNK_HEADER * |h.chunks| + Total(h.s.blk, Full()) + Total(h.lost, Id()) + h.bumpleft
  }

  ghost predicate Books(h: Heap, due: int)
  {
    RegionsOk(h) && HomesOk(h) && BumpOk(h) && TilesOk(h) && CacheOk(h) && CountsOk(h, due) && BytesOk(h)
  }

  ghost predicate Ok(h: Heap, due: int)
  {
    Inv(h.s) && Books(h, due)
  }

  /* ---- the promises of the statistics ---- */

  lemma {:induction false} TotalSame<V(!new), W(!new)>(m: map<nat, V>, f: V -> nat, w: map<nat, W>, g: W -> nat)
    requires m.Keys == w.Keys && (forall p | p in m :: f(m[p]) == g(w[p]))
    ensures Total(m, f) == Total(w, g)
    decreases |m|
  {
    assert |m| == |m.Keys| && |w| == |w.Keys|;
    if |m| != 0 {
      var p := Pick(m);
      SizeMinus(m, p);
      TotalTake(m, f, p);
      TotalTake(w, g, p);
      TotalSame(m - {p}, f, w - {p}, g);
    }
  }

  lemma {:induction false} TotalPlus<V(!new)>(m: map<nat, V>, f: V -> nat, g: V -> nat, k: V -> nat)
    requires forall p | p in m :: k(m[p]) == f(m[p]) + g(m[p])
    ensures Total(m, k) == Total(m, f) + Total(m, g)
    decreases |m|
  {
    if |m| != 0 {
      var p := Pick(m);
      SizeMinus(m, p);
      TotalTake(m, f, p);
      TotalTake(m, g, p);
      TotalTake(m, k, p);
      TotalPlus(m - {p}, f, g, k);
    }
  }

  ghost function FullOf(): nat -> nat { (n: nat) => if n <= 512 then CapOf(n) else CapOf(n) + LARGE_HEADER }
  ghost function HeadOf(): nat -> nat { (n: nat) => if n <= 512 then 0 else LARGE_HEADER }
  ghost function SmallOf(): nat -> nat { (n: nat) => if n <= 512 then n else 0 }
  ghost function AskedOf(): nat -> nat { (n: nat) => if n <= 512 then CapOf(n) else n + LARGE_HEADER }

  /** The blocks handed out take at least their rounded size, and a header besides if large. */
  lemma LiveBytes(s: State)
    requires LiveOk(s)
    ensures Total(s.blk, Full()) >= Total(s.live, RoundOf()) + Total(s.live, AskOf())
                                    + LARGE_HEADER * Total(s.live, OneOf())
                                    + Total(Except(s.blk, s.live.Keys), Cache())
  {
    hide Total, CapOf, ListOf;
    TotalSplit(s.blk, Full(), s.live.Keys);
    TotalMono(Except(s.blk, s.live.Keys), Cache(), Full());
    var mine := Only(s.blk, s.live.Keys);
    forall p | p in s.live
      ensures p in mine && Full()(mine[p]) == FullOf()(s.live[p])
    {
      LiveAt(s, p);
      SmallList(s.live[p]);
    }
    assert mine.Keys == s.live.Keys;
    TotalSame(mine, Full(), s.live, FullOf());
    FullMono(s.live);
    TotalPlus(s.live, AskOf(), HeadOf(), (n: nat) => AskOf()(n) + HeadOf()(n));
    TotalPlus(s.live, RoundOf(), (n: nat) => AskOf()(n) + HeadOf()(n), AskedOf());
    HeadTotal(s.live);
  }

  lemma SmallList(n: nat)
    ensures ListOf(n) < NCLASS <==> n <= 512
  {}

  lemma FullMono(live: map<nat, nat>)
    ensures Total(live, AskedOf()) <= Total(live, FullOf())
  {
    forall p | p in live
      ensures AskedOf()(live[p]) <= FullOf()(live[p])
    {
      CapBound(live[p]);
    }
    TotalMono(live, AskedOf(), FullOf());
  }

  lemma CapBound(n: nat)
    ensures n <= CapOf(n)
  {}

  lemma {:induction false} HeadTotal(live: map<nat, nat>)
    ensures Total(live, HeadOf()) == LARGE_HEADER * Total(live, OneOf())
    decreases |live|
  {
    if |live| != 0 {
      var p := Pick(live);
      SizeMinus(live, p);
      TotalTake(live, HeadOf(), p);
      TotalTake(live, OneOf(), p);
      HeadTotal(live - {p});
    }
  }

  /** What the sizes asked for come to, small and large apart; and rounding only adds. */
  lemma AskedBytes(live: map<nat, nat>)
    ensures Total(live, AskOf()) <= Total(live, Id())
    ensures Total(live, Id()) - Total(live, AskOf()) <= Total(live, RoundOf())
  {
    hide Total, CapOf;
    TotalPlus(live, SmallOf(), AskOf(), Id());
    forall p | p in live
      ensures SmallOf()(live[p]) <= RoundOf()(live[p])
    {
      CapBound(live[p]);
    }
    TotalMono(live, SmallOf(), RoundOf());
  }

  /** stats_locked's figures, as it computes them. */
  datatype Stats = Stats(live: int, peak: int, mapped: int, waste: int, chunks: int, larges: int, rounding: int,
                         headers: int, unused: int, cached: int)

  function Over(a: int, b: int): int
  {
    if a > b then a - b else 0
  }

  function StatsOf(c: Counters): Stats
  {
    var waste := Over(c.mapped, c.live);
    var headers := c.nchunks * CHUNK_HEADER + c.nlarges * LARGE_HEADER;
    var rounding := Over(c.rounded, Over(c.live, c.largeAsked));
    Stats(c.live, c.peak, c.mapped, waste, c.nchunks, c.nlarges, rounding, headers, Over(waste, rounding + headers),
          c.largecached)
  }

  /** The three parts sum to the waste, what is cached is part of what is unused, and nothing was clamped. */
  lemma StatsAddUp(h: Heap)
    requires Ok(h, 0)
    ensures var t := StatsOf(h.c);
      && t.waste == t.mapped - t.live && t.rounding + t.headers + t.unused == t.waste && 0 <= t.cached <= t.unused
      && t.unused == h.s.reg[h.own]
                     + (Total(h.s.blk, Full()) - Total(h.s.live, RoundOf()) - Total(h.s.live, AskOf())
                        - LARGE_HEADER * Total(h.s.live, OneOf()))
                     + Total(h.lost, Id()) + h.bumpleft
  {
    hide Total, Inv, InvBut, HomesOk, TilesOk, BumpOk, CacheOk;
    InvLive(h.s);
    LiveBytes(h.s);
    AskedBytes(h.s.live);
  }

  lemma InvLive(s: State)
    requires Inv(s)
    ensures LiveOk(s)
  {}
}
