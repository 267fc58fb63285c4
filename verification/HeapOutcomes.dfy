/** What an allocator call may answer, and what each answer leaves: where a block comes from, why there is none, and
    what has gone back to the chunk source. */
module HeapOutcomes {
  import opened HeapState
  import opened HeapSteps
  import opened Totals
  import opened HeapAccount
  import opened HeapMoves
  import opened HeapReclaim

  /* ---- given back ---- */

  /** a is in a region of s that t no longer has. */
  ghost predicate Gone(s: State, t: State, a: nat)
  {
    exists b :: b in s.reg && b !in t.reg && b <= a < b + s.reg[b]
  }

  /** t has no region s had not, and what it no longer has is no longer mapped; nothing else was unmapped. */
  ghost predicate GivenBack(s: State, t: State)
  {
    && (forall b | b in t.reg :: b in s.reg && t.reg[b] == s.reg[b])
    && (forall a: nat :: a in t.mem <==> a in s.mem && !Gone(s, t, a))
  }

  lemma GivenNone(s: State, t: State)
    requires t.reg == s.reg && t.mem.Keys == s.mem.Keys
    ensures GivenBack(s, t)
  {
    assert forall a: nat :: a in t.mem <==> a in t.mem.Keys;
  }

  lemma GivenOne(s: State, t: State, b: nat)
    requires b in s.reg && t.reg == s.reg - {b} && t.mem.Keys == Unmap(s.mem, b, s.reg[b]).Keys
    ensures GivenBack(s, t)
  {
    forall a: nat
      ensures a in t.mem <==> a in s.mem && !Gone(s, t, a)
    {
      assert a in t.mem.Keys <==> a in s.mem && !(b <= a < b + s.reg[b]);
    }
  }

  lemma GivenTrans(s: State, t: State, u: State)
    requires GivenBack(s, t) && GivenBack(t, u)
    ensures GivenBack(s, u)
  {
    forall a: nat
      ensures a in u.mem <==> a in s.mem && !Gone(s, u, a)
    {
      GoneTrans(s, t, u, a);
    }
  }

  lemma GoneTrans(s: State, t: State, u: State, a: nat)
    requires forall b | b in t.reg :: b in s.reg && t.reg[b] == s.reg[b]
    requires forall b | b in u.reg :: b in t.reg && u.reg[b] == t.reg[b]
    ensures Gone(s, u, a) <==> Gone(s, t, a) || Gone(t, u, a)
  {
    if Gone(s, u, a) {
      var b :| b in s.reg && b !in u.reg && b <= a < b + s.reg[b];
      assert b in t.reg || Gone(s, t, a);
    }
  }

  lemma EvictGives(h: Heap, k: nat, i: nat)
    requires MayEvict(h, k, i)
    ensures GivenBack(h.s, Evicted(h, k, i).s)
  {
    hide Evicted, GivenBack;
    EvictView(h, k, i);
    GivenOne(h.s, Evicted(h, k, i).s, h.larges[i]);
  }

  lemma DropGives(h0: Heap, h: Heap, g: Heap, i: nat)
    requires i < |h.chunks| && h.chunks[i] in h.s.reg && h.s.reg == h0.s.reg && h.s.mem.Keys == h0.s.mem.Keys
    requires g.s.reg == h.s.reg - {h.chunks[i]} && g.s.mem == Unmap(h.s.mem, h.chunks[i], h.s.reg[h.chunks[i]])
    ensures GivenBack(h0.s, g.s)
  {
    hide GivenBack;
    GivenNone(h0.s, h.s);
    GivenOne(h.s, g.s, h.chunks[i]);
    GivenTrans(h0.s, h.s, g.s);
  }

  /* ---- handed out ---- */

  /** Where a block comes from while the heap has one to give: the head of its list, or else the bump pointer. */
  ghost predicate FromStock(h: Heap, p: nat, n: nat)
  {
    && |h.s.fl| == NLIST
    && (ListOf(n) < NLIST && h.s.fl[ListOf(n)] != [] ==> p == h.s.fl[ListOf(n)][0])
    && (n <= 512 && ListOf(n) < NLIST && h.s.fl[ListOf(n)] == [] && CapOf(n) <= h.bumpleft ==> p == h.bump)
  }

  /** Whether the heap has one to give. */
  ghost predicate Stocked(h: Heap, n: nat)
  {
    && |h.s.fl| == NLIST && ListOf(n) < NLIST
    && (h.s.fl[ListOf(n)] != [] || (n <= 512 && CapOf(n) <= h.bumpleft))
  }

  /* ---- taken back ---- */

  /** A large block is kept in its bucket while the bucket has room, at the front; otherwise its region goes back. */
  ghost predicate Retired(h: Heap, g: Heap, p: nat)
  {
    && LARGE_HEADER <= p && p - LARGE_HEADER in h.s.reg && |h.s.fl| == NLIST && |h.nlargefree| == NLARGECLASS
    && var b := p - LARGE_HEADER;
       var ci := LargeClassOf(h.s.reg[b]);
       if ci < NLARGECLASS && h.nlargefree[ci] < LARGE_CACHED then
         && g.s.fl == h.s.fl[NCLASS + ci := [p] + h.s.fl[NCLASS + ci]] && g.s.reg == h.s.reg
         && g.c.mapped == h.c.mapped && g.c.largecached == h.c.largecached + h.s.reg[b]
       else
         && g.s.fl == h.s.fl && g.s.reg == h.s.reg - {b} && GivenBack(h.s, g.s)
         && g.c.mapped == h.c.mapped - h.s.reg[b] && g.c.largecached == h.c.largecached
  }

  /* ---- refused ---- */

  /** The chunk that newchunk asks for. */
  function ChunkWant(need: nat): (n: nat)
    ensures n >= need + CHUNK_HEADER
  {
    if need + CHUNK_HEADER > CHUNK_BYTES then RoundUp(need + CHUNK_HEADER, ALIGN) else CHUNK_BYTES
  }

  /** The cache, and nothing else, has been given back. */
  ghost predicate Emptied(h: Heap, g: Heap)
  {
    && g.c.largecached == 0 && g.c.mapped == h.c.mapped - h.c.largecached && g.chunks == h.chunks
    && g.s.live == h.s.live && GivenBack(h.s, g.s)
  }

  /** Why no chunk was to be had: the source refused at first, again once the cache was given back if there was one, and
      again once every unused chunk was given back if there was one. Then nothing is left to give back. */
  ghost predicate Refused(h: Heap, mid: Heap, g: Heap, want: nat, offers: seq<nat>)
    requires |offers| == 3
  {
    && !Suitable(h.s.mem, offers[0], want)
    && Emptied(h, mid) && (h.c.largecached > 0 ==> !Suitable(mid.s.mem, offers[1], want))
    && GivenBack(mid.s, g.s) && (g.c.mapped < mid.c.mapped ==> !Suitable(g.s.mem, offers[2], want))
    && g.c.largecached == 0 && OnlyUsed(h, g)
  }

  /** Why no region was to be had for a large block: refused at first, and again once the cache was given back if there
      was one. */
  ghost predicate LargeRefused(h: Heap, g: Heap, want: nat, offers: seq<nat>)
    requires |offers| >= 2
  {
    && !Suitable(h.s.mem, offers[0], want)
    && Emptied(h, g) && (h.c.largecached > 0 ==> !Suitable(g.s.mem, offers[1], want))
  }

  /** What is asked of the chunk source to serve n bytes. */
  function Ask(n: nat): nat
  {
    if n <= 512 then CHUNK_BYTES else LargeWant(n + LARGE_HEADER)
  }

  /** The only way to fail: nothing on the list, no room at the bump pointer, and the chunk source refusing. */
  ghost predicate Short(h: Heap, n: nat, offer: nat)
  {
    && |h.s.fl| == NLIST && (ListOf(n) < NLIST ==> h.s.fl[ListOf(n)] == [])
    && (n <= 512 ==> h.bumpleft < CapOf(n)) && !Suitable(h.s.mem, offer, Ask(n))
  }

  lemma ShortSmall(h: Heap, n: nat, offer: nat, due: int)
    requires Ok(h, due) && ClassOf(n) < NCLASS && |h.s.head| == NLIST && h.s.head[ClassOf(n)] == 0
    requires h.bumpleft < Width(ClassOf(n)) && !Suitable(h.s.mem, offer, CHUNK_BYTES)
    ensures Short(h, n, offer)
  {
    hide Ok, Suitable;
    ListEnd(h, ClassOf(n), due);
    SmallIs(n);
  }

  lemma ShortLarge(h: Heap, n: nat, offer: nat, due: int)
    requires Ok(h, due) && n > 512 && |h.s.head| == NLIST && !Suitable(h.s.mem, offer, LargeWant(n + LARGE_HEADER))
    requires var ci := LargeClassOf(LargeWant(n + LARGE_HEADER)); ci < NLARGECLASS ==> h.s.head[NCLASS + ci] == 0
    ensures Short(h, n, offer)
  {
    hide Ok, Suitable, LargeWant, LargeClassOf;
    Sizes(h, due);
    var ci := LargeClassOf(LargeWant(n + LARGE_HEADER));
    if ci < NLARGECLASS {
      ListEnd(h, NCLASS + ci, due);
    }
  }

  lemma SmallChunk(n: nat)
    requires n <= 512
    ensures ClassOf(n) < NCLASS && ChunkWant(CLASSES[ClassOf(n)]) == Ask(n)
  {
    ClassLimit(n);
  }

  /** The only way to fail, and what failing leaves: nothing that could be given back was kept. */
  ghost predicate Exhausted(h: Heap, g: Heap, n: nat, offers: seq<nat>)
    requires |offers| == 3
  {
    && Short(h, n, offers[0])
    && (n > 512 ==> LargeRefused(h, g, Ask(n), offers))
    && (n <= 512 ==> exists mid :: Refused(h, mid, g, Ask(n), offers))
  }

  lemma SmallExhausted(h: Heap, mid: Heap, g: Heap, n: nat, offers: seq<nat>, due: int)
    requires Ok(h, due) && n <= 512 && ClassOf(n) < NCLASS && |h.s.head| == NLIST && h.s.head[ClassOf(n)] == 0
    requires h.bumpleft < Width(ClassOf(n)) && |offers| == 3 && Refused(h, mid, g, Ask(n), offers)
    ensures Exhausted(h, g, n, offers)
  {
    hide Ok, Suitable, Short, Emptied, OnlyUsed, GivenBack;
    ShortSmall(h, n, offers[0], due);
  }

  lemma HeadIs(h: Heap, k: nat, due: int)
    requires Ok(h, due) && k < NLIST
    ensures |h.s.head| == NLIST && |h.s.fl| == NLIST
    ensures if h.s.head[k] == 0 then h.s.fl[k] == [] else h.s.fl[k] != [] && h.s.head[k] == h.s.fl[k][0]
  {
    hide RegOk, BlkOk, LinksOk, Complete, Books, LiveOk;
    ListEnd(h, k, due);
    HeadAt(h.s, k);
  }

  lemma ServedPeak(h: Heap, g: Heap, p: nat, n: nat)
    requires Served(h, g, p, n)
    ensures g.c.peak == h.c.peak
  {}

  lemma TakenPeak(h: Heap, g: Heap, p: nat)
    requires Taken(h, g, p)
    ensures g.c.peak == h.c.peak
  {}
}
