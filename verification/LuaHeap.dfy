/** The headerless allocator behind every Lua state: size classes cut from chunks, a cache of large blocks, and
    the reclaim of chunks nothing uses.

    The chunk source is outside: each call that may ask it for memory carries the addresses it would offer, in
    the order it would be asked. An offer that is not a fresh aligned region is a refusal. */
module LuaHeap {
  import opened HeapState
  import opened HeapSteps
  import opened Totals
  import opened HeapAccount
  import opened HeapMoves
  import opened HeapReclaim
  import opened HeapOutcomes

  /** What no field of the heap records: the blocks there are, who has them, and what is on each list. */
  datatype Shadow = Shadow(blk: map<nat, Blk>, live: map<nat, nat>, fl: seq<seq<nat>>)

  /** The machine's memory: its cells, and the regions mapped for this heap. */
  datatype Ram = Ram(mem: map<nat, Cell>, reg: map<nat, nat>)

  class LuaHeap {
    var ram: Ram
    var head: seq<nat>
    var own: nat
    var chunks: seq<nat>
    var lost: map<nat, nat>
    var larges: seq<nat>
    var bump: nat
    var bumpleft: nat
    var nlargefree: seq<nat>
    var c: Counters
    ghost var g: Shadow

    ghost function View(): Heap
      reads this
    {
      Heap(State(ram.mem, ram.reg, g.blk, g.live, head, g.fl), own, chunks, lost, larges, bump, bumpleft, nlargefree, c)
    }

    /** luaheap_new, on the region the chunk source gave for the heap's own record. */
    constructor (own: nat, size: nat)
      requires 0 < own && own % ALIGN == 0 && 0 < size
      ensures Ok(View(), 0) && g.live == map[] && c.mapped == size
    {
      var span := Span(own, size);
      ram := Ram(map a | a in span :: Data(0), map[own := size]);
      head := seq(NLIST, _ => 0);
      this.own := own;
      chunks, lost, larges, bump, bumpleft := [], map[], [], 0, 0;
      nlargefree := seq(NLARGECLASS, _ => 0);
      c := Counters(0, 0, size, 0, 0, 0, 0, 0);
      g := Shadow(map[], map[], seq(NLIST, _ => []));
      new;
      NewOk(View(), size);
    }

    /** classof. */
    method ClassIndex(n: nat) returns (i: nat)
      ensures i == ClassOf(n)
    {
      i := 0;
      while i < NCLASS
        invariant i <= NCLASS && ClassFrom(n, 0) == ClassFrom(n, i)
      {
        if n <= CLASSES[i] {
          return;
        }
        i := i + 1;
      }
    }

    /** What the chunk source answers: the offer, if it is a fresh aligned region. */
    method ChunkAlloc(offer: nat, n: nat) returns (b: nat)
      ensures b == if Suitable(ram.mem, offer, n) then offer else 0
    {
      b := if Suitable(ram.mem, offer, n) then offer else 0;
    }

    /** One turn of drain_bump's loop. */
    method CutFree(k: nat, ghost due: int)
      requires Ok(View(), due) && k < NCLASS && Width(k) <= bumpleft
      modifies this
      ensures Ok(View(), due) && Quiet(old(View()), View()) && ram.mem.Keys == old(ram.mem.Keys)
      ensures bumpleft == old(bumpleft) - Width(k) && chunks == old(chunks) && larges == old(larges)
      ensures lost == old(lost)
    {
      hide Ok, Quiet;
      ghost var h := View();
      DrainStep(h, k, due);
      var p := bump;
      bump := bump + CLASSES[k];
      bumpleft := bumpleft - CLASSES[k];
      ram := ram.(mem := StorePtr(ram.mem, p, head[k]));
      head := head[k := p];
      g := g.(blk := g.blk[p := Blk(Width(k), k, chunks[0])], fl := g.fl[k := [p] + g.fl[k]]);
      assert View() == GiveSmall(Cut(h, k, Width(k)), h.bump);
    }

    /** drain_bump: cut what is left of the bump region into the largest classes that fit. Less than the
        smallest class is lost. */
    method DrainBump(ghost due: int)
      requires Ok(View(), due)
      modifies this
      ensures Ok(View(), due) && Quiet(old(View()), View()) && ram.mem.Keys == old(ram.mem.Keys)
      ensures bumpleft == 0 && chunks == old(chunks) && larges == old(larges)
      ensures forall b | b in chunks && b in old(lost) :: b in lost && lost[b] < old(lost[b]) + CLASSES[0]
    {
      hide Ok, Quiet;
      OkQuiet(View(), due);
      var ci := NCLASS;
      while bumpleft >= CLASSES[0]
        invariant 0 <= ci <= NCLASS && (ci < NCLASS ==> CLASSES[ci] > bumpleft)
        invariant Ok(View(), due) && Quiet(old(View()), View()) && ram.mem.Keys == old(ram.mem.Keys)
        invariant chunks == old(chunks) && larges == old(larges) && lost == old(lost)
        decreases bumpleft
      {
        while ci > 0 && CLASSES[ci - 1] > bumpleft
          invariant 0 <= ci <= NCLASS && (ci < NCLASS ==> CLASSES[ci] > bumpleft)
        {
          ci := ci - 1;
        }
        if ci == 0 {
          break;
        }
        ghost var h := View();
        CutFree(ci - 1, due);
        QuietTrans(old(View()), h, View());
      }
      ghost var h := View();
      RetireStep(h, due);
      if chunks != [] {
        lost := lost[chunks[0] := lost[chunks[0]] + bumpleft];
      }
      bumpleft := 0;
      assert View() == Retire(h);
      QuietTrans(old(View()), h, View());
    }

    /* ---- giving back ---- */

    /** Where a large block is on the list of them. */
    method FindLarge(b: nat) returns (i: nat)
      requires b in larges
      ensures i < |larges| && larges[i] == b
    {
      i := 0;
      while larges[i] != b
        invariant i < |larges| && b !in larges[..i]
        decreases |larges| - i
      {
        assert larges[..i + 1] == larges[..i] + [larges[i]];
        i := i + 1;
      }
    }

    /** The turn of release_largefree's loop that lets one cached block go. */
    method Evict(k: nat, ghost due: int) returns (freed: nat, ghost i: nat)
      requires Ok(View(), due) && NCLASS <= k < NLIST && |head| == NLIST && head[k] != 0
      modifies this
      ensures MayEvict(old(View()), k, i) && View() == Evicted(old(View()), k, i)
      ensures freed == old(ram.reg)[old(larges)[i]]
    {
      hide Ok, Unmap, Evicted, RemoveAt;
      ghost var h := View();
      CachedHead(h, k, due);
      var p := head[k];
      var b: nat := p - LARGE_HEADER;
      var j := FindLarge(b);
      i := j;
      EvictStep(h, k, j, due);
      EvictView(h, k, j);
      freed := ram.reg[b];
      head := head[k := ram.mem[p].next];
      nlargefree := nlargefree[k - NCLASS := nlargefree[k - NCLASS] - 1];
      c := c.(largecached := c.largecached - freed, mapped := c.mapped - freed);
      larges := RemoveAt(larges, j);
      ram := ram.(mem := Unmap(ram.mem, b, freed), reg := ram.reg - {b});
      g := g.(fl := g.fl[k := g.fl[k][1..]], blk := g.blk - {p});
    }

    /** release_largefree: let every cached block go. */
    method ReleaseLargeFree(ghost due: int) returns (freed: nat)
      requires Ok(View(), due)
      modifies this
      ensures Ok(View(), due) && Quiet(old(View()), View()) && c.largecached == 0 && freed == old(c.largecached)
      ensures c.mapped == old(c.mapped) - freed && chunks == old(chunks) && bumpleft == old(bumpleft)
      ensures SameHomes(old(View()), View()) && GivenBack(old(View()).s, View().s)
    {
      hide Ok, Quiet, Evicted, Unmap, SameHomes, GivenBack;
      OkQuiet(View(), due);
      GivenNone(View().s, View().s);
      HomesSelf(View());
      Sizes(View(), due);
      freed := 0;
      for k := NCLASS to NLIST
        invariant Ok(View(), due) && Quiet(old(View()), View())
        invariant |g.fl| == NLIST && |head| == NLIST && forall j | NCLASS <= j < k :: g.fl[j] == []
        invariant c.mapped == old(c.mapped) - freed && c.largecached == old(c.largecached) - freed
        invariant chunks == old(chunks) && bumpleft == old(bumpleft) && SameHomes(old(View()), View())
        invariant GivenBack(old(View()).s, View().s)
      {
        ListEnd(View(), k, due);
        while head[k] != 0
          invariant Ok(View(), due) && Quiet(old(View()), View())
          invariant |g.fl| == NLIST && |head| == NLIST && (forall j | NCLASS <= j < k :: g.fl[j] == [])
          invariant (head[k] == 0 <==> g.fl[k] == [])
          invariant c.mapped == old(c.mapped) - freed && c.largecached == old(c.largecached) - freed
          invariant chunks == old(chunks) && bumpleft == old(bumpleft) && SameHomes(old(View()), View())
          invariant GivenBack(old(View()).s, View().s)
          decreases |larges|
        {
          ghost var h := View();
          var n, i := Evict(k, due);
          freed := freed + n;
          EvictStep(h, k, i, due);
          EvictView(h, k, i);
          EvictHomes(h, k, i);
          EvictGives(h, k, i);
          GivenTrans(old(View()).s, h.s, View().s);
          QuietLive(old(View()), h);
          HomesTrans(old(View()), h, View());
          QuietTrans(old(View()), h, View());
          ListEnd(View(), k, due);
        }
      }
      CacheEmpty(View(), due);
    }

    /** The chunk a listed small block is in, found by range. */
    method FindChunk(p: nat, k: nat, ghost due: int) returns (i: nat)
      requires Ok(View(), due) && k < NCLASS && |g.fl| == NLIST && p in g.fl[k]
      ensures i < |chunks| && p in g.blk && chunks[i] == g.blk[p].base
    {
      hide Ok;
      SmallInChunk(View(), k, p, due);
      i := 0;
      while i < |chunks|
        invariant i <= |chunks| && g.blk[p].base !in chunks[..i]
      {
        RangeIff(View(), k, p, i, due);
        var b := chunks[i];
        if b + CHUNK_HEADER <= p < b + ram.reg[b] {
          return;
        }
        i := i + 1;
      }
    }

    /** release_freechunks' first half: how many listed bytes each chunk has. */
    method Tally(ghost due: int) returns (fb: map<nat, nat>)
      requires Ok(View(), due)
      ensures Tallied(View(), fb)
    {
      hide Ok, Used, Total, Only;
      ghost var seen: set<nat> := {};
      fb := map b | b in chunks :: 0;
      TallyNone(View(), fb);
      Sizes(View(), due);
      for ci := 0 to NCLASS
        invariant Summed(View(), fb, seen) && Seen(g.fl, ci, 0, seen)
      {
        var p := head[ci];
        ghost var j := 0;
        ListNext(View(), ci, due);
        while p != 0
          invariant 0 <= j <= |g.fl[ci]| && p == Next(g.fl[ci], j) && (p == 0 <==> j == |g.fl[ci]|)
          invariant Summed(View(), fb, seen) && Seen(g.fl, ci, j, seen)
          decreases |g.fl[ci]| - j
        {
          assert p in g.fl[ci];
          var i := FindChunk(p, ci, due);
          TallyOne(View(), fb, seen, ci, j, due);
          fb := fb[chunks[i] := fb[chunks[i]] + CLASSES[ci]];
          seen := seen + {p};
          LinkNext(View(), ci, j, due);
          p := ram.mem[p].next;
          j := j + 1;
        }
        SeenList(g.fl, ci, seen);
      }
      TallyDone(View(), fb, seen, due);
    }

    /** Take every block of chunk b off list k, following and rewriting the links. */
    method UnlinkList(k: nat, b: nat, ghost due: int)
      requires k < NCLASS && b in chunks && InvBut(View().s, b) && Books(View(), due)
      modifies this`ram, this`head, this`g
      ensures ram.reg == old(ram.reg) && g == old(g).(fl := g.fl) && |g.fl| == |old(g.fl)| == NLIST
      ensures ram.mem.Keys == old(ram.mem.Keys)
      ensures forall p | p in g.fl[k] && p in g.blk :: g.blk[p].base != b
      ensures forall j | 0 <= j < NLIST && j != k :: g.fl[j] == old(g.fl)[j]
      ensures InvBut(View().s, b) && Books(View(), due) && Keeps(old(View()).s, View().s)
    {
      hide InvBut, Books, Keeps;
      ghost var h0 := View();
      UnlinkStart(h0, k, b, due);
      var prev := 0;
      var p := head[k];
      ghost var j := 0;
      while p != 0
        invariant InvBut(View().s, b) && Books(View(), due) && Keeps(h0.s, View().s) && |g.fl| == NLIST == |head|
        invariant ram.reg == h0.s.reg && ram.mem.Keys == h0.s.mem.Keys && g == old(g).(fl := g.fl)
        invariant 0 <= j <= |g.fl[k]| && p == Next(g.fl[k], j) && (p == 0 <==> j == |g.fl[k]|)
        invariant prev == (if j == 0 then 0 else g.fl[k][j - 1])
        invariant j > 0 ==> prev != 0
        invariant (forall q | q in g.fl[k][..j] && q in g.blk :: g.blk[q].base != b)
        invariant (forall i | 0 <= i < NLIST && i != k :: g.fl[i] == h0.s.fl[i])
        decreases |g.fl[k]| - j
      {
        ghost var h := View();
        UnlinkHere(h, k, j, b, due);
        if b + CHUNK_HEADER <= p < b + ram.reg[b] {
          UnlinkStep(h, k, j, b, due);
          var next := ram.mem[p].next;
          if prev == 0 {
            head := head[k := next];
          } else {
            ram := ram.(mem := StorePtr(ram.mem, prev, next));
          }
          g := g.(fl := g.fl[k := g.fl[k][..j] + g.fl[k][j + 1..]]);
          assert View() == h.(s := Unlink(h.s, k, j));
          KeepsTrans(h0.s, h.s, View().s);
          p := next;
        } else {
          prev := p;
          p := ram.mem[p].next;
          assert g.fl[k][..j + 1] == g.fl[k][..j] + [prev];
          j := j + 1;
        }
      }
      assert g.fl[k][..j] == g.fl[k];
    }

    /** release_freechunks: hand back every chunk, other than the one being cut, that nothing handed out is in. */
    method ReleaseFreeChunks(ghost due: int) returns (freed: nat)
      requires Ok(View(), due)
      modifies this
      ensures Ok(View(), due) && Quiet(old(View()), View()) && c.mapped == old(c.mapped) - freed
      ensures bumpleft == old(bumpleft)
      ensures OnlyUsed(old(View()), View()) && c.largecached == old(c.largecached)
      ensures GivenBack(old(View()).s, View().s)
    {
      hide Ok, Quiet, Tallied, InUse, Swept, Dropped, Tail, Distinct, GivenBack;
      ghost var h0 := View();
      OkQuiet(h0, due);
      BumpChunk(h0, due);
      SweptStart(h0);
      GivenNone(h0.s, h0.s);
      var fb := Tally(due);
      var cur := if chunks != [] then chunks[0] else 0;
      freed := 0;
      var i := 0;
      while i < |chunks|
        invariant i <= |chunks| && Ok(View(), due) && Quiet(h0, View()) && Tallied(View(), fb)
        invariant c.mapped == h0.c.mapped - freed && bumpleft == h0.bumpleft && Swept(h0, View(), i)
        invariant c.largecached == h0.c.largecached && GivenBack(h0.s, View().s)
        decreases |chunks| - i
      {
        ghost var h := View();
        var b := chunks[i];
        TallyAt(h, fb, i, due);
        CurAt(h0, h, i);
        OkDistinct(h, due);
        if (bumpleft > 0 && b == cur) || fb[b] + lost[b] != ram.reg[b] - CHUNK_HEADER {
          SweptKeep(h0, h, i);
          i := i + 1;
        } else {
          var n := DropUnused(i, due);
          freed := freed + n;
          SweptDrop(h0, h, View(), i);
          TalliedLess(h, View(), fb, i, due);
          QuietTrans(h0, h, View());
          DroppedBump(h, View(), i);
          GivenTrans(h0.s, h.s, View().s);
        }
      }
      SweptAll(h0, View());
    }

    /** Take every block of chunk b off every list. */
    method UnlinkAll(b: nat, ghost due: int)
      requires b in chunks && InvBut(View().s, b) && Books(View(), due) && |g.fl| == NLIST
      modifies this`ram, this`head, this`g
      ensures ram.reg == old(ram.reg) && g == old(g).(fl := g.fl) && |g.fl| == |old(g.fl)| == NLIST
      ensures ram.mem.Keys == old(ram.mem.Keys)
      ensures forall j, p | 0 <= j < NCLASS && p in g.fl[j] && p in g.blk :: g.blk[p].base != b
      ensures forall j | NCLASS <= j < NLIST :: g.fl[j] == old(g.fl)[j]
      ensures InvBut(View().s, b) && Books(View(), due) && Keeps(old(View()).s, View().s)
    {
      hide InvBut, Books, Keeps;
      ghost var h0 := View();
      UnlinkStart(h0, 0, b, due);
      for k := 0 to NCLASS
        invariant InvBut(View().s, b) && Books(View(), due) && Keeps(h0.s, View().s)
        invariant ram.reg == h0.s.reg && ram.mem.Keys == h0.s.mem.Keys && g == old(g).(fl := g.fl)
        invariant |g.fl| == NLIST && (forall j, p | 0 <= j < k && p in g.fl[j] && p in g.blk :: g.blk[p].base != b)
        invariant forall j | k <= j < NLIST :: g.fl[j] == h0.s.fl[j]
      {
        ghost var h := View();
        UnlinkList(k, b, due);
        KeepsTrans(h0.s, h.s, View().s);
      }
    }

    /** The turn of the loop that gives chunk i back: its blocks off every list first, then its memory. */
    method DropUnused(i: nat, ghost due: int) returns (freed: nat)
      requires Ok(View(), due) && i < |chunks| && !InUse(View(), chunks[i]) && Tail(View(), chunks[i]) == 0
      modifies this
      ensures Ok(View(), due) && Quiet(old(View()), View()) && Dropped(old(View()), View(), i)
      ensures old(chunks)[i] in old(ram.reg) && freed == old(ram.reg)[old(chunks)[i]] == old(c.mapped) - c.mapped
      ensures c.largecached == old(c.largecached) && GivenBack(old(View()).s, View().s)
    {
      hide Ok, Quiet, InvBut, Books, Keeps, InUse, Dropped, Tail, Unmap, Others, DropChunk, RemoveAt, GivenBack;
      ghost var h0 := View();
      var b: nat := chunks[i];
      UnlinkBegin(h0, i, due);
      UnlinkAll(b, due);
      ghost var h := View();
      DropStep(h0, h, i, due);
      DropView(h, i);
      freed := ram.reg[b];
      ram := ram.(mem := Unmap(ram.mem, b, freed), reg := ram.reg - {b});
      g := g.(blk := Others(g.blk, b));
      chunks := RemoveAt(chunks, i);
      lost := lost - {b};
      c := c.(mapped := c.mapped - freed, nchunks := c.nchunks - 1);
      DropGives(h0, h, View(), i);
    }

    /* ---- handing out ---- */

    /** newchunk: take a chunk, asking again after each thing that can be given back, and cut from it next. */
    method NewChunk(need: nat, offers: seq<nat>, ghost due: int) returns (ok: bool, ghost mid: Heap)
      requires Ok(View(), due) && |offers| == 3
      modifies this
      ensures Ok(View(), due) && Quiet(old(View()), View()) && (ok ==> bumpleft >= need)
      ensures !ok ==> Refused(old(View()), mid, View(), ChunkWant(need), offers)
    {
      hide Ok, Quiet, Unmapped, Suitable, OnlyUsed, SameHomes, GivenBack;
      ghost var h0 := View();
      OkQuiet(h0, due);
      var want: nat := CHUNK_BYTES;
      if need + CHUNK_HEADER > want {
        want := RoundUp(need + CHUNK_HEADER, ALIGN);
      }
      assert want == ChunkWant(need);
      mid := View();
      var b := ChunkAlloc(offers[0], want);
      SuitableNonzero(ram.mem, offers[0], want);
      if b == 0 {
        var freed := ReleaseLargeFree(due);
        QuietLive(h0, View());
        mid := View();
        if freed > 0 {
          SuitableNonzero(ram.mem, offers[1], want);
          b := ChunkAlloc(offers[1], want);
        }
      }
      if b == 0 {
        ghost var h1 := View();
        var freed := ReleaseFreeChunks(due);
        OnlyUsedSince(h0, h1, View());
        QuietTrans(h0, h1, View());
        if freed > 0 {
          SuitableNonzero(ram.mem, offers[2], want);
          b := ChunkAlloc(offers[2], want);
        }
      }
      if b == 0 {
        return false, mid;
      }
      ghost var h2 := View();
      DrainBump(due);
      QuietTrans(h0, h2, View());
      ChunkSuits(h2.s.mem, ram.mem, b, want);
      ghost var h3 := View();
      AddFresh(b, want, due);
      QuietTrans(h0, h3, View());
      ok := true;
    }

    method AddFresh(b: nat, want: nat, ghost due: int)
      requires Ok(View(), due) && bumpleft == 0 && 0 < b && b % ALIGN == 0 && CHUNK_HEADER <= want
      requires Unmapped(ram.mem, b, want)
      modifies this
      ensures Ok(View(), due) && Quiet(old(View()), View()) && bumpleft == want - CHUNK_HEADER
    {
      hide Ok, Unmapped, Span;
      ghost var h := View();
      AddChunkOk(h, b, want, due);
      ram := ram.(mem := Map(ram.mem, b, want), reg := ram.reg[b := want]);
      chunks := [b] + chunks;
      lost := lost[b := 0];
      bump, bumpleft := b + CHUNK_HEADER, want - CHUNK_HEADER;
      c := c.(mapped := c.mapped + want, nchunks := c.nchunks + 1);
      assert View() == AddChunk(h, b, want);
    }

    /** small_alloc: from the class's list, or the bump region, or a new chunk. n is what was asked. */
    method SmallAlloc(ci: nat, n: nat, offers: seq<nat>, ghost due: int) returns (p: nat)
      requires Ok(View(), due) && |offers| == 3 && 0 < n && ci == ClassOf(n) && ci < NCLASS
      modifies this
      ensures Served(old(View()), View(), p, n) && Ok(View(), if p == 0 then due else due - n)
      ensures FromStock(old(View()), p, n) && (Stocked(old(View()), n) ==> c.mapped == old(c.mapped))
      ensures p == 0 ==> Exhausted(old(View()), View(), n, offers)
    {
      hide Ok, Quiet, Served, Exhausted, Suitable, Refused;
      ghost var h0 := View();
      OkQuiet(h0, due);
      SmallIs(n);
      SmallChunk(n);
      HeadIs(h0, ci, due);
      if head[ci] != 0 {
        p := PopSmall(ci, n, due);
        ServedAfter(h0, h0, View(), p, n);
        return;
      }
      if bumpleft < CLASSES[ci] {
        var ok, mid := NewChunk(CLASSES[ci], offers, due);
        if !ok {
          ServedNone(h0, View(), n);
          SmallExhausted(h0, mid, View(), n, offers, due);
          return 0;
        }
      }
      ghost var h1 := View();
      p := CutBump(ci, n, due);
      ServedAfter(h0, h1, View(), p, n);
    }

    method PopSmall(ci: nat, n: nat, ghost due: int) returns (p: nat)
      requires Ok(View(), due) && 0 < n && ci == ListOf(n) && ci < NCLASS && |head| == NLIST && head[ci] != 0
      modifies this
      ensures p != 0 && Served(old(View()), View(), p, n) && Ok(View(), due - n)
      ensures p == old(head[ci]) && c.mapped == old(c.mapped)
    {
      hide Ok, Total, Keeps;
      ghost var h := View();
      ListEnd(h, ci, due);
      TakeSmallOk(h, ci, n, due);
      p := head[ci];
      head := head[ci := ram.mem[p].next];
      c := c.(rounded := c.rounded + CLASSES[ci]);
      g := g.(live := g.live[p := n], fl := g.fl[ci := g.fl[ci][1..]]);
      assert View() == TakeSmall(h, ci, n);
    }

    method CutBump(ci: nat, n: nat, ghost due: int) returns (p: nat)
      requires Ok(View(), due) && 0 < n && ci == ListOf(n) && ci < NCLASS && Width(ci) <= bumpleft
      modifies this
      ensures p != 0 && Served(old(View()), View(), p, n) && Ok(View(), due - n)
      ensures p == old(bump) && c.mapped == old(c.mapped)
    {
      hide Ok, Total, Keeps;
      ghost var h := View();
      CutOk(h, ci, n, due);
      p := bump;
      bump := bump + CLASSES[ci];
      bumpleft := bumpleft - CLASSES[ci];
      c := c.(rounded := c.rounded + CLASSES[ci]);
      g := g.(blk := g.blk[p := Blk(Width(ci), ci, chunks[0])], live := g.live[p := n]);
      assert View() == Cut(h, ci, n);
    }

    /** large_alloc: a cached block of the same bucket, or a region of its own. */
    method LargeAlloc(n: nat, offers: seq<nat>, ghost due: int) returns (p: nat)
      requires Ok(View(), due) && |offers| == 3 && 512 < n
      modifies this
      ensures Served(old(View()), View(), p, n) && Ok(View(), if p == 0 then due else due - n)
      ensures FromStock(old(View()), p, n) && (Stocked(old(View()), n) ==> c.mapped == old(c.mapped))
      ensures p == 0 ==> Exhausted(old(View()), View(), n, offers)
    {
      hide Ok, Quiet, Served, Unmapped, Short, LargeWant, LargeClassOf, GivenBack;
      ghost var h0 := View();
      OkQuiet(h0, due);
      Sizes(h0, due);
      LargeSizes(n);
      var want := LargeWant(n + LARGE_HEADER);
      var ci := LargeClassOf(want);
      if ci < NLARGECLASS {
        HeadIs(h0, NCLASS + ci, due);
        if head[NCLASS + ci] != 0 {
          p := PopLarge(NCLASS + ci, n, due);
          ServedAfter(h0, h0, View(), p, n);
          return;
        }
      }
      var b := ChunkAlloc(offers[0], want);
      if b == 0 {
        var freed := ReleaseLargeFree(due);
        QuietLive(h0, View());
        if freed > 0 {
          b := ChunkAlloc(offers[1], want);
        }
      }
      if b == 0 {
        ServedNone(h0, View(), n);
        ShortLarge(h0, n, offers[0], due);
        return 0;
      }
      ghost var h1 := View();
      p := MapLarge(b, want, n, due);
      ServedAfter(h0, h1, View(), p, n);
    }

    method PopLarge(k: nat, n: nat, ghost due: int) returns (p: nat)
      requires Ok(View(), due) && 0 < n && k == ListOf(n) && NCLASS <= k < NLIST && |head| == NLIST && head[k] != 0
      modifies this
      ensures p != 0 && Served(old(View()), View(), p, n) && Ok(View(), due - n)
      ensures p == old(head[k]) && c.mapped == old(c.mapped)
    {
      hide Ok, Total, Keeps, ListOf;
      ghost var h := View();
      Sizes(h, due);
      ListEnd(h, k, due);
      TakeLargeOk(h, k, n, due);
      CachedReg(h, k, due);
      p := head[k];
      head := head[k := ram.mem[p].next];
      nlargefree := nlargefree[k - NCLASS := nlargefree[k - NCLASS] - 1];
      c := c.(largecached := c.largecached - ram.reg[p - LARGE_HEADER], nlarges := c.nlarges + 1,
              largeAsked := c.largeAsked + n);
      g := g.(live := g.live[p := n], fl := g.fl[k := g.fl[k][1..]]);
      assert View() == TakeLarge(h, k, n);
    }

    method MapLarge(b: nat, want: nat, n: nat, ghost due: int) returns (p: nat)
      requires Ok(View(), due) && 512 < n && want == LargeWant(n + LARGE_HEADER) && 0 < b && b % ALIGN == 0
      requires Unmapped(ram.mem, b, want)
      modifies this
      ensures p != 0 && Served(old(View()), View(), p, n) && Ok(View(), due - n)
      ensures p == b + LARGE_HEADER && c.mapped == old(c.mapped) + want
    {
      hide Ok, Total, Keeps, Unmapped, Span, LargeWant, LargeClassOf, CapOf, ListOf;
      ghost var h := View();
      NewLargeOk(h, b, want, n, due);
      p := b + LARGE_HEADER;
      ram := ram.(mem := Map(ram.mem, b, want), reg := ram.reg[b := want]);
      larges := [b] + larges;
      c := c.(mapped := c.mapped + want, nlarges := c.nlarges + 1, largeAsked := c.largeAsked + n);
      g := g.(blk := g.blk[p := Blk(want - LARGE_HEADER, NCLASS + LargeClassOf(want), b)], live := g.live[p := n]);
      assert View() == NewLarge(h, b, want, n);
    }

    /* ---- taking back ---- */

    method SmallFree(p: nat, ci: nat, ghost due: int)
      requires Ok(View(), due) && p in g.live && g.live[p] <= 512 && ci == ClassOf(g.live[p])
      modifies this
      ensures Ok(View(), due + old(g.live[p])) && Taken(old(View()), View(), p)
      ensures c.mapped == old(c.mapped) && ci < |old(g.fl)| && g.fl == old(g.fl)[ci := [p] + old(g.fl)[ci]]
    {
      hide Ok, Total, Keeps, CapOf, ListOf, StorePtr;
      ghost var h := View();
      Sizes(h, due);
      SmallIs(g.live[p]);
      GiveSmallOk(h, p, due);
      LiveIs(h, p, due);
      ram := ram.(mem := StorePtr(ram.mem, p, head[ci]));
      head := head[ci := p];
      c := c.(rounded := c.rounded - CLASSES[ci]);
      g := g.(live := g.live - {p}, fl := g.fl[ci := [p] + g.fl[ci]]);
      assert View() == GiveSmall(h, p);
    }

    /** large_free: kept in its bucket if there is room, else given back to the chunk source. */
    method LargeFree(p: nat, asked: nat, ghost due: int)
      requires Ok(View(), due) && p in g.live && g.live[p] > 512 && asked == g.live[p]
      modifies this
      ensures Ok(View(), due + asked) && Taken(old(View()), View(), p)
      ensures Retired(old(View()), View(), p)
    {
      hide Ok, Total, Keeps, CapOf, ListOf, Taken;
      ghost var h := View();
      Sizes(h, due);
      LiveIs(h, p, due);
      LargeAt(h, p, due);
      var b: nat := p - LARGE_HEADER;
      var ci := LargeClassOf(ram.reg[b]);
      if ci < NLARGECLASS && nlargefree[ci] < LARGE_CACHED {
        KeepLarge(p, ci, asked, due);
      } else {
        var i := FindLarge(b);
        LoseLarge(p, i, asked, due);
      }
    }

    method KeepLarge(p: nat, ci: nat, asked: nat, ghost due: int)
      requires Ok(View(), due) && p in g.live && g.live[p] == asked > 512 && p in g.blk && p >= LARGE_HEADER
      requires p - LARGE_HEADER in ram.reg
      requires ci < NLARGECLASS && |head| == NLIST && |g.fl| == NLIST && |nlargefree| == NLARGECLASS
      requires nlargefree[ci] < LARGE_CACHED
      requires g.blk[p].list == NCLASS + ci && ram.reg[p - LARGE_HEADER] == g.blk[p].size + LARGE_HEADER
      modifies this
      ensures Ok(View(), due + old(g.live[p])) && Taken(old(View()), View(), p)
      ensures g.fl == old(g.fl)[NCLASS + ci := [p] + old(g.fl)[NCLASS + ci]] && ram.reg == old(ram.reg)
      ensures c.mapped == old(c.mapped) && c.largecached == old(c.largecached) + old(ram.reg)[p - LARGE_HEADER]
    {
      hide Ok, Total, Keeps, CapOf, ListOf, StorePtr;
      ghost var h := View();
      CacheLargeOk(h, p, due);
      AskedSum(h, p, due);
      var la := c.largeAsked;
      ram := ram.(mem := StorePtr(ram.mem, p, head[NCLASS + ci]));
      head := head[NCLASS + ci := p];
      nlargefree := nlargefree[ci := nlargefree[ci] + 1];
      c := c.(largecached := c.largecached + ram.reg[p - LARGE_HEADER], nlarges := c.nlarges - 1,
              largeAsked := la - (if asked < la then asked else la));
      g := g.(live := g.live - {p}, fl := g.fl[NCLASS + ci := [p] + g.fl[NCLASS + ci]]);
      assert View() == CacheLarge(h, p);
    }

    method LoseLarge(p: nat, i: nat, asked: nat, ghost due: int)
      requires Ok(View(), due) && p in g.live && g.live[p] == asked > 512
      requires i < |larges| && larges[i] + LARGE_HEADER == p && larges[i] in ram.reg
      modifies this
      ensures Ok(View(), due + old(g.live[p])) && Taken(old(View()), View(), p)
      ensures g.fl == old(g.fl) && ram.reg == old(ram.reg) - {old(larges[i])} && GivenBack(old(View()).s, View().s)
      ensures c.mapped == old(c.mapped) - old(ram.reg[larges[i]]) && c.largecached == old(c.largecached)
    {
      hide Ok, Total, Keeps, CapOf, ListOf, Unmap, LargeClassOf, LargeWant, RemoveAt, GivenBack;
      ghost var h := View();
      DropLargeOk(h, i, due);
      AskedSum(h, p, due);
      var la := c.largeAsked;
      var b := larges[i];
      ram := ram.(mem := Unmap(ram.mem, b, ram.reg[b]));
      c := c.(mapped := c.mapped - ram.reg[b], nlarges := c.nlarges - 1,
              largeAsked := la - (if asked < la then asked else la));
      ram := ram.(reg := ram.reg - {b});
      larges := RemoveAt(larges, i);
      g := g.(blk := g.blk - {p}, live := g.live - {p});
      assert View() == DropLarge(h, i);
      GivenOne(h.s, View().s, b);
    }

    /* ---- the entry points ---- */

    method Alloc(n: nat, offers: seq<nat>, ghost due: int) returns (p: nat)
      requires Ok(View(), due) && |offers| == 3 && 0 < n
      modifies this
      ensures Served(old(View()), View(), p, n) && Ok(View(), if p == 0 then due else due - n)
      ensures FromStock(old(View()), p, n) && (Stocked(old(View()), n) ==> c.mapped == old(c.mapped))
      ensures p == 0 ==> Exhausted(old(View()), View(), n, offers)
    {
      hide Ok, Served, Exhausted, FromStock, Stocked;
      var nc := ClassIndex(n);
      ClassLimit(n);
      if nc < NCLASS {
        p := SmallAlloc(nc, n, offers, due);
      } else {
        p := LargeAlloc(n, offers, due);
      }
    }

    method Free(p: nat, osize: nat, ghost due: int)
      requires Ok(View(), due) && p in g.live && g.live[p] == osize
      modifies this
      ensures Ok(View(), due + osize) && Taken(old(View()), View(), p)
    {
      hide Ok, Taken;
      var oc := ClassIndex(osize);
      ClassLimit(osize);
      if oc < NCLASS {
        SmallFree(p, oc, due);
      } else {
        LargeFree(p, osize, due);
      }
    }

    /** Does a block asked for at osize bytes already suit nsize bytes, so that it need not move? */
    method Fits(p: nat, osize: nat, nsize: nat) returns (yes: bool)
      requires Ok(View(), 0) && p in g.live && g.live[p] == osize
      ensures yes <==> ListOf(nsize) == ListOf(osize) && CapOf(nsize) == CapOf(osize)
    {
      hide Ok;
      var oc := ClassIndex(osize);
      var nc := ClassIndex(nsize);
      ClassLimit(osize);
      ClassLimit(nsize);
      if oc == nc && oc < NCLASS {
        return true;
      }
      if oc >= NCLASS && nc >= NCLASS {
        LargeAt(View(), p, 0);
        LiveIs(View(), p, 0);
        LargeSizes(osize);
        LargeSizes(nsize);
        return LargeWant(nsize + LARGE_HEADER) == ram.reg[p - LARGE_HEADER];
      }
      return false;
    }

    method Note(delta: int)
      requires Ok(View(), -delta)
      modifies this`c
      ensures Ok(View(), 0) && c == old(c).(live := old(c.live) + delta, peak := c.peak)
      ensures c.peak == if c.live > old(c.peak) then c.live else old(c.peak)
    {
      hide Ok;
      NoteOk(View(), c.live + delta, if c.live + delta > c.peak then c.live + delta else c.peak, delta);
      c := c.(live := c.live + delta);
      if c.live > c.peak {
        c := c.(peak := c.live);
      }
    }

    /** luaheap_realloc. ptr is 0 or a block handed out before, osize what was asked for it. */
    method Realloc(ptr: nat, osize: nat, nsize: nat, offers: seq<nat>) returns (r: nat)
      requires Ok(View(), 0) && |offers| == 3 && (ptr != 0 ==> ptr in g.live && g.live[ptr] == osize)
      modifies this
      ensures Ok(View(), 0) && Realloced(old(View()).s, View().s, ptr, osize, nsize, r)
      ensures nsize > 0 && ptr != 0 && ListOf(nsize) == ListOf(osize) && CapOf(nsize) == CapOf(osize) ==> r == ptr
      ensures nsize > 0 && (ptr == 0 || ListOf(nsize) != ListOf(osize) || CapOf(nsize) != CapOf(osize)) ==>
        FromStock(old(View()), r, nsize)
      ensures nsize > 0 && r == 0 ==> Exhausted(old(View()), View(), nsize, offers)
      ensures c.peak == if r != 0 && c.live > old(c.peak) then c.live else old(c.peak)
    {
      hide Ok, Served, Taken, Realloced, Total, CapOf, ListOf, Exhausted, FromStock, Stocked;
      ghost var h0 := View();
      if nsize == 0 {
        if ptr != 0 {
          Free(ptr, osize, 0);
          ghost var h1 := View();
          TakenPeak(h0, h1, ptr);
          Forgo(0 - osize);
          FreeDone(h0, h1, View(), ptr, osize);
        } else {
          NothingDone(h0, osize);
        }
        return 0;
      }
      if ptr == 0 {
        r := Alloc(nsize, offers, 0);
        ghost var h1 := View();
        ServedPeak(h0, h1, r, nsize);
        if r != 0 {
          Note(nsize);
        }
        AllocDone(h0, h1, View(), osize, nsize, r);
        return;
      }
      var fits := Fits(ptr, osize, nsize);
      if fits {
        Keep(ptr, osize, nsize);
        return ptr;
      }
      r := Move(ptr, osize, nsize, offers);
    }

    /** A new block, the old one's bytes, and the old one given back. */
    method Move(ptr: nat, osize: nat, nsize: nat, offers: seq<nat>) returns (q: nat)
      requires Ok(View(), 0) && |offers| == 3 && ptr != 0 && ptr in g.live && g.live[ptr] == osize && nsize > 0
      modifies this
      ensures Ok(View(), 0) && Realloced(old(View()).s, View().s, ptr, osize, nsize, q)
      ensures FromStock(old(View()), q, nsize) && (q == 0 ==> Exhausted(old(View()), View(), nsize, offers))
      ensures c.peak == if q != 0 && c.live > old(c.peak) then c.live else old(c.peak)
    {
      hide Ok, Inv, Served, Taken, Realloced, Total, CapOf, ListOf, CopyBytes, Mapped, Exhausted, FromStock, Stocked;
      ghost var h0 := View();
      q := Alloc(nsize, offers, 0);
      ghost var h1 := View();
      ServedPeak(h0, h1, q, nsize);
      if q == 0 {
        MoveFailed(h0, h1, ptr, osize, nsize);
        return;
      }
      var n := if osize < nsize then osize else nsize;
      MoveReady(h0, h1, ptr, q, osize, nsize);
      ram := ram.(mem := CopyBytes(ram.mem, ptr, q, n));
      ghost var h2 := View();
      assert h2 == h1.(s := Copy(h1.s, ptr, q, n));
      Free(ptr, osize, 0 - nsize);
      ghost var h3 := View();
      TakenPeak(h2, h3, ptr);
      Note(nsize - osize);
      MoveDone(h0, h1, h2, h3, View(), ptr, q, osize, nsize);
    }

    /** A free tells the g.live counter and never the peak. */
    method Forgo(delta: int)
      requires Ok(View(), -delta)
      modifies this`c
      ensures Ok(View(), 0) && c == old(c).(live := old(c.live) + delta)
    {
      hide Ok;
      NoteOk(View(), c.live + delta, c.peak, delta);
      c := c.(live := c.live + delta);
    }

    /** A block that stays where it is. */
    method Keep(p: nat, osize: nat, nsize: nat)
      requires Ok(View(), 0) && p in g.live && g.live[p] == osize && nsize > 0 && ListOf(nsize) == ListOf(osize)
      requires CapOf(nsize) == CapOf(osize)
      requires p != 0
      modifies this
      ensures Ok(View(), 0) && Realloced(old(View()).s, View().s, p, osize, nsize, p)
      ensures c.peak == if c.live > old(c.peak) then c.live else old(c.peak)
    {
      hide Ok, Realloced, Total, CapOf, ListOf, Keeps;
      ghost var h := View();
      RefitOk(h, p, nsize, 0);
      if nsize > 512 {
        c := c.(largeAsked := c.largeAsked + nsize - osize);
      }
      g := g.(live := g.live[p := nsize]);
      assert View() == Refit(h, p, nsize);
      Note(nsize - osize);
      KeepDone(h, View(), p, osize, nsize);
    }

    /** What the owner of a block may do with it: store anywhere in the bytes it asked for. */
    method Store(p: nat, off: nat, v: nat)
      requires Ok(View(), 0) && p in g.live && off < g.live[p]
      modifies this`ram
      ensures Ok(View(), 0) && OthersSame(old(View()).s, View().s, p)
      ensures ram == old(ram).(mem := old(ram.mem)[p + off := Data(v)])
    {
      hide Ok, OthersSame;
      PutOk(View(), p, p + off, v, 0);
      PutOthers(View(), p, p + off, v, 0);
      ram := ram.(mem := ram.mem[p + off := Data(v)]);
    }

    /** luaheap_reclaim. */
    method Reclaim() returns (n: nat)
      requires Ok(View(), 0)
      modifies this
      ensures Ok(View(), 0) && Quiet(old(View()), View()) && n == old(c.mapped) - c.mapped
      ensures OnlyUsed(old(View()), View()) && bumpleft == old(bumpleft) && c.largecached == old(c.largecached)
      ensures GivenBack(old(View()).s, View().s)
    {
      n := ReleaseFreeChunks(0);
    }

    /** luaheap_release. */
    method Release() returns (n: nat)
      requires Ok(View(), 0)
      modifies this
      ensures Ok(View(), 0) && Quiet(old(View()), View()) && n == old(c.mapped) - c.mapped
      ensures c.largecached == 0 && OnlyUsed(old(View()), View()) && bumpleft == old(bumpleft)
      ensures GivenBack(old(View()).s, View().s)
    {
      hide Ok, Quiet, SameHomes, OnlyUsed, GivenBack;
      ghost var h0 := View();
      var a := ReleaseLargeFree(0);
      ghost var h1 := View();
      var b := ReleaseFreeChunks(0);
      QuietLive(h0, h1);
      OnlyUsedSince(h0, h1, View());
      QuietTrans(h0, h1, View());
      GivenTrans(h0.s, h1.s, View().s);
      n := a + b;
    }

    /** luaheap_stats: the figures add up. */
    method Statistics() returns (t: Stats)
      requires Ok(View(), 0)
      ensures t == StatsOf(c) && t.waste == t.mapped - t.live && t.rounding + t.headers + t.unused == t.waste
      ensures 0 <= t.cached <= t.unused
      ensures t.live == Total(g.live, Id()) && t.mapped == Total(ram.reg, Id()) && t.chunks == |chunks|
    {
      StatsAddUp(View());
      t := StatsOf(c);
    }
  }
}
