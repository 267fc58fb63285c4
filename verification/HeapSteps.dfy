/** The changes the allocator makes to its memory, one at a time, and why each keeps the heap's invariant. */
module HeapSteps {
  import opened HeapState

  /** A pointer store: eight bytes, of which the first carries the link. */
  function StorePtr(mem: map<nat, Cell>, p: nat, v: nat): map<nat, Cell>
  {
    map a | a in mem :: if a == p then Link(v) else if p < a < p + 8 then Data(0) else mem[a]
  }

  lemma ThreadedElsewhere(mem: map<nat, Cell>, t: map<nat, Cell>, h: nat, q: seq<nat>)
    requires Threaded(mem, h, q) && (forall p | p in q :: p in t && (p in mem ==> t[p] == mem[p]))
    ensures Threaded(t, h, q)
  {}

  /* ---- a block handed out goes onto its list ---- */

  function Push(s: State, p: nat): State
    requires p in s.blk && s.blk[p].list < |s.head| && s.blk[p].list < |s.fl|
  {
    var k := s.blk[p].list;
    s.(mem := StorePtr(s.mem, p, s.head[k]), live := s.live - {p}, head := s.head[k := p],
       fl := s.fl[k := [p] + s.fl[k]])
  }

  lemma PushLists(s: State, p: nat)
    requires ListsOk(s) && LiveOk(s) && p in s.live && s.blk[p].list < NLIST
    ensures ListsOk(Push(s, p)) && LiveOk(Push(s, p))
  {
    hide CapOf, ListOf, ListSize;
    var t := Push(s, p);
    var k := s.blk[p].list;
    forall j | 0 <= j < NLIST
      ensures Listed(t, j)
    {
      assert Listed(s, j);
      if j == k {
        assert p !in s.fl[k];
      }
    }
  }

  lemma PushComplete(s: State, p: nat, x: nat)
    requires |s.head| == NLIST && |s.fl| == NLIST && Complete(s, x) && p in s.blk && s.blk[p].list < NLIST
    ensures Complete(Push(s, p), x)
  {
    var t := Push(s, p);
    var k := s.blk[p].list;
    assert p == t.fl[k][0];
    forall q | q in s.fl[k]
      ensures q in t.fl[k]
    {
      assert t.fl[k] == [p] + s.fl[k];
    }
  }

  lemma PushLinks(s: State, p: nat)
    requires BlkOk(s) && RegOk(s) && ListsOk(s) && LinksOk(s) && p in s.live && p in s.blk && s.blk[p].list < NLIST
    ensures LinksOk(Push(s, p))
  {
    hide BlkOk, Listed, RegOk, ListsOk;
    ListsSizes(s);
    var t := Push(s, p);
    var k := s.blk[p].list;
    PlacedAt(s, p);
    RegAt(s, s.blk[p].base);
    forall j | 0 <= j < NLIST
      ensures Threaded(t.mem, t.head[j], t.fl[j])
    {
      forall q | q in s.fl[j]
        ensures q in t.mem && t.mem[q] == s.mem[q] && q in s.mem
      {
        LinkMapped(s, j, q);
        ListedAt(s, j, q);
        PlacedAt(s, q);
        ApartAt(s, p, q);
      }
      ThreadedElsewhere(s.mem, t.mem, s.head[j], s.fl[j]);
      if j == k {
        ThreadedCons(t.mem, s.head[k], s.fl[k], p);
      }
    }
  }

  lemma ThreadedCons(mem: map<nat, Cell>, h: nat, q: seq<nat>, p: nat)
    requires Threaded(mem, h, q) && p in mem && mem[p] == Link(h)
    ensures Threaded(mem, p, [p] + q)
  {}

  lemma LinkMapped(s: State, k: nat, p: nat)
    requires |s.head| == NLIST && |s.fl| == NLIST && LinksOk(s) && k < NLIST && p in s.fl[k]
    ensures p in s.mem
  {
    assert Threaded(s.mem, s.head[k], s.fl[k]);
  }

  lemma ListsSizes(s: State)
    requires ListsOk(s)
    ensures |s.head| == NLIST && |s.fl| == NLIST
  {}

  lemma PushInv(s: State, p: nat, x: nat)
    requires InvBut(s, x) && p in s.live && p in s.blk && s.blk[p].list < NLIST
    ensures ListsOk(s) && InvBut(Push(s, p), x) && Keeps(s, Push(s, p))
  {
    hide BlkOk, LiveOk, ListsOk, LinksOk, Complete, Keeps, RegOk;
    ListsSizes(s);
    PushLists(s, p);
    PushLinks(s, p);
    PushComplete(s, p, x);
    StoreRegs(s, Push(s, p));
    StoreKeeps(s, Push(s, p), p);
  }

  /** A store that leaves the mapping alone leaves regions and blocks alone. */
  lemma StoreRegs(s: State, t: State)
    requires t.reg == s.reg && t.blk == s.blk && t.mem.Keys == s.mem.Keys
    ensures RegOk(s) ==> RegOk(t)
    ensures BlkOk(s) ==> BlkOk(t)
  {
    if RegOk(s) {
      forall b | b in t.reg
        ensures Mapped(t.mem, b, t.reg[b])
      {
        assert Mapped(s.mem, b, s.reg[b]);
      }
    }
  }

  /** Writing inside a block that is not handed out afterwards disturbs no block that is. */
  lemma StoreKeeps(s: State, t: State, p: nat)
    requires BlkOk(s) && RegOk(s) && LiveOk(s) && p in s.blk && p !in t.live && t.mem.Keys == s.mem.Keys
    requires forall a | a in s.mem && !(p <= a < p + 8) :: t.mem[a] == s.mem[a]
    ensures Keeps(s, t)
  {
    hide BlkOk, RegOk, LiveOk, CapOf, ListOf, ListSize;
    PlacedAt(s, p);
    forall q, a: nat | q in s.live && q in t.live && q <= a < q + s.live[q] && a < q + t.live[q]
      ensures a in s.mem && a in t.mem && t.mem[a] == s.mem[a]
    {
      LiveAt(s, q);
      PlacedAt(s, q);
      RegAt(s, s.blk[q].base);
      ApartAt(s, p, q);
    }
  }

  /* ---- a block comes off its list ---- */

  function Pop(s: State, k: nat, n: nat): State
    requires k < |s.head| && k < |s.fl| && s.fl[k] != [] && s.head[k] in s.mem && s.mem[s.head[k]].Link?
  {
    var p := s.head[k];
    s.(live := s.live[p := n], head := s.head[k := s.mem[p].next], fl := s.fl[k := s.fl[k][1..]])
  }

  lemma HeadAt(s: State, k: nat)
    requires RegOk(s) && BlkOk(s) && ListsOk(s) && LinksOk(s) && k < NLIST
    ensures s.fl[k] == [] <==> s.head[k] == 0
    ensures s.fl[k] != [] ==>
      && s.head[k] == s.fl[k][0] && s.head[k] in s.mem && s.mem[s.head[k]].Link? && s.head[k] in s.blk
      && s.blk[s.head[k]].list == k && s.head[k] !in s.live
  {
    assert Threaded(s.mem, s.head[k], s.fl[k]);
    if s.fl[k] != [] {
      assert s.fl[k][0] in s.fl[k];
      ListedAt(s, k, s.fl[k][0]);
      PlacedAt(s, s.fl[k][0]);
    }
  }

  lemma PopLists(s: State, k: nat, n: nat)
    requires RegOk(s) && ListsOk(s) && LiveOk(s) && BlkOk(s) && LinksOk(s) && k < NLIST && s.fl[k] != [] && n > 0
    requires ListOf(n) == k
    ensures s.head[k] in s.mem && s.mem[s.head[k]].Link? && ListsOk(Pop(s, k, n)) && LiveOk(Pop(s, k, n))
  {
    hide CapOf, ListOf, ListSize, LinksOk, Threaded, RegOk;
    HeadAt(s, k);
    CapOfList(n);
    var t := Pop(s, k, n);
    PlacedAt(s, s.head[k]);
    forall j | 0 <= j < NLIST
      ensures Listed(t, j)
    {
      assert Listed(s, j);
    }
  }

  lemma PopLinks(s: State, k: nat, n: nat)
    requires |s.head| == NLIST && |s.fl| == NLIST && LinksOk(s) && k < NLIST && s.fl[k] != []
    requires s.head[k] in s.mem && s.mem[s.head[k]].Link?
    ensures LinksOk(Pop(s, k, n))
  {
    var t := Pop(s, k, n);
    assert Threaded(s.mem, s.head[k], s.fl[k]);
    assert Threaded(t.mem, t.head[k], t.fl[k]);
  }

  lemma PopComplete(s: State, k: nat, n: nat, x: nat)
    requires |s.head| == NLIST && |s.fl| == NLIST && Complete(s, x) && k < NLIST && s.fl[k] != []
    requires s.head[k] == s.fl[k][0]
    requires s.head[k] in s.mem && s.mem[s.head[k]].Link?
    ensures Complete(Pop(s, k, n), x)
  {
    var t := Pop(s, k, n);
    forall q | q in s.fl[k] && q != s.head[k]
      ensures q in t.fl[k]
    {
      assert s.fl[k] == [s.fl[k][0]] + t.fl[k];
    }
  }

  lemma PopInv(s: State, k: nat, n: nat, x: nat)
    requires InvBut(s, x) && k < NLIST && s.fl[k] != [] && n > 0 && ListOf(n) == k
    ensures s.head[k] in s.mem && s.mem[s.head[k]].Link? && s.head[k] == s.fl[k][0] && s.head[k] !in s.live
    ensures s.head[k] in s.blk
    ensures InvBut(Pop(s, k, n), x) && Keeps(s, Pop(s, k, n))
  {
    hide BlkOk, LiveOk, ListsOk, LinksOk, Complete, Keeps, RegOk, ListOf;
    ListsSizes(s);
    HeadAt(s, k);
    PopLists(s, k, n);
    PopLinks(s, k, n);
    PopComplete(s, k, n, x);
    StoreRegs(s, Pop(s, k, n));
    SameMemKeeps(s, Pop(s, k, n));
  }

  lemma SameMemKeeps(s: State, t: State)
    requires BlkOk(s) && RegOk(s) && LiveOk(s) && t.mem == s.mem
    ensures Keeps(s, t)
  {
    hide BlkOk, RegOk, LiveOk, CapOf, ListOf, ListSize;
    forall q, a: nat | q in s.live && q in t.live && q <= a < q + s.live[q] && a < q + t.live[q]
      ensures a in s.mem
    {
      LiveAt(s, q);
      PlacedAt(s, q);
      RegAt(s, s.blk[q].base);
    }
  }

  /* ---- a block is cut, and forgotten ---- */

  function Carve(s: State, p: nat, k: Blk, n: nat): State
  {
    s.(blk := s.blk[p := k], live := s.live[p := n])
  }

  lemma CarveBlks(s: State, p: nat, k: Blk, n: nat)
    requires BlkOk(s) && LiveOk(s) && n > 0 && k.size == CapOf(n) && k.list == ListOf(n) && p !in s.blk
    requires Placed(Carve(s, p, k, n), p)
    requires forall q | q in s.blk :: Apart(p, k.size, q, s.blk[q].size)
    ensures BlkOk(Carve(s, p, k, n)) && LiveOk(Carve(s, p, k, n))
  {
    hide CapOf, ListOf, ListSize;
    var t := Carve(s, p, k, n);
    forall q | q in t.blk
      ensures Placed(t, q)
    {
      if q != p {
        assert Placed(s, q);
      }
    }
  }

  lemma CarveLists(s: State, p: nat, k: Blk, n: nat, x: nat)
    requires ListsOk(s) && LinksOk(s) && Complete(s, x) && p !in s.blk
    ensures ListsOk(Carve(s, p, k, n)) && LinksOk(Carve(s, p, k, n)) && Complete(Carve(s, p, k, n), x)
  {
    hide Threaded;
    var t := Carve(s, p, k, n);
    forall j | 0 <= j < NLIST
      ensures Listed(t, j)
    {
      assert Listed(s, j);
    }
  }

  lemma CarveInv(s: State, p: nat, k: Blk, n: nat, x: nat)
    requires InvBut(s, x) && n > 0 && k.size == CapOf(n) && k.list == ListOf(n) && p !in s.blk
    requires Placed(Carve(s, p, k, n), p)
    requires forall q | q in s.blk :: Apart(p, k.size, q, s.blk[q].size)
    ensures InvBut(Carve(s, p, k, n), x) && Keeps(s, Carve(s, p, k, n)) && p !in s.live
  {
    hide BlkOk, LiveOk, ListsOk, LinksOk, Complete, Keeps, RegOk, ListOf, CapOf, Placed;
    CarveBlks(s, p, k, n);
    CarveLists(s, p, k, n, x);
    SameMemKeeps(s, Carve(s, p, k, n));
    CarveRegs(s, p, k, n);
  }

  lemma CarveRegs(s: State, p: nat, k: Blk, n: nat)
    requires RegOk(s) && LiveOk(s) && p !in s.blk
    ensures RegOk(Carve(s, p, k, n)) && p !in s.live
  {}

  function Forget(s: State, p: nat): State
  {
    s.(blk := s.blk - {p}, live := s.live - {p})
  }

  lemma ForgetLists(s: State, p: nat, x: nat)
    requires ListsOk(s) && LinksOk(s) && Complete(s, x) && p in s.live
    ensures ListsOk(Forget(s, p)) && LinksOk(Forget(s, p)) && Complete(Forget(s, p), x)
  {
    hide Threaded;
    var t := Forget(s, p);
    forall j | 0 <= j < NLIST
      ensures Listed(t, j)
    {
      assert Listed(s, j);
    }
  }

  lemma ForgetBlks(s: State, p: nat)
    requires BlkOk(s) && LiveOk(s) && RegOk(s)
    ensures BlkOk(Forget(s, p)) && LiveOk(Forget(s, p)) && RegOk(Forget(s, p))
  {
    hide CapOf, ListOf, ListSize, BlkOk, RegOk;
    FewerBlks(s, Forget(s, p));
  }

  lemma FewerBlks(s: State, t: State)
    requires t.reg == s.reg && t.mem == s.mem && (forall p | p in t.blk :: p in s.blk && t.blk[p] == s.blk[p])
    ensures RegOk(s) ==> RegOk(t)
    ensures BlkOk(s) ==> BlkOk(t)
  {
    hide ListSize;
    if BlkOk(s) {
      forall q | q in t.blk
        ensures Placed(t, q)
      {
        assert Placed(s, q);
      }
    }
  }

  lemma ForgetInv(s: State, p: nat, x: nat)
    requires InvBut(s, x) && p in s.live
    ensures InvBut(Forget(s, p), x) && Keeps(s, Forget(s, p))
  {
    hide BlkOk, LiveOk, ListsOk, LinksOk, Complete, Keeps, RegOk;
    ForgetLists(s, p, x);
    ForgetBlks(s, p);
    SameMemKeeps(s, Forget(s, p));
  }

  /* ---- regions come and go ---- */

  function Span(b: nat, n: nat): (r: set<nat>)
    ensures forall a :: a in r <==> b <= a < b + n
  {
    if n == 0 then {} else Span(b, n - 1) + {b + n - 1}
  }

  function Map(mem: map<nat, Cell>, b: nat, n: nat): map<nat, Cell>
  {
    var span := Span(b, n);
    mem + (map a | a in span :: Data(0))
  }

  function AddRegion(s: State, b: nat, n: nat): State
  {
    s.(mem := Map(s.mem, b, n), reg := s.reg[b := n])
  }

  predicate Unmapped(mem: map<nat, Cell>, b: nat, n: nat)
  {
    forall a: nat | b <= a < b + n :: a !in mem
  }

  lemma AddRegionRegs(s: State, b: nat, n: nat)
    requires RegOk(s) && 0 < b && b % ALIGN == 0 && 0 < n && Unmapped(s.mem, b, n)
    ensures RegOk(AddRegion(s, b, n)) && b !in s.reg
    ensures forall c | c in s.reg :: Apart(b, n, c, s.reg[c])
  {
    var t := AddRegion(s, b, n);
    forall c | c in s.reg
      ensures Apart(b, n, c, s.reg[c]) && (s.reg[c] > 0 ==> c != b) && Mapped(t.mem, c, s.reg[c])
    {
      assert Mapped(s.mem, c, s.reg[c]);
      assert c in s.mem && b !in s.mem;
    }
  }

  lemma AddRegionBlks(s: State, b: nat, n: nat)
    requires BlkOk(s) && b !in s.reg
    ensures BlkOk(AddRegion(s, b, n))
  {
    hide ListSize;
    var t := AddRegion(s, b, n);
    forall q | q in t.blk
      ensures Placed(t, q)
    {
      assert Placed(s, q);
    }
  }

  lemma AddRegionLinks(s: State, b: nat, n: nat)
    requires ListsOk(s) && LinksOk(s) && Unmapped(s.mem, b, n)
    ensures ListsOk(AddRegion(s, b, n)) && LinksOk(AddRegion(s, b, n))
  {
    var t := AddRegion(s, b, n);
    forall k | 0 <= k < NLIST
      ensures Threaded(t.mem, t.head[k], t.fl[k]) && Listed(t, k)
    {
      assert Threaded(s.mem, s.head[k], s.fl[k]);
      assert Listed(s, k);
    }
  }

  lemma AddRegionKeeps(s: State, b: nat, n: nat)
    requires BlkOk(s) && RegOk(s) && LiveOk(s) && Unmapped(s.mem, b, n)
    ensures Keeps(s, AddRegion(s, b, n))
  {
    hide BlkOk, RegOk, LiveOk;
    SameMemKeeps(s, s);
  }

  lemma AddRegionInv(s: State, b: nat, n: nat)
    requires Inv(s) && 0 < b && b % ALIGN == 0 && 0 < n && Unmapped(s.mem, b, n)
    ensures Inv(AddRegion(s, b, n)) && b !in s.reg && Keeps(s, AddRegion(s, b, n))
    ensures forall p | p in s.blk :: s.blk[p].base != b && Apart(b, n, p, s.blk[p].size)
  {
    hide LiveOk, ListsOk, LinksOk, Complete, Keeps, RegOk, Mapped, ListSize, BlkOk;
    AddRegionRegs(s, b, n);
    AddRegionBlks(s, b, n);
    AddRegionLinks(s, b, n);
    AddRegionKeeps(s, b, n);
    AddRegionLive(s, b, n);
    forall p | p in s.blk
      ensures s.blk[p].base != b && Apart(b, n, p, s.blk[p].size)
    {
      PlacedAt(s, p);
    }
  }

  lemma AddRegionLive(s: State, b: nat, n: nat)
    ensures LiveOk(s) ==> LiveOk(AddRegion(s, b, n))
    ensures |s.fl| == NLIST && Complete(s, 0) ==> Complete(AddRegion(s, b, n), 0)
    ensures AddRegion(s, b, n).blk == s.blk
  {}

  function Unmap(mem: map<nat, Cell>, b: nat, n: nat): map<nat, Cell>
  {
    map a | a in mem && !(b <= a < b + n) :: mem[a]
  }

  function DropRegion(s: State, b: nat): State
    requires b in s.reg
  {
    s.(mem := Unmap(s.mem, b, s.reg[b]), reg := s.reg - {b})
  }

  lemma DropRegionMapped(s: State, b: nat)
    requires RegOk(s) && b in s.reg
    ensures RegOk(DropRegion(s, b))
  {
    var t := DropRegion(s, b);
    forall c | c in t.reg
      ensures Mapped(t.mem, c, t.reg[c])
    {
      assert Mapped(s.mem, c, s.reg[c]);
      assert Apart(b, s.reg[b], c, s.reg[c]);
    }
  }

  lemma DropRegionRegs(s: State, b: nat)
    requires RegOk(s) && BlkOk(s) && b in s.reg && (forall p | p in s.blk :: s.blk[p].base != b)
    ensures RegOk(DropRegion(s, b)) && BlkOk(DropRegion(s, b))
  {
    hide ListSize, RegOk, Unmap;
    DropRegionMapped(s, b);
    var t := DropRegion(s, b);
    forall q | q in t.blk
      ensures Placed(t, q)
    {
      assert Placed(s, q);
    }
  }

  /** Bytes of a block outside region b survive the region. */
  lemma Outside(s: State, b: nat, p: nat)
    requires RegOk(s) && BlkOk(s) && b in s.reg && p in s.blk && s.blk[p].base != b
    ensures Apart(p, s.blk[p].size, b, s.reg[b])
  {
    PlacedAt(s, p);
    assert Apart(s.blk[p].base, s.reg[s.blk[p].base], b, s.reg[b]);
  }

  lemma DropRegionLinks(s: State, b: nat)
    requires RegOk(s) && BlkOk(s) && ListsOk(s) && LinksOk(s) && b in s.reg
    requires (forall p | p in s.blk :: s.blk[p].base != b)
    ensures ListsOk(DropRegion(s, b)) && LinksOk(DropRegion(s, b))
  {
    hide RegOk, BlkOk, ListSize;
    var t := DropRegion(s, b);
    forall k | 0 <= k < NLIST
      ensures Threaded(t.mem, t.head[k], t.fl[k]) && Listed(t, k)
    {
      assert Listed(s, k);
      assert Threaded(s.mem, s.head[k], s.fl[k]);
      forall q | q in s.fl[k]
        ensures q in t.mem && t.mem[q] == s.mem[q]
      {
        LinkMapped(s, k, q);
        Outside(s, b, q);
        PlacedAt(s, q);
      }
      ThreadedElsewhere(s.mem, t.mem, s.head[k], s.fl[k]);
    }
  }

  lemma DropRegionKeeps(s: State, b: nat)
    requires RegOk(s) && BlkOk(s) && LiveOk(s) && b in s.reg && (forall p | p in s.blk :: s.blk[p].base != b)
    ensures Keeps(s, DropRegion(s, b)) && LiveOk(DropRegion(s, b))
  {
    hide BlkOk, RegOk, CapOf, ListOf, ListSize;
    var t := DropRegion(s, b);
    forall q, a: nat | q in s.live && q <= a < q + s.live[q]
      ensures a in s.mem && a in t.mem && t.mem[a] == s.mem[a]
    {
      LiveAt(s, q);
      PlacedAt(s, q);
      RegAt(s, s.blk[q].base);
      Outside(s, b, q);
    }
  }

  lemma DropRegionInv(s: State, b: nat, x: nat)
    requires InvBut(s, x) && b in s.reg && (forall p | p in s.blk :: s.blk[p].base != b)
    ensures InvBut(DropRegion(s, b), x) && Keeps(s, DropRegion(s, b))
  {
    hide RegOk, BlkOk, LiveOk, ListsOk, LinksOk, Keeps;
    DropRegionRegs(s, b);
    DropRegionLinks(s, b);
    DropRegionKeeps(s, b);
    ListsSizes(s);
  }

  /** The excused region is gone, so nothing is excused. */
  lemma Unexcuse(s: State, b: nat)
    requires InvBut(s, b) && b !in s.reg
    ensures Inv(s)
  {
    hide RegOk, LiveOk, ListsOk, LinksOk, BlkOk, ListSize;
    ListsSizes(s);
    forall p | p in s.blk
      ensures s.blk[p].base != b
    {
      PlacedAt(s, p);
    }
  }

  /* ---- a block changes its asked size, and bytes move ---- */

  function Resize(s: State, p: nat, n: nat): State
  {
    s.(live := s.live[p := n])
  }

  lemma ResizeInv(s: State, p: nat, n: nat)
    requires Inv(s) && p in s.live && n > 0 && ListOf(n) == ListOf(s.live[p]) && CapOf(n) == CapOf(s.live[p])
    ensures Inv(Resize(s, p, n)) && Keeps(s, Resize(s, p, n))
  {
    hide RegOk, ListsOk, LinksOk, Keeps, BlkOk, ListOf, CapOf;
    ResizeLists(s, p, n);
    StoreRegs(s, Resize(s, p, n));
    SameMemKeeps(s, Resize(s, p, n));
  }

  lemma ResizeLists(s: State, p: nat, n: nat)
    requires ListsOk(s) && LinksOk(s) && p in s.live
    ensures ListsOk(Resize(s, p, n)) && LinksOk(Resize(s, p, n))
  {
    hide Threaded;
    forall k | 0 <= k < NLIST
      ensures Listed(Resize(s, p, n), k)
    {
      assert Listed(s, k);
    }
  }

  /* ---- the owner of a block writes to it ---- */

  /** One byte stored. */
  function PutByte(s: State, a: nat, v: nat): State
  {
    s.(mem := s.mem[a := Data(v)])
  }

  lemma PutLinks(s: State, p: nat, a: nat, v: nat)
    requires BlkOk(s) && LiveOk(s) && ListsOk(s) && LinksOk(s) && p in s.live && p <= a < p + s.live[p]
    ensures ListsOk(PutByte(s, a, v)) && LinksOk(PutByte(s, a, v))
  {
    hide BlkOk, ListSize, LiveOk;
    LiveAt(s, p);
    var t := PutByte(s, a, v);
    forall k | 0 <= k < NLIST
      ensures Threaded(t.mem, t.head[k], t.fl[k]) && Listed(t, k)
    {
      assert Listed(s, k);
      assert Threaded(s.mem, s.head[k], s.fl[k]);
      forall r | r in s.fl[k]
        ensures r in t.mem && t.mem[r] == s.mem[r]
      {
        LinkMapped(s, k, r);
        ApartAt(s, r, p);
        PlacedAt(s, r);
      }
      ThreadedElsewhere(s.mem, t.mem, s.head[k], s.fl[k]);
    }
  }

  /** Whoever was given a block may store anywhere in it: the lists still lead where they led, and no other block
      given out changes. */
  lemma PutInv(s: State, p: nat, a: nat, v: nat)
    requires Inv(s) && p in s.live && p <= a < p + s.live[p]
    ensures Inv(PutByte(s, a, v)) && a in s.mem
    ensures forall r, b: nat | r in s.live && r != p && r <= b < r + s.live[r] ::
      b in s.mem && PutByte(s, a, v).mem[b] == s.mem[b]
  {
    hide RegOk, BlkOk, LiveOk, ListsOk, LinksOk, Complete, CapOf, ListOf;
    LiveMapped(s, p);
    PutLinks(s, p, a, v);
    ListsSizes(s);
    var t := PutByte(s, a, v);
    assert t.mem.Keys == s.mem.Keys;
    StoreRegs(s, t);
    SameLive(s, t);
    forall r, b: nat | r in s.live && r != p && r <= b < r + s.live[r]
      ensures b in s.mem && t.mem[b] == s.mem[b]
    {
      LiveMapped(s, r);
      LiveAt(s, p);
      LiveAt(s, r);
      ApartAt(s, r, p);
    }
  }

  function CopyBytes(mem: map<nat, Cell>, p: nat, q: nat, n: nat): map<nat, Cell>
    requires Mapped(mem, p, n)
  {
    map a: nat | a in mem :: if q <= a < q + n then mem[p + (a - q)] else mem[a]
  }

  /** memcpy of n bytes from p to q. */
  function Copy(s: State, p: nat, q: nat, n: nat): State
    requires Mapped(s.mem, p, n)
  {
    s.(mem := CopyBytes(s.mem, p, q, n))
  }

  /** The n bytes at q are what the n bytes at p were. */
  ghost predicate Copied(mem: map<nat, Cell>, t: map<nat, Cell>, p: nat, q: nat, n: nat)
  {
    forall a: nat | q <= a < q + n :: p + (a - q) in mem && a in t && t[a] == mem[p + (a - q)]
  }

  lemma LiveMapped(s: State, p: nat)
    requires InvBut(s, 0) && p in s.live
    ensures Mapped(s.mem, p, s.live[p]) && p in s.blk
  {
    hide LinksOk, Complete, CapOf, ListOf, BlkOk, LiveOk, RegOk, ListsOk;
    LiveAt(s, p);
    PlacedAt(s, p);
    RegAt(s, s.blk[p].base);
  }

  lemma CopyLinks(s: State, p: nat, q: nat, n: nat)
    requires BlkOk(s) && ListsOk(s) && LinksOk(s) && q in s.live && q in s.blk && n <= s.blk[q].size
    requires Mapped(s.mem, p, n)
    ensures ListsOk(Copy(s, p, q, n)) && LinksOk(Copy(s, p, q, n))
  {
    hide BlkOk, ListSize;
    var t := Copy(s, p, q, n);
    forall k | 0 <= k < NLIST
      ensures Threaded(t.mem, t.head[k], t.fl[k]) && Listed(t, k)
    {
      assert Listed(s, k);
      assert Threaded(s.mem, s.head[k], s.fl[k]);
      forall r | r in s.fl[k]
        ensures r in t.mem && t.mem[r] == s.mem[r]
      {
        LinkMapped(s, k, r);
        ApartAt(s, r, q);
        PlacedAt(s, r);
      }
      ThreadedElsewhere(s.mem, t.mem, s.head[k], s.fl[k]);
    }
  }

  lemma SubMapped(mem: map<nat, Cell>, p: nat, m: nat, n: nat)
    requires Mapped(mem, p, m) && n <= m
    ensures Mapped(mem, p, n)
  {}

  lemma CopyCopied(mem: map<nat, Cell>, p: nat, q: nat, n: nat)
    requires Mapped(mem, p, n) && Mapped(mem, q, n)
    ensures Copied(mem, CopyBytes(mem, p, q, n), p, q, n)
  {}

  lemma CopyElsewhere(s: State, p: nat, q: nat, n: nat, r: nat)
    requires Inv(s) && q in s.live && Mapped(s.mem, p, n) && n <= s.live[q] && r in s.live && r != q
    ensures forall a: nat | r <= a < r + s.live[r] :: a in s.mem && CopyBytes(s.mem, p, q, n)[a] == s.mem[a]
  {
    hide RegOk, BlkOk, LiveOk, ListsOk, LinksOk, Complete, CapOf, ListOf;
    LiveMapped(s, q);
    LiveAt(s, q);
    LiveMapped(s, r);
    LiveAt(s, r);
    ApartAt(s, r, q);
  }

  lemma CopyInv(s: State, p: nat, q: nat, n: nat)
    requires Inv(s) && p in s.live && q in s.live && p != q && n <= s.live[p] && n <= s.live[q]
    ensures Mapped(s.mem, p, n) && Mapped(s.mem, q, n)
    ensures Inv(Copy(s, p, q, n))
    ensures Copied(s.mem, Copy(s, p, q, n).mem, p, q, n)
    ensures forall r, a: nat | r in s.live && r != q && r <= a < r + s.live[r] ::
      a in s.mem && Copy(s, p, q, n).mem[a] == s.mem[a]
  {
    hide RegOk, BlkOk, LiveOk, ListsOk, LinksOk, Complete, CapOf, ListOf, Copied;
    LiveMapped(s, p);
    LiveMapped(s, q);
    LiveAt(s, q);
    SubMapped(s.mem, p, s.live[p], n);
    SubMapped(s.mem, q, s.live[q], n);
    CopyCopied(s.mem, p, q, n);
    CopyLinks(s, p, q, n);
    ListsSizes(s);
    var t := Copy(s, p, q, n);
    StoreRegs(s, t);
    SameLive(s, t);
    forall r, a: nat | r in s.live && r != q && r <= a < r + s.live[r]
      ensures a in s.mem && t.mem[a] == s.mem[a]
    {
      CopyElsewhere(s, p, q, n, r);
    }
  }

  lemma SameLive(s: State, t: State)
    requires t.live == s.live && t.blk == s.blk && t.fl == s.fl
    ensures LiveOk(s) ==> LiveOk(t)
    ensures |s.fl| == NLIST && Complete(s, 0) ==> Complete(t, 0)
  {}

  lemma KeepsTrans(s: State, t: State, u: State)
    requires Keeps(s, t) && Keeps(t, u) && t.live == s.live
    ensures Keeps(s, u)
  {}

  /* ---- a region being given back is taken off the lists ---- */

  /** Unlink the j-th block of list k: store its link over the one that led to it. */
  function Unlink(s: State, k: nat, j: nat): State
    requires k < |s.head| && k < |s.fl| && j < |s.fl[k]| && s.fl[k][j] in s.mem && s.mem[s.fl[k][j]].Link?
  {
    var q := s.fl[k];
    var next := s.mem[q[j]].next;
    s.(mem := if j == 0 then s.mem else StorePtr(s.mem, q[j - 1], next),
       head := if j == 0 then s.head[k := next] else s.head,
       fl := s.fl[k := q[..j] + q[j + 1..]])
  }

  lemma LinkAt(s: State, k: nat, j: nat)
    requires |s.head| == NLIST && |s.fl| == NLIST && LinksOk(s) && k < NLIST && j < |s.fl[k]|
    ensures s.fl[k][j] in s.mem && s.mem[s.fl[k][j]] == Link(Next(s.fl[k], j + 1))
  {
    assert Threaded(s.mem, s.head[k], s.fl[k]);
  }

  lemma UnlinkLists(s: State, k: nat, j: nat)
    requires ListsOk(s) && k < NLIST && j < |s.fl[k]| && s.fl[k][j] in s.mem && s.mem[s.fl[k][j]].Link?
    ensures ListsOk(Unlink(s, k, j))
  {
    var t := Unlink(s, k, j);
    var q := s.fl[k];
    forall i | 0 <= i < NLIST
      ensures Listed(t, i)
    {
      assert Listed(s, i);
      if i == k {
        assert forall p | p in t.fl[k] :: p in q;
        forall a, b | 0 <= a < b < |t.fl[k]|
          ensures t.fl[k][a] != t.fl[k][b]
        {
          assert q[if a < j then a else a + 1] != q[if b < j then b else b + 1];
        }
      }
    }
  }

  lemma UnlinkComplete(s: State, k: nat, j: nat, x: nat)
    requires |s.head| == NLIST && |s.fl| == NLIST && Complete(s, x) && k < NLIST && j < |s.fl[k]|
    requires s.fl[k][j] in s.mem && s.mem[s.fl[k][j]].Link? && s.fl[k][j] in s.blk && s.blk[s.fl[k][j]].base == x
    ensures Complete(Unlink(s, k, j), x)
  {
    var t := Unlink(s, k, j);
    var q := s.fl[k];
    forall p | p in q && p != q[j]
      ensures p in t.fl[k]
    {
      var i :| 0 <= i < |q| && q[i] == p;
      assert t.fl[k][if i < j then i else i - 1] == p;
    }
  }

  lemma ThreadedWithout(mem: map<nat, Cell>, t: map<nat, Cell>, h: nat, q: seq<nat>, j: nat)
    requires Threaded(mem, h, q) && 0 < j < |q| && (forall a, b | 0 <= a < b < |q| :: q[a] != q[b])
    requires forall i | 0 <= i < |q| && i != j - 1 :: q[i] in t && (q[i] in mem ==> t[q[i]] == mem[q[i]])
    requires q[j - 1] in t && t[q[j - 1]] == Link(Next(q, j + 1))
    ensures Threaded(t, h, q[..j] + q[j + 1..])
  {
    var r := q[..j] + q[j + 1..];
    forall i: nat | i < |r|
      ensures r[i] in t && t[r[i]] == Link(Next(r, i + 1))
    {
      if i < j - 1 {
        assert r[i] == q[i] && Next(r, i + 1) == Next(q, i + 1);
      } else if i == j - 1 {
        assert Next(r, i + 1) == Next(q, j + 1);
      } else {
        assert r[i] == q[i + 1] && Next(r, i + 1) == Next(q, i + 2);
      }
    }
  }

  lemma UnlinkLinks(s: State, k: nat, j: nat)
    requires RegOk(s) && BlkOk(s) && ListsOk(s) && LinksOk(s) && k < NLIST && j < |s.fl[k]|
    requires s.fl[k][j] in s.mem && s.mem[s.fl[k][j]].Link?
    ensures LinksOk(Unlink(s, k, j))
  {
    hide RegOk, BlkOk, ListsOk, Listed, ListSize;
    ListsSizes(s);
    LinkAt(s, k, j);
    var t := Unlink(s, k, j);
    var q := s.fl[k];
    if j == 0 {
      assert Threaded(s.mem, s.head[k], q);
      assert t.fl[k] == q[1..];
      assert Threaded(t.mem, t.head[k], t.fl[k]);
    } else {
      forall i, r | 0 <= i < NLIST && r in s.fl[i] && r != q[j - 1]
        ensures r in t.mem && t.mem[r] == s.mem[r] && r in s.mem
      {
        LinkMapped(s, i, r);
        ListedAt(s, i, r);
        assert q[j - 1] in q;
        ListedAt(s, k, q[j - 1]);
        PlacedAt(s, r);
        PlacedAt(s, q[j - 1]);
        ApartAt(s, r, q[j - 1]);
      }
      forall i | 0 <= i < NLIST
        ensures Threaded(t.mem, t.head[i], t.fl[i])
      {
        assert Threaded(s.mem, s.head[i], s.fl[i]);
        if i == k {
          ListDistinct(s, k);
          LinkAt(s, k, j - 1);
          ThreadedWithout(s.mem, t.mem, s.head[k], q, j);
        } else {
          ListsApart(s, i, k, q[j - 1]);
          ThreadedElsewhere(s.mem, t.mem, s.head[i], s.fl[i]);
        }
      }
    }
  }

  lemma ListDistinct(s: State, k: nat)
    requires ListsOk(s) && k < NLIST
    ensures forall a, b | 0 <= a < b < |s.fl[k]| :: s.fl[k][a] != s.fl[k][b]
  {
    assert Listed(s, k);
  }

  lemma ListsApart(s: State, i: nat, k: nat, p: nat)
    requires ListsOk(s) && i < NLIST && k < NLIST && i != k && p in s.fl[k]
    ensures p !in s.fl[i]
  {
    assert Listed(s, i) && Listed(s, k);
  }

  lemma UnlinkInv(s: State, k: nat, j: nat, x: nat)
    requires InvBut(s, x) && k < NLIST && j < |s.fl[k]| && s.fl[k][j] in s.blk && s.blk[s.fl[k][j]].base == x
    ensures s.fl[k][j] in s.mem && s.mem[s.fl[k][j]].Link?
    ensures InvBut(Unlink(s, k, j), x) && Keeps(s, Unlink(s, k, j))
  {
    hide RegOk, BlkOk, LiveOk, ListsOk, LinksOk, Complete, Keeps, Placed;
    ListsSizes(s);
    LinkAt(s, k, j);
    UnlinkLists(s, k, j);
    UnlinkLinks(s, k, j);
    UnlinkComplete(s, k, j, x);
    var t := Unlink(s, k, j);
    StoreRegs(s, t);
    SameLiveOk(s, t);
    if j == 0 {
      SameMemKeeps(s, t);
    } else {
      assert s.fl[k][j - 1] in s.fl[k];
      ListedAt(s, k, s.fl[k][j - 1]);
      StoreKeeps(s, t, s.fl[k][j - 1]);
    }
  }

  lemma SameLiveOk(s: State, t: State)
    requires t.live == s.live && t.blk == s.blk
    ensures LiveOk(s) ==> LiveOk(t)
  {}

  function Others(blk: map<nat, Blk>, b: nat): map<nat, Blk>
  {
    map p | p in blk && blk[p].base != b :: blk[p]
  }

  /** Forget every block of region b. */
  ghost function Purge(s: State, b: nat): State
  {
    s.(blk := Others(s.blk, b))
  }

  lemma PurgeInv(s: State, b: nat)
    requires InvBut(s, b)
    requires forall p | p in s.live :: p in s.blk ==> s.blk[p].base != b
    requires ListsOk(s) && forall k, p | 0 <= k < NLIST && p in s.fl[k] && p in s.blk :: s.blk[p].base != b
    ensures InvBut(Purge(s, b), b) && Keeps(s, Purge(s, b))
  {
    hide RegOk, BlkOk, LinksOk, Keeps, Placed, Threaded, CapOf, ListOf;
    var t := Purge(s, b);
    forall k | 0 <= k < NLIST
      ensures Listed(t, k)
    {
      assert Listed(s, k);
    }
    PurgeLinks(s, b);
    FewerBlks(s, t);
    SameMemKeeps(s, t);
  }

  lemma PurgeLinks(s: State, b: nat)
    requires |s.head| == NLIST && |s.fl| == NLIST && LinksOk(s)
    ensures LinksOk(Purge(s, b))
  {}

  /** Excusing a region only weakens the invariant. */
  lemma Excuse(s: State, b: nat)
    requires Inv(s)
    ensures InvBut(s, b)
  {
    hide RegOk, BlkOk, LiveOk, LinksOk, Placed, Listed;
    forall p | p in s.blk
      ensures s.blk[p].base != 0
    {
      PlacedAt(s, p);
      PlacedBase(s, p);
    }
  }

  lemma PlacedBase(s: State, p: nat)
    requires RegOk(s) && p in s.blk && Placed(s, p)
    ensures s.blk[p].base in s.reg && s.blk[p].base > 0
  {}
}
