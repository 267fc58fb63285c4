/** The memory a Lua heap manages, as the allocator sees it: mapped regions, blocks cut out of them, blocks
    handed out, and free lists whose links live in the free blocks' own first words.

    Regions are what the chunk source gave: a chunk, cut into many small blocks, or a large block's own.
    Lists 0..13 are the small classes; lists 14..141 are the large cache's buckets. */
module HeapState {
  const ALIGN: nat := 8
  const CLASSES: seq<nat> := [16, 24, 32, 40, 48, 56, 64, 80, 96, 128, 192, 256, 384, 512]
  const NCLASS: nat := 14
  const LARGE_GRAIN: nat := 512
  const LARGE_MAXSIZE: nat := 65536
  const NLARGECLASS: nat := 128
  const NLIST: nat := 142
  const LARGE_HEADER: nat := 16
  const CHUNK_HEADER: nat := 32

  /* ---- sizes ---- */

  function ClassFrom(n: nat, i: nat): (r: nat)
    requires i <= NCLASS
    ensures i <= r <= NCLASS
    ensures r < NCLASS ==> n <= CLASSES[r]
    ensures forall j | i <= j < r :: CLASSES[j] < n
    decreases NCLASS - i
  {
    if i == NCLASS || n <= CLASSES[i] then i else ClassFrom(n, i + 1)
  }

  function Width(k: nat): (r: nat)
    requires k < NCLASS
    ensures 16 <= r <= 512 && r % ALIGN == 0
  {
    CLASSES[k]
  }

  /** The smallest class that fits, or NCLASS. */
  function ClassOf(n: nat): nat
  {
    ClassFrom(n, 0)
  }

  function RoundUp(n: nat, a: nat): (r: nat)
    requires a == ALIGN || a == LARGE_GRAIN
    ensures n <= r < n + a && r % a == 0
  {
    RoundBounds(n, a);
    if a == 8 then (n + 7) / 8 * 8 else (n + 511) / 512 * 512
  }

  lemma RoundBounds(n: nat, a: nat)
    requires a == ALIGN || a == LARGE_GRAIN
    ensures a == 8 ==> n <= (n + 7) / 8 * 8 < n + 8 && (n + 7) / 8 * 8 % a == 0
    ensures a != 8 ==> n <= (n + 511) / 512 * 512 < n + 512 && (n + 511) / 512 * 512 % a == 0
  {
    if a == 8 {
      assert (n + 7) / 8 * 8 % 8 == 0;
    } else {
      assert (n + 511) / 512 * 512 % 512 == 0;
    }
  }

  function LargeWant(need: nat): (r: nat)
    ensures need <= r && r % ALIGN == 0
    ensures need <= LARGE_MAXSIZE ==> r <= LARGE_MAXSIZE && r % LARGE_GRAIN == 0
    ensures need > LARGE_MAXSIZE ==> r > LARGE_MAXSIZE
  {
    if need > LARGE_MAXSIZE then RoundUp(need, ALIGN) else RoundUp(need, LARGE_GRAIN)
  }

  function LargeClassOf(want: nat): (r: nat)
    ensures r <= NLARGECLASS
    ensures r < NLARGECLASS ==> want == (r + 1) * LARGE_GRAIN
  {
    if want == 0 || want > LARGE_MAXSIZE || want % LARGE_GRAIN != 0 then NLARGECLASS else want / LARGE_GRAIN - 1
  }

  /** The list a block handed out for n bytes goes back to; NLIST for one too big to keep. */
  function ListOf(n: nat): (r: nat)
    ensures r <= NLIST && (n <= 512 <==> r < NCLASS)
  {
    if n <= 512 then ClassOf(n) else NCLASS + LargeClassOf(LargeWant(n + LARGE_HEADER))
  }

  /** The bytes a block handed out for n bytes really has. */
  function CapOf(n: nat): (r: nat)
    ensures n <= r && 8 <= r && r % ALIGN == 0
  {
    if n <= 512 then Width(ClassOf(n)) else LargeWant(n + LARGE_HEADER) - LARGE_HEADER
  }

  /** The bytes every block of list k has. */
  function ListSize(k: nat): (r: nat)
    requires k < NLIST
    ensures r >= 16 && r % ALIGN == 0
  {
    if k < NCLASS then Width(k) else (k - NCLASS + 1) * LARGE_GRAIN - LARGE_HEADER
  }

  lemma CapOfList(n: nat)
    requires ListOf(n) < NLIST
    ensures CapOf(n) == ListSize(ListOf(n))
  {}

  lemma ClassSize(k: nat)
    requires k < NCLASS
    ensures ClassOf(CLASSES[k]) == k && ListOf(CLASSES[k]) == k && CapOf(CLASSES[k]) == CLASSES[k]
  {
    assert forall j | 0 <= j < k :: CLASSES[j] < CLASSES[k];
  }

  /* ---- state ---- */

  /** One byte of memory: what somebody wrote there, or the start of a free-list link. */
  datatype Cell = Data(v: nat) | Link(next: nat)

  /** A block: its bytes, its list, and the region it was cut from. */
  datatype Blk = Blk(size: nat, list: nat, base: nat)

  datatype State = State(
    mem: map<nat, Cell>,       // every mapped byte
    reg: map<nat, nat>,        // regions, with their sizes
    blk: map<nat, Blk>,        // every block ever cut and not given back
    live: map<nat, nat>,       // blocks handed out, with the size asked for
    head: seq<nat>,            // list heads, 0 for none
    fl: seq<seq<nat>>          // the lists the heads lead to
  )

  ghost predicate Apart(p: nat, n: nat, q: nat, m: nat)
  {
    p + n <= q || q + m <= p
  }

  ghost predicate Mapped(mem: map<nat, Cell>, p: nat, n: nat)
  {
    forall a: nat | p <= a < p + n :: a in mem
  }

  ghost predicate RegOk(s: State)
  {
    && (forall b | b in s.reg :: 0 < b && b % ALIGN == 0 && 0 < s.reg[b] && Mapped(s.mem, b, s.reg[b]))
    && (forall b, c | b in s.reg && c in s.reg && b != c :: Apart(b, s.reg[b], c, s.reg[c]))
  }

  /** Block p lies inside its region, past the header, and has its list's size. */
  ghost predicate Placed(s: State, p: nat)
    requires p in s.blk
  {
    var k := s.blk[p];
    && k.base in s.reg && k.base + LARGE_HEADER <= p && p + k.size <= k.base + s.reg[k.base]
    && p % ALIGN == 0 && 8 <= k.size && k.list <= NLIST && (k.list < NLIST ==> k.size == ListSize(k.list))
  }

  ghost predicate BlkOk(s: State)
  {
    && (forall p | p in s.blk :: Placed(s, p))
    && (forall p, q | p in s.blk && q in s.blk && p != q :: Apart(p, s.blk[p].size, q, s.blk[q].size))
  }

  ghost predicate LiveOk(s: State)
  {
    forall p | p in s.live ::
      p in s.blk && 0 < s.live[p] && s.blk[p].size == CapOf(s.live[p]) && s.blk[p].list == ListOf(s.live[p])
  }

  ghost function Next(q: seq<nat>, j: nat): nat
  {
    if j < |q| then q[j] else 0
  }

  /** Following links from h visits q and ends. */
  ghost predicate Threaded(mem: map<nat, Cell>, h: nat, q: seq<nat>)
  {
    h == Next(q, 0) && forall j: nat | j < |q| :: q[j] in mem && mem[q[j]] == Link(Next(q, j + 1))
  }

  ghost predicate Listed(s: State, k: nat)
    requires k < |s.fl|
  {
    && (forall i, j | 0 <= i < j < |s.fl[k]| :: s.fl[k][i] != s.fl[k][j])
    && (forall p | p in s.fl[k] :: p in s.blk && s.blk[p].list == k && p !in s.live)
  }

  ghost predicate ListsOk(s: State)
  {
    |s.head| == NLIST && |s.fl| == NLIST && forall k | 0 <= k < NLIST :: Listed(s, k)
  }

  ghost predicate LinksOk(s: State)
    requires |s.head| == NLIST && |s.fl| == NLIST
  {
    forall k | 0 <= k < NLIST :: Threaded(s.mem, s.head[k], s.fl[k])
  }

  /** Every block is handed out or on its list; a region being taken apart (x) is excused. */
  ghost predicate Complete(s: State, x: nat)
    requires |s.fl| == NLIST
  {
    forall p | p in s.blk && s.blk[p].base != x :: p in s.live || (s.blk[p].list < NLIST && p in s.fl[s.blk[p].list])
  }

  ghost predicate InvBut(s: State, x: nat)
  {
    RegOk(s) && BlkOk(s) && LiveOk(s) && ListsOk(s) && LinksOk(s) && Complete(s, x)
  }

  /** No region starts at 0. */
  ghost predicate Inv(s: State)
  {
    InvBut(s, 0)
  }

  /** The bytes of every block handed out in both states are the same. */
  ghost predicate Keeps(s: State, t: State)
  {
    forall p, a: nat | p in s.live && p in t.live && p <= a < p + s.live[p] && a < p + t.live[p] ::
      a in s.mem && a in t.mem && t.mem[a] == s.mem[a]
  }

  /* ---- what every state satisfying the invariant promises ---- */

  /** Blocks handed out are aligned, mapped, apart from each other and from everything listed. */
  lemma Safe(s: State, p: nat)
    requires Inv(s) && p in s.live
    ensures p % ALIGN == 0 && Mapped(s.mem, p, s.live[p])
    ensures forall q | q in s.live && q != p :: Apart(p, s.live[p], q, s.live[q])
    ensures forall k, q | 0 <= k < NLIST && q in s.fl[k] :: q in s.blk && Apart(p, s.live[p], q, s.blk[q].size)
  {
    hide LinksOk, Complete, CapOf, ListOf, BlkOk, LiveOk, RegOk, Listed;
    LiveAt(s, p);
    PlacedAt(s, p);
    RegAt(s, s.blk[p].base);
    forall q | q in s.live && q != p
      ensures Apart(p, s.live[p], q, s.live[q])
    {
      LiveAt(s, q);
      ApartAt(s, p, q);
    }
    forall k, q | 0 <= k < NLIST && q in s.fl[k]
      ensures q in s.blk && Apart(p, s.live[p], q, s.blk[q].size)
    {
      ListedAt(s, k, q);
      ApartAt(s, p, q);
    }
  }

  lemma LiveAt(s: State, p: nat)
    requires LiveOk(s) && p in s.live
    ensures p in s.blk && 0 < s.live[p] <= s.blk[p].size && s.blk[p].size == CapOf(s.live[p])
    ensures s.blk[p].list == ListOf(s.live[p])
  {}

  lemma PlacedAt(s: State, p: nat)
    requires BlkOk(s) && p in s.blk
    ensures Placed(s, p)
  {}

  lemma ApartAt(s: State, p: nat, q: nat)
    requires BlkOk(s) && p in s.blk && q in s.blk && p != q
    ensures Apart(p, s.blk[p].size, q, s.blk[q].size)
  {}

  lemma RegAt(s: State, b: nat)
    requires RegOk(s) && b in s.reg
    ensures 0 < b && b % ALIGN == 0 && 0 < s.reg[b] && Mapped(s.mem, b, s.reg[b])
  {}

  lemma ListedAt(s: State, k: nat, p: nat)
    requires ListsOk(s) && k < NLIST && p in s.fl[k]
    ensures p in s.blk && s.blk[p].list == k && p !in s.live
  {
    assert Listed(s, k);
  }
}
