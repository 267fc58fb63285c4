/** Messages between procs: Lua values to bytes and back. What a value looks like on the wire, what the writer
    accepts, and what the reader makes of any bytes. */
module Wire {
  const MAXDEPTH: nat := 16
  const MAXMSG: nat := 65536
  const MAXMSGRIGHTS: nat := 32
  const MAXMSGBUFS: nat := 4

  type byte = x: int | 0 <= x < 256
  type u16 = x: int | 0 <= x < 0x1_0000
  type u64 = x: int | 0 <= x < 0x1_0000_0000_0000_0000
  type i64 = x: int | -0x8000_0000_0000_0000 <= x < 0x8000_0000_0000_0000

  /** A Lua value, as far as a message is concerned. */
  datatype Value =
    | Nil
    | Bool(b: bool)
    | Int(i: i64)
    | Num(bits: u64)                       // a float, by its bits
    | Str(s: seq<byte>)
    | Bytes(s: seq<byte>)                  // a bare byte buffer: copied, arrives as a string
    | Table(pairs: Pairs)                  // in the order lua_next gives
    | Right(h: int)                        // {__right = h}
    | Buf(handle: nat, s: seq<byte>)       // {__buf = b}: the bytes are given away
    | Unsendable                           // a function, other userdata, a malformed __right or __buf

  datatype Pairs = End | Pair(k: Value, v: Value, rest: Pairs)

  /** What a right names on the wire. */
  datatype Cap = Cap(port: u16, recv: bool)

  type Rights = map<int, Cap>

  function Count(ps: Pairs): nat
  {
    if ps == End then 0 else 1 + Count(ps.rest)
  }

  ghost function Size(v: Value): nat
  {
    match v
    case Table(ps) => 1 + SizePairs(ps)
    case _ => 1
  }

  ghost function SizePairs(ps: Pairs): nat
  {
    match ps
    case End => 0
    case Pair(k, v, rest) => 1 + Size(k) + Size(v) + SizePairs(rest)
  }

  /** How many levels of table are inside v. */
  function Depth(v: Value): nat
  {
    match v
    case Table(ps) => DepthPairs(ps)
    case _ => 0
  }

  function Max(a: nat, b: nat): nat { if a < b then b else a }

  function DepthPairs(ps: Pairs): nat
  {
    match ps
    case End => 0
    case Pair(k, v, rest) => Max(1 + Max(Depth(k), Depth(v)), DepthPairs(rest))
  }

  /* ---- numbers as bytes ---- */

  function Bound(k: nat): (r: nat)
    ensures r >= 1
  {
    if k == 0 then 1 else 256 * Bound(k - 1)
  }

  /** The low k bytes of n, least first. */
  function Le(n: nat, k: nat): (r: seq<byte>)
    ensures |r| == k
  {
    if k == 0 then [] else [n % 256] + Le(n / 256, k - 1)
  }

  function UnLe(s: seq<byte>): (r: nat)
    ensures r < Bound(|s|)
  {
    if s == [] then 0 else s[0] + 256 * UnLe(s[1..])
  }

  lemma {:induction false} LeRound(n: nat, k: nat)
    requires n < Bound(k)
    ensures UnLe(Le(n, k)) == n
    decreases k
  {
    if k > 0 {
      assert Le(n, k)[1..] == Le(n / 256, k - 1);
      LeRound(n / 256, k - 1);
    }
  }

  function Unsigned(i: i64): u64
  {
    if i < 0 then i + 0x1_0000_0000_0000_0000 else i
  }

  function Signed(u: u64): i64
  {
    if u >= 0x8000_0000_0000_0000 then u - 0x1_0000_0000_0000_0000 else u
  }

  /* ---- the wire format ---- */

  function Refs(v: Value, tab: Rights): seq<Cap>
  {
    match v
    case Table(ps) => RefsPairs(ps, tab)
    case Right(h) => if h in tab then [tab[h]] else []
    case _ => []
  }

  function RefsPairs(ps: Pairs, tab: Rights): seq<Cap>
  {
    match ps
    case End => []
    case Pair(k, v, rest) => Refs(k, tab) + Refs(v, tab) + RefsPairs(rest, tab)
  }

  /** The buffers given away: handle and bytes. */
  function Bufs(v: Value): seq<(nat, seq<byte>)>
  {
    match v
    case Table(ps) => BufsPairs(ps)
    case Buf(handle, s) => [(handle, s)]
    case _ => []
  }

  function BufsPairs(ps: Pairs): seq<(nat, seq<byte>)>
  {
    match ps
    case End => []
    case Pair(k, v, rest) => Bufs(k) + Bufs(v) + BufsPairs(rest)
  }

  /** The bytes of v, after nb buffers have been given away. */
  function Encoding(v: Value, tab: Rights, nb: nat): seq<byte>
  {
    match v
    case Nil => [78]
    case Bool(b) => [if b then 84 else 70]
    case Int(i) => [73] + Le(Unsigned(i), 8)
    case Num(bits) => [68] + Le(bits, 8)
    case Str(s) => [83] + Le(|s|, 4) + s
    case Bytes(s) => [83] + Le(|s|, 4) + s
    case Table(ps) => [66] + Le(Count(ps), 4) + EncodingPairs(ps, tab, nb)
    case Right(h) => if h in tab then [82] + Le(tab[h].port, 2) + [if tab[h].recv then 1 else 0] else []
    case Buf(_, _) => [77, nb % 256]
    case Unsendable => []
  }

  function EncodingPairs(ps: Pairs, tab: Rights, nb: nat): seq<byte>
  {
    match ps
    case End => []
    case Pair(k, v, rest) =>
      Encoding(k, tab, nb) + Encoding(v, tab, nb + |Bufs(k)|) + EncodingPairs(rest, tab, nb + |Bufs(k)| + |Bufs(v)|)
  }

  /** Nothing in v is refused outright: every right is one the sender holds. */
  predicate Clean(v: Value, tab: Rights)
  {
    match v
    case Table(ps) => CleanPairs(ps, tab)
    case Right(h) => h in tab
    case Unsendable => false
    case _ => true
  }

  predicate CleanPairs(ps: Pairs, tab: Rights)
  {
    match ps
    case End => true
    case Pair(k, v, rest) => Clean(k, tab) && Clean(v, tab) && CleanPairs(rest, tab)
  }

  /* ---- what serialize does ---- */

  datatype Out = Out(data: seq<byte>, refs: seq<Cap>, bufs: seq<(nat, seq<byte>)>)

  datatype Sent = Sent(ok: bool, w: Out)

  function Put(w: Out, bs: seq<byte>): Sent
  {
    if |w.data| + |bs| > MAXMSG then Sent(false, w) else Sent(true, w.(data := w.data + bs))
  }

  function Put2(w: Out, a: seq<byte>, b: seq<byte>): Sent
  {
    var r := Put(w, a);
    if r.ok then Put(r.w, b) else r
  }

  function Put3(w: Out, a: seq<byte>, b: seq<byte>, c: seq<byte>): Sent
  {
    var r := Put2(w, a, b);
    if r.ok then Put(r.w, c) else r
  }

  predicate Given(bufs: seq<(nat, seq<byte>)>, handle: nat)
  {
    exists j :: 0 <= j < |bufs| && bufs[j].0 == handle
  }

  /** serialize, step by step: on failure, w is as far as it got. */
  function Enc(w: Out, v: Value, tab: Rights, depth: nat): Sent
    decreases v
  {
    if depth > MAXDEPTH then Sent(false, w) else
    match v
    case Nil => Put(w, [78])
    case Bool(b) => Put(w, [if b then 84 else 70])
    case Int(i) => Put2(w, [73], Le(Unsigned(i), 8))
    case Num(bits) => Put2(w, [68], Le(bits, 8))
    case Str(s) => Put3(w, [83], Le(|s|, 4), s)
    case Bytes(s) => Put3(w, [83], Le(|s|, 4), s)
    case Right(h) =>
      if h !in tab || |w.refs| >= MAXMSGRIGHTS then Sent(false, w) else
        var r := Put3(w, [82], Le(tab[h].port, 2), [if tab[h].recv then 1 else 0]);
        if r.ok then Sent(true, r.w.(refs := r.w.refs + [tab[h]])) else r
    case Buf(handle, s) =>
      if |w.bufs| >= MAXMSGBUFS || Given(w.bufs, handle) then Sent(false, w) else
        var r := Put2(w, [77], [|w.bufs| % 256]);
        if r.ok then Sent(true, r.w.(bufs := r.w.bufs + [(handle, s)])) else r
    case Table(ps) =>
      var at := |w.data|;
      var r := Put2(w, [66], Le(0, 4));
      if !r.ok then r else
        var t := EncPairs(r.w, ps, tab, depth + 1);
        if !t.ok then t else Sent(true, t.w.(data := Patch(t.w.data, at + 1, Le(Count(ps), 4))))
    case Unsendable => Sent(false, w)
  }

  function EncPairs(w: Out, ps: Pairs, tab: Rights, depth: nat): Sent
    decreases ps
  {
    match ps
    case End => Sent(true, w)
    case Pair(k, v, rest) =>
      var a := Enc(w, k, tab, depth);
      if !a.ok then a else
        var b := Enc(a.w, v, tab, depth);
        if !b.ok then b else EncPairs(b.w, rest, tab, depth)
  }

  /** s with the bytes from i on written over. */
  function Patch(s: seq<byte>, i: nat, bs: seq<byte>): (r: seq<byte>)
    ensures |r| == |s|
  {
    if i + |bs| <= |s| then s[..i] + bs + s[i + |bs|..] else s
  }

  predicate Distinct(bufs: seq<(nat, seq<byte>)>)
  {
    forall i, j | 0 <= i < j < |bufs| :: bufs[i].0 != bufs[j].0
  }

  /** v may follow w: shallow enough, all its own to give, and within every limit. */
  predicate Fits(w: Out, v: Value, tab: Rights, depth: nat)
  {
    && depth + Depth(v) <= MAXDEPTH && Clean(v, tab)
    && |w.refs| + |Refs(v, tab)| <= MAXMSGRIGHTS && |w.bufs| + |Bufs(v)| <= MAXMSGBUFS && Distinct(w.bufs + Bufs(v))
    && |w.data| + |Encoding(v, tab, |w.bufs|)| <= MAXMSG
  }

  predicate FitsPairs(w: Out, ps: Pairs, tab: Rights, depth: nat)
  {
    && (ps == End || depth - 1 + DepthPairs(ps) <= MAXDEPTH) && CleanPairs(ps, tab)
    && |w.refs| + |RefsPairs(ps, tab)| <= MAXMSGRIGHTS && |w.bufs| + |BufsPairs(ps)| <= MAXMSGBUFS
    && Distinct(w.bufs + BufsPairs(ps))
    && |w.data| + |EncodingPairs(ps, tab, |w.bufs|)| <= MAXMSG
  }

  ghost function After(w: Out, v: Value, tab: Rights): Out
  {
    Out(w.data + Encoding(v, tab, |w.bufs|), w.refs + Refs(v, tab), w.bufs + Bufs(v))
  }

  ghost function AfterPairs(w: Out, ps: Pairs, tab: Rights): Out
  {
    Out(w.data + EncodingPairs(ps, tab, |w.bufs|), w.refs + RefsPairs(ps, tab), w.bufs + BufsPairs(ps))
  }

  /** Room already taken stays within the limits. */
  predicate Sane(w: Out)
  {
    |w.data| <= MAXMSG && |w.refs| <= MAXMSGRIGHTS && |w.bufs| <= MAXMSGBUFS && Distinct(w.bufs)
  }
}
