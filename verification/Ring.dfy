/** The shared byte ring: one writer and one reader, each a sequence of single loads, stores and bytes. */
module Ring {
  type Byte = x: int | 0 <= x < 256

  /** Positions are kept in signed 32-bit words, which are the positions themselves below this. */
  const LIMIT: int := 0x8000_0000

  datatype Record = Record(kind: int, id: int, bytes: seq<Byte>)

  /* ---- records as bytes ---- */

  /** A number as the four bytes put stores. */
  function Put(v: int): (b: seq<Byte>)
    ensures |b| == 4
  {
    [v % 256, (v / 256) % 256, (v / 0x1_0000) % 256, (v / 0x100_0000) % 256]
  }

  /** What get makes of four bytes: the top one carries the sign. */
  function Get(b: seq<Byte>): int
    requires |b| == 4
  {
    var b0: int, b1: int, b2: int, b3: int := b[0], b[1], b[2], b[3];
    b0 + 256 * b1 + 0x1_0000 * b2 + 0x100_0000 * (if b3 < 128 then b3 else b3 - 256)
  }

  /** A number as a signed 32-bit word. */
  function Word(v: int): int
  {
    (v + 0x8000_0000) % 0x1_0000_0000 - 0x8000_0000
  }

  function Enc(r: Record): (b: seq<Byte>)
    ensures |b| == 12 + |r.bytes|
  {
    Put(r.kind) + Put(r.id) + Put(|r.bytes|) + r.bytes
  }

  function Length(b: seq<Byte>): int
    requires |b| >= 12
  {
    Get(b[8..12])
  }

  function Dec(b: seq<Byte>): Record
    requires |b| >= 12
  {
    Record(Get(b[..4]), Get(b[4..8]), b[12..])
  }

  /** A record as the other side sees it: its kind and id are 32-bit words. */
  function Seen(r: Record): Record
  {
    r.(kind := Word(r.kind), id := Word(r.id))
  }

  /** Every record in turn, as the bytes a position counts. */
  function Stream(rs: seq<Record>): seq<Byte>
  {
    if rs == [] then [] else Stream(rs[..|rs| - 1]) + Enc(rs[|rs| - 1])
  }

  /* ---- the two sides ---- */

  /** The byte a position falls on. */
  function Place(p: int, cap: int): (i: nat)
    requires 0 < cap
    ensures i < cap
  {
    p % cap
  }

  datatype Writer =
    | WIdle
    | WLoaded(rec: Record, w: int)             // has loaded its own position
    | WCopy(rec: Record, w: int, i: nat)       // has found room and stored i bytes

  datatype Reader =
    | RIdle
    | RLoaded(w: int)                          // has loaded the writer's position
    | RCopy(r: int, got: seq<Byte>)            // has loaded its own position and read some bytes

  datatype State = State(cap: nat, mem: seq<Byte>, wpos: int, rpos: int, writer: Writer, reader: Reader,
                         accepted: seq<Record>, received: seq<Record>)

  datatype Action =
    | WriteLoad(rec: Record) | WriteTest | WriteByte | WritePublish
    | ReadLoad | ReadTest | ReadByte | ReadFinish

  predicate Fits(cap: int, w: int, r: int, rec: Record)
  {
    12 + |rec.bytes| <= cap - (w - r)
  }

  /** The reader has the whole record: the header says how long it is. */
  predicate Whole(got: seq<Byte>)
  {
    |got| >= 12 && |got| >= 12 + Length(got)
  }

  /** One load, one store or one byte, by whichever side moves next. A position is stored as its word. */
  ghost predicate Step(s: State, a: Action, t: State)
  {
    match a
    case WriteLoad(rec) =>
      s.writer == WIdle && t == s.(writer := WLoaded(rec, s.wpos))
    case WriteTest =>
      && s.writer.WLoaded?
      && t == s.(writer := if Fits(s.cap, s.writer.w, s.rpos, s.writer.rec) then WCopy(s.writer.rec, s.writer.w, 0)
                           else WIdle)
    case WriteByte =>
      && s.writer.WCopy? && s.writer.i < |Enc(s.writer.rec)| && 0 < s.cap == |s.mem| && 0 <= s.writer.w
      && t == s.(mem := s.mem[Place(s.writer.w + s.writer.i, s.cap) := Enc(s.writer.rec)[s.writer.i]],
                 writer := s.writer.(i := s.writer.i + 1))
    case WritePublish =>
      && s.writer.WCopy? && s.writer.i == |Enc(s.writer.rec)|
      && t == s.(wpos := Word(s.writer.w + |Enc(s.writer.rec)|), writer := WIdle,
                 accepted := s.accepted + [s.writer.rec])
    case ReadLoad =>
      s.reader == RIdle && t == s.(reader := RLoaded(s.wpos))
    case ReadTest =>
      s.reader.RLoaded? && t == s.(reader := if s.reader.w - s.rpos < 12 then RIdle else RCopy(s.rpos, []))
    case ReadByte =>
      && s.reader.RCopy? && !Whole(s.reader.got) && 0 < s.cap == |s.mem| && 0 <= s.reader.r
      && t == s.(reader := s.reader.(got := s.reader.got + [s.mem[Place(s.reader.r + |s.reader.got|, s.cap)]]))
    case ReadFinish =>
      && s.reader.RCopy? && Whole(s.reader.got)
      && t == s.(rpos := Word(s.reader.r + |s.reader.got|), reader := RIdle,
                 received := s.received + [Dec(s.reader.got)])
  }

  /** An empty ring over memory holding anything at all. */
  ghost predicate Init(s: State)
  {
    && |s.mem| == s.cap && s.wpos == s.rpos == 0 && s.writer == WIdle && s.reader == RIdle
    && s.accepted == [] && s.received == []
  }

  /** The bytes accepted so far, which positions count, are still below the limit. */
  ghost predicate InRange(s: State)
  {
    |Stream(s.accepted)| < LIMIT
  }

  /* ---- the invariant ---- */

  ghost predicate Shape(s: State)
  {
    && |s.mem| == s.cap
    && s.wpos == |Stream(s.accepted)| < LIMIT
    && |s.received| <= |s.accepted|
    && s.rpos == |Stream(s.accepted[..|s.received|])|
    && s.rpos <= s.wpos <= s.rpos + s.cap
    && (forall k | 0 <= k < |s.received| :: s.received[k] == Seen(s.accepted[k]))
  }

  /** Between the positions the memory holds the stream. */
  ghost predicate Data(s: State)
    requires Shape(s)
  {
    forall p | s.rpos <= p < s.wpos :: s.mem[Place(p, s.cap)] == Stream(s.accepted)[p]
  }

  ghost predicate WriterOk(s: State)
    requires Shape(s)
  {
    match s.writer
    case WIdle => true
    case WLoaded(rec, w) => w == s.wpos
    case WCopy(rec, w, i) =>
      && w == s.wpos && i <= |Enc(rec)| && w + |Enc(rec)| <= s.rpos + s.cap
      && forall p | w <= p < w + i :: s.mem[Place(p, s.cap)] == Enc(rec)[p - w]
  }

  ghost predicate ReaderOk(s: State)
    requires Shape(s)
  {
    match s.reader
    case RIdle => true
    case RLoaded(w) => w <= s.wpos
    case RCopy(r, got) => r == s.rpos && |s.received| < |s.accepted| && got <= Enc(s.accepted[|s.received|])
  }

  ghost predicate Inv(s: State)
  {
    Shape(s) && Data(s) && WriterOk(s) && ReaderOk(s)
  }

  ghost predicate Runs(s: State, acts: seq<Action>, t: State)
    decreases |acts|
  {
    if acts == [] then t == s else exists m :: Step(s, acts[0], m) && Runs(m, acts[1..], t)
  }
}
