/** What the reader takes off the ring is what the writer put on it, whole and in order, however the two interleave. */
module RingProofs {
  import opened Ring

  /* ---- four bytes ---- */

  /** Any number comes back as its 32-bit word. */
  lemma GetPut(v: int)
    ensures Get(Put(v)) == Word(v)
  {
    var b := Put(v);
    var q1, q2, q3, q4 := v / 256, v / 0x1_0000, v / 0x100_0000, v / 0x1_0000_0000;
    assert v == 256 * q1 + b[0];
    assert q1 / 256 == q2 && q2 / 256 == q3 && q3 / 256 == q4;
    assert q1 == 256 * q2 + b[1] && q2 == 256 * q3 + b[2] && q3 == 256 * q4 + b[3];
    assert v == 0x1_0000_0000 * q4 + b[0] + 256 * b[1] + 0x1_0000 * b[2] + 0x100_0000 * b[3];
    WordIs(v, Get(b), if b[3] < 128 then q4 else q4 + 1);
  }

  lemma WordIs(v: int, w: int, q: int)
    requires v == 0x1_0000_0000 * q + w && -0x8000_0000 <= w < 0x8000_0000
    ensures Word(v) == w
  {}

  lemma EncParts(r: Record)
    ensures Enc(r)[..4] == Put(r.kind) && Enc(r)[4..8] == Put(r.id) && Enc(r)[8..12] == Put(|r.bytes|)
    ensures Enc(r)[12..] == r.bytes
  {}

  /** A record read whole is the record written. */
  lemma DecEnc(r: Record)
    requires |r.bytes| < LIMIT
    ensures Dec(Enc(r)) == Seen(r) && Length(Enc(r)) == |r.bytes|
  {
    hide Enc, Put, Get, Word;
    EncParts(r);
    WordIs(|r.bytes|, |r.bytes|, 0);
    GetPut(r.kind);
    GetPut(r.id);
    GetPut(|r.bytes|);
  }

  /** The header alone says how long the record is. */
  lemma WholeExactly(r: Record, got: seq<Byte>)
    requires |r.bytes| < LIMIT && got <= Enc(r)
    ensures Whole(got) <==> got == Enc(r)
  {
    hide Enc, Get;
    DecEnc(r);
    if |got| >= 12 {
      assert got[8..12] == Enc(r)[8..12];
      if |got| == |Enc(r)| {
        assert got == Enc(r);
      }
    }
  }

  /* ---- the stream ---- */

  lemma StreamAdd(rs: seq<Record>, r: Record)
    ensures Stream(rs + [r]) == Stream(rs) + Enc(r)
  {
    assert (rs + [r])[..|rs|] == rs;
  }

  lemma {:induction false} StreamPrefix(rs: seq<Record>, n: nat)
    requires n <= |rs|
    ensures Stream(rs[..n]) <= Stream(rs)
    decreases |rs|
  {
    if n < |rs| {
      assert rs[..|rs| - 1][..n] == rs[..n];
      StreamPrefix(rs[..|rs| - 1], n);
    } else {
      assert rs[..n] == rs;
    }
  }

  lemma TakeOne(rs: seq<Record>, n: nat)
    requires n < |rs|
    ensures rs[..n + 1] == rs[..n] + [rs[n]]
  {}

  /** The n-th record's bytes stand in the stream after those before it. */
  lemma StreamAt(rs: seq<Record>, n: nat)
    requires n < |rs|
    ensures Stream(rs[..n + 1]) == Stream(rs[..n]) + Enc(rs[n]) && Stream(rs[..n + 1]) <= Stream(rs)
  {
    hide Stream, Enc;
    StreamPrefix(rs, n + 1);
    TakeOne(rs, n);
    StreamAdd(rs[..n], rs[n]);
  }

  /* ---- places in the ring ---- */

  /** Positions less than a ring apart are different places. */
  lemma Places(p: int, q: int, cap: int)
    requires 0 < cap && p < q < p + cap
    ensures Place(p, cap) != Place(q, cap)
  {
    var a, b := p / cap, q / cap;
    assert p == cap * a + p % cap && q == cap * b + q % cap;
    Apart(a, b, cap);
  }

  lemma Apart(a: int, b: int, cap: int)
    requires 0 < cap
    ensures !(0 < cap * b - cap * a < cap)
  {
    assert cap * b - cap * a == cap * (b - a);
    if b - a >= 1 {
      Scale(cap, 1, b - a);
    } else {
      Scale(cap, b - a, 0);
    }
  }

  lemma Scale(cap: int, x: int, y: int)
    requires 0 < cap && x <= y
    ensures cap * x <= cap * y
  {}

  /** Storing at a position ahead of the reader by less than a ring leaves every place in between alone. */
  lemma StoreElsewhere(s: State, p: int, v: Byte, lo: int)
    requires |s.mem| == s.cap && 0 < s.cap && p < lo + s.cap
    ensures forall q | lo <= q < p :: s.mem[Place(p, s.cap) := v][Place(q, s.cap)] == s.mem[Place(q, s.cap)]
  {
    forall q | lo <= q < p
      ensures s.mem[Place(p, s.cap) := v][Place(q, s.cap)] == s.mem[Place(q, s.cap)]
    {
      Places(q, p, s.cap);
    }
  }

  /* ---- the writer's steps ---- */

  lemma WriteTestInv(s: State, t: State)
    requires Inv(s) && Step(s, WriteTest, t)
    ensures Inv(t)
  {
    hide Stream, Enc, Place;
  }

  lemma WriteByteInv(s: State, t: State)
    requires Inv(s) && Step(s, WriteByte, t)
    ensures Inv(t)
  {
    hide Stream, Enc, Place;
    var rec, w, i := s.writer.rec, s.writer.w, s.writer.i;
    var e := Enc(rec);
    StoreElsewhere(s, w + i, e[i], s.rpos);
    forall p | t.rpos <= p < t.wpos
      ensures t.mem[Place(p, t.cap)] == Stream(t.accepted)[p]
    {
      assert s.mem[Place(p, s.cap)] == Stream(s.accepted)[p];
    }
    forall p | w <= p < w + i + 1
      ensures t.mem[Place(p, t.cap)] == e[p - w]
    {
      if p < w + i {
        assert s.mem[Place(p, s.cap)] == e[p - w];
      }
    }
  }

  lemma WritePublishInv(s: State, t: State)
    requires Inv(s) && Step(s, WritePublish, t) && InRange(t)
    ensures Inv(t)
  {
    hide Stream, Enc, Place;
    var rec, w := s.writer.rec, s.writer.w;
    StreamAdd(s.accepted, rec);
    WordIs(w + |Enc(rec)|, w + |Enc(rec)|, 0);
    var n := |s.received|;
    assert t.accepted[..n] == s.accepted[..n];
    forall p | t.rpos <= p < t.wpos
      ensures t.mem[Place(p, t.cap)] == Stream(t.accepted)[p]
    {
      if p < s.wpos {
        assert s.mem[Place(p, s.cap)] == Stream(s.accepted)[p];
      } else {
        assert s.mem[Place(p, s.cap)] == Enc(rec)[p - w];
      }
    }
  }

  /* ---- the reader's steps ---- */

  /** A reader with anything to read has a whole record in front of it. */
  lemma RecordThere(s: State)
    requires Shape(s) && s.rpos < s.wpos
    ensures |s.received| < |s.accepted|
    ensures var e := Enc(s.accepted[|s.received|]); s.rpos + |e| <= s.wpos && |e| < LIMIT
    ensures var e := Enc(s.accepted[|s.received|]); forall k | 0 <= k < |e| :: Stream(s.accepted)[s.rpos + k] == e[k]
  {
    hide Stream, Enc, Place;
    var n := |s.received|;
    assert n < |s.accepted| by {
      assert s.accepted[..|s.accepted|] == s.accepted;
    }
    StreamAt(s.accepted, n);
  }

  lemma ReadTestInv(s: State, t: State)
    requires Inv(s) && Step(s, ReadTest, t)
    ensures Inv(t)
  {
    hide Stream, Enc, Place;
    if s.reader.w - s.rpos >= 12 {
      RecordThere(s);
    }
  }

  lemma StreamNonempty(s: State)
    requires Inv(s) && s.reader.RCopy?
    ensures s.rpos < s.wpos
  {
    hide Stream, Enc, Place;
    StreamAt(s.accepted, |s.received|);
  }

  lemma ReadByteInv(s: State, t: State)
    requires Inv(s) && Step(s, ReadByte, t)
    ensures Inv(t)
  {
    hide Stream, Enc, Place;
    var r, got := s.reader.r, s.reader.got;
    StreamNonempty(s);
    RecordThere(s);
    var rec := s.accepted[|s.received|];
    WholeExactly(rec, got);
    var p := r + |got|;
    assert |got| < |Enc(rec)|;
    assert s.mem[Place(p, s.cap)] == Stream(s.accepted)[p];
    assert Stream(s.accepted)[s.rpos + |got|] == Enc(rec)[|got|];
  }

  /** What is read is the next record accepted, whole. */
  lemma ReadFinishGets(s: State, t: State)
    requires Inv(s) && Step(s, ReadFinish, t)
    ensures |s.received| < |s.accepted|
    ensures var rec := s.accepted[|s.received|];
      && s.rpos + |Enc(rec)| <= s.wpos
      && t == s.(rpos := s.rpos + |Enc(rec)|, reader := RIdle, received := s.received + [Seen(rec)])
  {
    hide Stream, Enc, Place, Data, WriterOk;
    var got := s.reader.got;
    StreamNonempty(s);
    RecordThere(s);
    var rec := s.accepted[|s.received|];
    WholeExactly(rec, got);
    DecEnc(rec);
    WordIs(s.rpos + |got|, s.rpos + |got|, 0);
  }

  lemma ReadFinishInv(s: State, t: State)
    requires Inv(s) && Step(s, ReadFinish, t)
    ensures Inv(t) && |s.received| < |s.accepted| && t.received == s.received + [Seen(s.accepted[|s.received|])]
  {
    hide Stream, Enc, Place, Step, Seen;
    ReadFinishGets(s, t);
    ReadFinishShape(s, t);
    if t.writer.WCopy? {
      assert WriterOk(s);
    }
  }

  /** The positions, once the record read is given back. */
  lemma ReadFinishShape(s: State, t: State)
    requires Shape(s) && |s.received| < |s.accepted| && s.rpos + |Enc(s.accepted[|s.received|])| <= s.wpos
    requires t == s.(rpos := s.rpos + |Enc(s.accepted[|s.received|])|, reader := RIdle,
                     received := s.received + [Seen(s.accepted[|s.received|])])
    ensures Shape(t)
  {
    hide Enc, Stream, Seen;
    StreamAt(s.accepted, |s.received|);
  }

  lemma StepInv(s: State, a: Action, t: State)
    requires Inv(s) && Step(s, a, t) && InRange(t)
    ensures Inv(t)
  {
    hide Stream, Enc, Place;
    match a
    case WriteLoad(_) =>
    case WriteTest => WriteTestInv(s, t);
    case WriteByte => WriteByteInv(s, t);
    case WritePublish => WritePublishInv(s, t);
    case ReadLoad =>
    case ReadTest => ReadTestInv(s, t);
    case ReadByte => ReadByteInv(s, t);
    case ReadFinish => ReadFinishInv(s, t);
  }

  lemma {:induction false} RunGrows(s: State, acts: seq<Action>, t: State)
    requires Runs(s, acts, t)
    ensures |Stream(s.accepted)| <= |Stream(t.accepted)|
    decreases |acts|
  {
    if acts != [] {
      var m :| Step(s, acts[0], m) && Runs(m, acts[1..], t);
      if acts[0] == WritePublish {
        StreamAdd(s.accepted, s.writer.rec);
      }
      RunGrows(m, acts[1..], t);
    }
  }

  lemma {:induction false} RunInv(s: State, acts: seq<Action>, t: State)
    requires Inv(s) && Runs(s, acts, t) && InRange(t)
    ensures Inv(t)
    decreases |acts|
  {
    hide Inv, Step;
    if acts != [] {
      var m :| Step(s, acts[0], m) && Runs(m, acts[1..], t);
      RunGrows(m, acts[1..], t);
      StepInv(s, acts[0], m);
      RunInv(m, acts[1..], t);
    }
  }

  /** Some run leads here, and no more bytes have been accepted than positions can count. */
  ghost predicate Reachable(t: State)
  {
    InRange(t) && exists s, acts :: Init(s) && Runs(s, acts, t)
  }

  lemma ReachableInv(t: State)
    requires Reachable(t)
    ensures Inv(t)
  {
    hide Inv;
    var s, acts :| Init(s) && Runs(s, acts, t);
    InitInv(s);
    RunInv(s, acts, t);
  }

  lemma InvRange(s: State)
    requires Inv(s)
    ensures InRange(s) && 0 <= s.rpos <= s.wpos < LIMIT && s.wpos == |Stream(s.accepted)|
    ensures s.writer.WCopy? ==> s.writer.w == s.wpos
    ensures s.reader.RCopy? ==> s.reader.r == s.rpos
  {}

  lemma InitInv(s: State)
    requires Init(s)
    ensures Inv(s)
  {}

  /* ---- what the two sides can rely on ---- */

  /** The records received are the first of the records accepted, each as it was written. */
  lemma ReceivedPrefix(t: State)
    requires Reachable(t)
    ensures |t.received| <= |t.accepted| && forall k | 0 <= k < |t.received| :: t.received[k] == Seen(t.accepted[k])
  {
    ReachableInv(t);
  }

  /** No byte of a record is read before it is published, or after it is overwritten: what has been read of it
      is always the beginning of the next record accepted. */
  lemma NeverTorn(t: State)
    requires Reachable(t) && t.reader.RCopy?
    ensures |t.received| < |t.accepted| && t.reader.got <= Enc(t.accepted[|t.received|])
    ensures Whole(t.reader.got) <==> t.reader.got == Enc(t.accepted[|t.received|])
  {
    hide Stream, Enc, Place;
    ReachableInv(t);
    StreamNonempty(t);
    RecordThere(t);
    WholeExactly(t.accepted[|t.received|], t.reader.got);
  }

  /** The writer never stores into a byte the reader has yet to give back, and the reader is never left short. */
  lemma StoreIsFree(t: State)
    requires Reachable(t) && t.writer.WCopy? && t.writer.i < |Enc(t.writer.rec)|
    ensures 0 < t.cap
    ensures forall p | t.rpos <= p < t.wpos :: Place(p, t.cap) != Place(t.writer.w + t.writer.i, t.cap)
  {
    hide Stream, Enc, Place;
    ReachableInv(t);
    forall p | t.rpos <= p < t.wpos
      ensures Place(p, t.cap) != Place(t.writer.w + t.writer.i, t.cap)
    {
      Places(p, t.writer.w + t.writer.i, t.cap);
    }
  }

  /** A read that starts after every record was taken finds none, and only then. */
  lemma EmptyExactly(t: State)
    requires Reachable(t)
    ensures t.wpos - t.rpos < 12 <==> |t.received| == |t.accepted|
  {
    hide Stream, Enc, Place;
    ReachableInv(t);
    var n := |t.received|;
    if n < |t.accepted| {
      StreamAt(t.accepted, n);
    } else {
      assert t.accepted[..n] == t.accepted;
    }
  }

  /** A write refused leaves the memory, the positions and both histories as they were; it is refused
      only when the record and what is not yet read do not fit together. */
  lemma RefusedWhole(s: State, t: State)
    requires Reachable(s) && Step(s, WriteTest, t) && t.writer == WIdle
    ensures t == s.(writer := WIdle)
    ensures s.wpos - s.rpos + |Enc(s.writer.rec)| > s.cap
  {
    ReachableInv(s);
  }

  /* ---- why positions must stay below the limit ---- */

  /** The words the positions are stored in are as far apart as the positions exactly when they have wrapped
      as often. */
  lemma WordsExact(w: int, r: int)
    ensures Word(w) - Word(r) == w - r <==> (w + LIMIT) / 0x1_0000_0000 == (r + LIMIT) / 0x1_0000_0000
  {
    var a, b := (w + LIMIT) / 0x1_0000_0000, (r + LIMIT) / 0x1_0000_0000;
    assert w + LIMIT == 0x1_0000_0000 * a + (w + LIMIT) % 0x1_0000_0000;
    assert r + LIMIT == 0x1_0000_0000 * b + (r + LIMIT) % 0x1_0000_0000;
  }

  /** Once the writer has passed the limit and the reader has not, whatever the ring's size: the reader sees nothing,
      and no record the ring could ever hold is refused. */
  lemma PastTheLimit(cap: int, w: int, r: int, rec: Record)
    requires 0 < cap < LIMIT && 0 <= r < LIMIT <= w <= r + cap && |rec.bytes| <= cap
    ensures Word(w) - Word(r) < 12 && Fits(cap, Word(w), Word(r), rec)
  {
    WordIs(w, w - 0x1_0000_0000, 1);
    WordIs(r, r, 0);
  }

  /** From a ring in order, a record published leaves the reader's test for an empty ring right if and only if the
      bytes accepted are still below the limit. */
  lemma TestRightIff(s: State, t: State)
    requires Inv(s) && Step(s, WritePublish, t) && s.cap < LIMIT
    ensures (t.wpos - t.rpos < 12 <==> |t.received| == |t.accepted|) <==> InRange(t)
  {
    hide Data, ReaderOk, Enc, Stream;
    var rec := s.writer.rec;
    StreamAdd(s.accepted, rec);
    if InRange(t) {
      WordIs(s.wpos + |Enc(rec)|, s.wpos + |Enc(rec)|, 0);
    } else {
      PastTheLimit(s.cap, s.wpos + |Enc(rec)|, s.rpos, rec);
      WordIs(s.rpos, s.rpos, 0);
    }
  }

  /* ---- a run that gets there ---- */

  lemma {:induction false} RunsTrans(s: State, a: seq<Action>, t: State, b: seq<Action>, u: State)
    requires Runs(s, a, t) && Runs(t, b, u)
    ensures Runs(s, a + b, u)
    decreases |a|
  {
    hide Step;
    if a == [] {
      assert a + b == b;
    } else {
      var m :| Step(s, a[0], m) && Runs(m, a[1..], t);
      RunsTrans(m, a[1..], t, b, u);
      assert (a + b)[1..] == a[1..] + b;
    }
  }

  lemma RunsStep(s: State, a: Action, t: State)
    requires Step(s, a, t)
    ensures Runs(s, [a], t)
  {
    hide Step;
    assert Runs(t, [a][1..], t);
  }

  /** A writer that found room gets to the end of its record. */
  lemma {:induction false} CopyOut(s: State) returns (acts: seq<Action>, t: State)
    requires Inv(s) && s.writer.WCopy? && InRange(s)
    ensures Runs(s, acts, t) && Inv(t)
    ensures t == s.(mem := t.mem, writer := WCopy(s.writer.rec, s.writer.w, |Enc(s.writer.rec)|))
    decreases |Enc(s.writer.rec)| - s.writer.i
  {
    hide Stream, Enc, Place;
    var e := Enc(s.writer.rec);
    if s.writer.i == |e| {
      acts, t := [], s;
    } else {
      var m := s.(mem := s.mem[Place(s.writer.w + s.writer.i, s.cap) := e[s.writer.i]],
                  writer := s.writer.(i := s.writer.i + 1));
      WriteByteInv(s, m);
      var rest, u := CopyOut(m);
      RunsStep(s, WriteByte, m);
      RunsTrans(s, [WriteByte], m, rest, u);
      acts, t := [WriteByte] + rest, u;
    }
  }

  /** A write into an empty ring with both sides idle, up to publishing. */
  lemma WriteUp(s: State, rec: Record) returns (acts: seq<Action>, t: State)
    requires Inv(s) && InRange(s) && s.writer == WIdle && Fits(s.cap, s.wpos, s.rpos, rec)
    ensures Runs(s, acts, t) && Inv(t) && t == s.(mem := t.mem, writer := WCopy(rec, s.wpos, |Enc(rec)|))
  {
    hide Stream, Enc, Place, Runs;
    var s1 := s.(writer := WLoaded(rec, s.wpos));
    RunsStep(s, WriteLoad(rec), s1);
    var s2 := s.(writer := WCopy(rec, s.wpos, 0));
    WriteTestInv(s1, s2);
    RunsStep(s1, WriteTest, s2);
    RunsTrans(s, [WriteLoad(rec)], s1, [WriteTest], s2);
    var rest, u := CopyOut(s2);
    RunsTrans(s, [WriteLoad(rec)] + [WriteTest], s2, rest, u);
    acts, t := [WriteLoad(rec)] + [WriteTest] + rest, u;
  }

  /** A reader that has begun on a record gets to the end of it. */
  lemma {:induction false} CopyIn(s: State) returns (acts: seq<Action>, t: State)
    requires Inv(s) && s.reader.RCopy? && InRange(s)
    ensures Runs(s, acts, t) && Inv(t) && |s.received| < |s.accepted|
    ensures t == s.(reader := RCopy(s.rpos, Enc(s.accepted[|s.received|])))
    decreases |Enc(s.accepted[|s.received|])| - |s.reader.got|
  {
    hide Stream, Enc, Place;
    StreamNonempty(s);
    RecordThere(s);
    var rec := s.accepted[|s.received|];
    WholeExactly(rec, s.reader.got);
    if Whole(s.reader.got) {
      acts, t := [], s;
    } else {
      var m := s.(reader := s.reader.(got := s.reader.got + [s.mem[Place(s.reader.r + |s.reader.got|, s.cap)]]));
      ReadByteInv(s, m);
      var rest, u := CopyIn(m);
      RunsStep(s, ReadByte, m);
      RunsTrans(s, [ReadByte], m, rest, u);
      acts, t := [ReadByte] + rest, u;
    }
  }

  ghost predicate Rest(s: State)
  {
    Inv(s) && InRange(s) && s.writer == WIdle && s.reader == RIdle
  }

  /** A read of a record that is waiting, up to finishing. */
  lemma ReadUp(s: State) returns (acts: seq<Action>, t: State)
    requires Inv(s) && InRange(s) && s.reader == RIdle && |s.received| < |s.accepted|
    ensures Runs(s, acts, t) && Inv(t) && t == s.(reader := RCopy(s.rpos, Enc(s.accepted[|s.received|])))
  {
    hide Stream, Enc, Place, Runs;
    StreamAt(s.accepted, |s.received|);
    var s1 := s.(reader := RLoaded(s.wpos));
    RunsStep(s, ReadLoad, s1);
    var s2 := s.(reader := RCopy(s.rpos, []));
    ReadTestInv(s1, s2);
    RunsStep(s1, ReadTest, s2);
    RunsTrans(s, [ReadLoad], s1, [ReadTest], s2);
    var rest, u := CopyIn(s2);
    RunsTrans(s, [ReadLoad] + [ReadTest], s2, rest, u);
    acts, t := [ReadLoad] + [ReadTest] + rest, u;
  }

  lemma ReadIsWhole(s: State)
    requires Inv(s) && s.reader.RCopy? && |s.received| < |s.accepted| && s.reader.got == Enc(s.accepted[|s.received|])
    ensures Whole(s.reader.got)
  {
    hide Stream, Enc, Place;
    StreamNonempty(s);
    RecordThere(s);
    WholeExactly(s.accepted[|s.received|], s.reader.got);
  }

  /** A record waiting is taken. */
  lemma ReadOne(s: State) returns (acts: seq<Action>, t: State)
    requires Rest(s) && |s.received| < |s.accepted|
    ensures Runs(s, acts, t) && Rest(t) && t.accepted == s.accepted && |t.received| == |s.received| + 1
    ensures t.cap == s.cap
  {
    hide Stream, Enc, Place, Runs, Inv, Dec;
    var a, u := ReadUp(s);
    var got := u.reader.got;
    ReadIsWhole(u);
    t := u.(rpos := Word(u.rpos + |got|), reader := RIdle, received := u.received + [Dec(got)]);
    RunsStep(u, ReadFinish, t);
    ReadFinishInv(u, t);
    RunsTrans(s, a, u, [ReadFinish], t);
    acts := a + [ReadFinish];
  }

  /** The smallest record: a header and nothing else. */
  const BARE := Record(0, 0, [])

  /** A bare record written into an empty ring and read out again. */
  lemma Round(s: State) returns (acts: seq<Action>, t: State)
    requires Rest(s) && 12 <= s.cap && |s.received| == |s.accepted| && |Stream(s.accepted)| + 12 < LIMIT
    ensures Runs(s, acts, t) && Rest(t) && t.cap == s.cap && |t.received| == |t.accepted|
    ensures |Stream(t.accepted)| == |Stream(s.accepted)| + 12
  {
    hide Stream, Enc, Place, Runs, Inv;
    AllRead(s);
    var a, u := WriteUp(s, BARE);
    var v := u.(wpos := Word(u.writer.w + |Enc(BARE)|), writer := WIdle, accepted := u.accepted + [BARE]);
    StreamAdd(u.accepted, BARE);
    RunsStep(u, WritePublish, v);
    WritePublishInv(u, v);
    RunsTrans(s, a, u, [WritePublish], v);
    var b, w := ReadOne(v);
    RunsTrans(s, a + [WritePublish], v, b, w);
    acts, t := a + [WritePublish] + b, w;
  }

  lemma AllRead(s: State)
    requires Inv(s) && |s.received| == |s.accepted|
    ensures s.wpos == s.rpos == |Stream(s.accepted)|
  {
    assert s.accepted[..|s.received|] == s.accepted;
  }

  lemma {:induction false} ManyRounds(s: State, n: nat) returns (acts: seq<Action>, t: State)
    requires Rest(s) && 12 <= s.cap && |s.received| == |s.accepted| && |Stream(s.accepted)| + 12 * n < LIMIT
    ensures Runs(s, acts, t) && Rest(t) && t.cap == s.cap && |t.received| == |t.accepted|
    ensures |Stream(t.accepted)| == |Stream(s.accepted)| + 12 * n
    decreases n
  {
    hide Stream, Rest;
    if n == 0 {
      acts, t := [], s;
    } else {
      var a, u := Round(s);
      var b, w := ManyRounds(u, n - 1);
      RunsTrans(s, a, u, b, w);
      acts, t := a + b, w;
    }
  }

  /** Every ring that holds a header at all has a run in which a record is accepted and then never seen: its bytes take
      the position past the limit, and the reader finds the ring empty. */
  lemma LimitReached(cap: nat, mem: seq<Byte>) returns (s: State, acts: seq<Action>, t: State)
    requires 12 <= cap == |mem|
    ensures Init(s) && s.cap == cap && Runs(s, acts, t)
    ensures |t.received| < |t.accepted| && t.reader == RIdle && t.wpos - t.rpos < 12
  {
    hide Stream, Enc, Place, Runs, Inv;
    s := State(cap, mem, 0, 0, WIdle, RIdle, [], []);
    InitInv(s);
    assert Stream([]) == [] by { StreamNone(); }
    var n := 178956970;
    assert 12 * n == LIMIT - 8;
    var a, m := ManyRounds(s, n);
    AllRead(m);
    var b, u := WriteUp(m, BARE);
    var w := u.writer.w + |Enc(BARE)|;
    t := u.(wpos := Word(w), writer := WIdle, accepted := u.accepted + [BARE]);
    RunsStep(u, WritePublish, t);
    RunsTrans(s, a, m, b, u);
    RunsTrans(s, a + b, u, [WritePublish], t);
    WordIs(w, w - 0x1_0000_0000, 1);
    acts := a + b + [WritePublish];
  }

  lemma StreamNone()
    ensures Stream([]) == []
  {}
}
