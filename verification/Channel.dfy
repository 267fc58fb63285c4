/** A channel between the threads of one proc, and the park tokens its sleepers rely on. */
module Channel {
  import opened Options

  /** A value on offer: a parked sender's, or one deposited for a receiver already woken (co is None). */
  datatype Offer = Offer(v: nat, co: Option<nat>, id: nat)

  /** Where a thread is in recv or send on this channel. Registering and parking are two steps. */
  datatype Phase =
    | Run
    | RecvReg              // on recvq, about to park
    | RecvParked           // yielded
    | RecvBack             // resumed, about to look again
    | SendReg(id: nat)
    | SendParked(id: nat)
    | SendBack(id: nat)

  datatype State = State(
    cap: nat,
    buf: seq<nat>,
    sendq: seq<Offer>,
    recvq: seq<nat>,
    closed: bool,
    done: set<nat>,            // offers taken
    parked: set<nat>, woken: set<nat>, wake: set<nat>,
    ring: seq<nat>,            // threads to resume, in turn; a thread may be there more than once
    ph: map<nat, Phase>,
    nextId: nat,
    accepted: seq<nat>,        // every value taken on and not dropped by a close, in order
    got: seq<nat>              // every value received, in order
  )

  function Values(q: seq<Offer>): seq<nat>
  {
    seq(|q|, i requires 0 <= i < |q| => q[i].v)
  }

  lemma ValuesAdd(q: seq<Offer>, r: seq<Offer>)
    ensures Values(q + r) == Values(q) + Values(r)
  {}

  /* ---- waking ---- */

  /** ready: off the parked set, or a token for a thread not parked yet. */
  function Ready(s: State, t: nat): State
  {
    if t in s.parked then s.(parked := s.parked - {t}, wake := s.wake + {t})
    else s.(woken := s.woken + {t}, wake := s.wake + {t})
  }

  function Members(q: seq<nat>): set<nat>
  {
    set t | t in q
  }

  /** wakercv: every receiver off the queue and readied. */
  function WakeReceivers(s: State): State
  {
    var ts := Members(s.recvq);
    s.(recvq := [], parked := s.parked - ts, woken := s.woken + (ts - s.parked), wake := s.wake + ts)
  }

  /* ---- the operations ---- */

  /** nbsend: into the buffer if there is room, across to a waiting receiver if there is no buffer, else refused. */
  predicate Room(s: State)
  {
    |s.buf| < s.cap || (s.cap == 0 && s.recvq != [])
  }

  function NbSend(s: State, v: nat): State
    requires Room(s)
  {
    var r := if |s.buf| < s.cap then s.(buf := s.buf + [v])
             else s.(sendq := s.sendq + [Offer(v, None, s.nextId)], nextId := s.nextId + 1);
    WakeReceivers(r.(accepted := s.accepted + [v]))
  }

  /** send, once nbsend has refused: on the queue, and any receiver woken. */
  function SendRegister(s: State, t: nat, v: nat): State
  {
    WakeReceivers(s.(sendq := s.sendq + [Offer(v, Some(t), s.nextId)], nextId := s.nextId + 1,
                     ph := s.ph[t := SendReg(s.nextId)], accepted := s.accepted + [v]))
  }

  /** The sender at the head of the queue has been served. */
  function Serve(s: State, o: Offer): State
  {
    var r := s.(done := s.done + {o.id});
    if o.co.Some? then Ready(r, o.co.value) else r
  }

  predicate Something(s: State)
  {
    s.buf != [] || s.sendq != []
  }

  /** nbrecv when there is something: the oldest value; a waiting sender's takes its place in the buffer. */
  function NbRecv(s: State): State
    requires Something(s)
  {
    if s.buf != [] then
      var r := s.(buf := s.buf[1..], got := s.got + [s.buf[0]]);
      if s.sendq == [] then r else Serve(r.(buf := r.buf + [s.sendq[0].v], sendq := s.sendq[1..]), s.sendq[0])
    else
      Serve(s.(sendq := s.sendq[1..], got := s.got + [s.sendq[0].v]), s.sendq[0])
  }

  /** recv, once nbrecv has found nothing. */
  function RecvRegister(s: State, t: nat): State
  {
    s.(recvq := s.recvq + [t], ph := s.ph[t := RecvReg])
  }

  /** Offers nobody is parked on. */
  function Deposits(q: seq<Offer>): seq<Offer>
  {
    if q == [] then [] else (if q[0].co == None then [q[0]] else []) + Deposits(q[1..])
  }

  function Senders(q: seq<Offer>): set<nat>
  {
    set i | 0 <= i < |q| && q[i].co.Some? :: q[i].co.value
  }

  /** close: parked senders dropped and readied, deposits kept, receivers woken. */
  function Close(s: State): State
  {
    if s.closed then s else
      var ts := Senders(s.sendq);
      var keep := Deposits(s.sendq);
      WakeReceivers(s.(closed := true, sendq := keep, parked := s.parked - ts, woken := s.woken + (ts - s.parked),
                       wake := s.wake + ts,
                       accepted := s.got + s.buf + Values(keep)))
  }

  /** parkon_begin: a token is consumed instead of sleeping. */
  function Park(s: State, t: nat): State
    requires t in s.ph && (s.ph[t].RecvReg? || s.ph[t].SendReg?)
  {
    var p := s.ph[t];
    if t in s.woken then s.(woken := s.woken - {t}, ph := s.ph[t := if p.RecvReg? then RecvBack else SendBack(p.id)])
    else s.(parked := s.parked + {t}, ph := s.ph[t := if p.RecvReg? then RecvParked else SendParked(p.id)])
  }

  /** drain_wake: the threads staged go to the back of the ring, in whatever order the table gives them. */
  predicate Lists(order: seq<nat>, ts: set<nat>)
  {
    (forall t | t in order :: t in ts) && (forall t | t in ts :: t in order)
  }

  function Drain(s: State, order: seq<nat>): State
  {
    s.(wake := {}, ring := s.ring + order)
  }

  /** pop and resume_one: whatever is first in the ring runs, parked or not. */
  function Resume(s: State): State
    requires s.ring != []
  {
    var t := s.ring[0];
    var r := s.(ring := s.ring[1..]);
    if t !in s.ph then r
    else match s.ph[t]
      case RecvParked => r.(ph := s.ph[t := RecvBack])
      case SendParked(id) => r.(ph := s.ph[t := SendBack(id)])
      case _ => r
  }

  function Without(q: seq<nat>, t: nat): seq<nat>
  {
    if q == [] then [] else if q[0] == t then q[1..] else [q[0]] + Without(q[1..], t)
  }

  /** chanrecv_k: clear the mark, unlink the waiter, look again. */
  function RecvAgain(s: State, t: nat): State
  {
    s.(parked := s.parked - {t}, recvq := Without(s.recvq, t), ph := s.ph[t := Run])
  }

  /** chansend_k: served, or refused by a close; otherwise park again. */
  function SendAgain(s: State, t: nat): State
    requires t in s.ph && s.ph[t].SendBack?
  {
    var id := s.ph[t].id;
    var r := s.(parked := s.parked - {t});
    if id in s.done || s.closed then r.(ph := s.ph[t := Run]) else r.(ph := s.ph[t := SendReg(id)])
  }

  /* ---- the invariant ---- */

  ghost predicate Distinct(q: seq<nat>)
  {
    forall i, j | 0 <= i < j < |q| :: q[i] != q[j]
  }

  /** First in, first out: what was accepted is what was received, then the buffer, then the queue. */
  ghost predicate InOrder(s: State)
  {
    s.accepted == s.got + s.buf + Values(s.sendq)
  }

  ghost predicate Full(s: State)
  {
    |s.buf| <= s.cap && (s.sendq != [] ==> |s.buf| == s.cap)
  }

  /** Nobody waits to receive what is there, or on a closed channel. */
  ghost predicate Quiet(s: State)
  {
    s.recvq != [] ==> s.buf == [] && s.sendq == [] && !s.closed
  }

  /** The thread is somewhere in a send of this offer. */
  predicate Sending(p: Phase, id: nat)
  {
    p == SendReg(id) || p == SendParked(id) || p == SendBack(id)
  }

  /** A deposit is only ever at the head; ids are fresh; a closed channel has no sender queued. */
  ghost predicate Offers(s: State)
  {
    && (forall i | 0 <= i < |s.sendq| ::
          s.sendq[i].id < s.nextId && s.sendq[i].id !in s.done && (s.sendq[i].co == None ==> i == 0))
    && (forall i, j | 0 <= i < j < |s.sendq| :: s.sendq[i].id != s.sendq[j].id)
    && (forall id | id in s.done :: id < s.nextId)
    && (forall i | 0 <= i < |s.sendq| && s.sendq[i].co.Some? ::
          !s.closed && s.sendq[i].co.value in s.ph && Sending(s.ph[s.sendq[i].co.value], s.sendq[i].id))
  }

  ghost predicate Waiters(s: State)
  {
    && Distinct(s.recvq)
    && forall t | t in s.recvq :: t in s.ph && (s.ph[t] == RecvReg || s.ph[t] == RecvParked || s.ph[t] == RecvBack)
  }

  ghost predicate OnQueue(s: State, t: nat, id: nat)
  {
    exists i :: 0 <= i < |s.sendq| && s.sendq[i] == Offer(s.sendq[i].v, Some(t), id)
  }

  /** The send of this offer is over: its value was taken, or the channel closed on it. */
  predicate Settled(s: State, id: nat)
  {
    id in s.done || s.closed
  }

  /** The run loop is going to resume it. */
  predicate Staged(s: State, t: nat)
  {
    t in s.wake || t in s.ring
  }

  /** What each thread can count on: asleep, it is on its queue; off its queue, it has been or will be run again. */
  ghost predicate ThreadOk(s: State, t: nat)
    requires t in s.ph
  {
    match s.ph[t]
    case Run => t !in s.parked
    case RecvReg => t !in s.parked && (t in s.recvq || t in s.woken)
    case RecvParked => if t in s.parked then t in s.recvq else Staged(s, t)
    case RecvBack => true
    case SendReg(id) => t !in s.parked && (OnQueue(s, t, id) || (t in s.woken && Settled(s, id)))
    case SendParked(id) =>
      if t in s.parked then OnQueue(s, t, id) else Staged(s, t) && (OnQueue(s, t, id) || Settled(s, id))
    case SendBack(id) => OnQueue(s, t, id) || Settled(s, id)
  }

  ghost predicate Threads(s: State)
  {
    forall t | t in s.ph :: ThreadOk(s, t)
  }

  ghost predicate Inv(s: State)
  {
    InOrder(s) && Full(s) && Quiet(s) && Offers(s) && Waiters(s) && Threads(s)
  }

  /* ---- runs ---- */

  /** A fresh channel of the given capacity, no thread using it. */
  function Fresh(cap: nat): State
  {
    State(cap, [], [], [], false, {}, {}, {}, {}, [], map[], 0, [], [])
  }

  /** One uninterrupted stretch of one thread or of the run loop, or a wake from outside the channel. */
  datatype Event =
    | Begin(t: nat)
    | TrySend(v: nat)
    | SendPark(t: nat, v: nat)
    | TryRecv
    | RecvPark(t: nat)
    | Shut
    | Sleep(t: nat)
    | Staging(order: seq<nat>)
    | Turn
    | Again(t: nat)
    | RecvOn(t: nat)
    | SendOn(t: nat)
    | Stray(t: nat)

  predicate Enabled(s: State, e: Event)
  {
    match e
    case Begin(t) => t !in s.ph && t !in s.parked
    case TrySend(v) => !s.closed && Room(s)
    case SendPark(t, v) => t in s.ph && s.ph[t] == Run && !s.closed && !Room(s)
    case TryRecv => Something(s)
    case RecvPark(t) => t in s.ph && s.ph[t] == Run && !Something(s) && !s.closed
    case Shut => true
    case Sleep(t) => t in s.ph && (s.ph[t].RecvReg? || s.ph[t].SendReg?)
    case Staging(order) => Lists(order, s.wake)
    case Turn => s.ring != []
    case Again(t) => true
    case RecvOn(t) => t in s.ph && s.ph[t] == RecvBack
    case SendOn(t) => t in s.ph && s.ph[t].SendBack?
    case Stray(t) => true
  }

  function Do(s: State, e: Event): State
    requires Enabled(s, e)
  {
    match e
    case Begin(t) => s.(ph := s.ph[t := Run])
    case TrySend(v) => NbSend(s, v)
    case SendPark(t, v) => SendRegister(s, t, v)
    case TryRecv => NbRecv(s)
    case RecvPark(t) => RecvRegister(s, t)
    case Shut => Close(s)
    case Sleep(t) => Park(s, t)
    case Staging(order) => Drain(s, order)
    case Turn => Resume(s)
    case Again(t) => s.(ring := s.ring + [t])
    case RecvOn(t) => RecvAgain(s, t)
    case SendOn(t) => SendAgain(s, t)
    case Stray(t) => Ready(s, t)
  }

  ghost predicate Follows(s: State, es: seq<Event>, r: State)
    decreases |es|
  {
    if es == [] then r == s else Enabled(s, es[0]) && Follows(Do(s, es[0]), es[1..], r)
  }
}
