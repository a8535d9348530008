/**
  The bounded handoff to one stream writer (src/queued_writer.rs) as a state machine over
  its atomic steps: a producer that reserves with compare-and-swap, sends and rolls back, a
  drain loop that writes to the sink, and a task that waits until everything is drained.
 */
module QueuedWriter {
  import opened Basics

  const MAX_QUEUED_BYTES: nat := 20971520
  const CHANNEL_CAPACITY: nat := 1024

  /** `Trying`: the counter was loaded.  `Reserved`: added to the counter.  `Refused`: the channel did not take it. */
  datatype Producer = Idle | Trying(bytes: Bytes, current: nat) | Reserved(bytes: Bytes) | Refused(bytes: Bytes)

  /** `Wrote`: written, still counted.  `Notifying`: the counter reached zero, the notification is still to come. */
  datatype Drain = Receiving | Writing(bytes: Bytes, done: nat) | Wrote(bytes: Bytes) | Notifying | Finished
                 | Broken(bytes: Bytes, done: nat)

  /** `Checking`: about to load the counter.  `Awaiting`: saw it nonzero, about to wait for the notification. */
  datatype Waiter = NotWaiting | Checking | Awaiting | Sleeping | Woken

  /** `accepted` and `sink` record what the producer was told was accepted and what reached the writer. */
  datatype Handoff = Handoff(queued: nat, channel: seq<Bytes>, open: bool, producer: Producer, drain: Drain,
                             permit: bool, waiter: Waiter, accepted: Bytes, sink: Bytes)

  const START: Handoff := Handoff(0, [], true, Idle, Receiving, false, NotWaiting, [], [])

  datatype Event =
    | StartWrite(bytes: Bytes) | CompareAndSwap(spurious: bool) | Send | RollBack | Shutdown
    | Receive | ReceiveEnd | WritePiece(n: nat) | SinkFails | Subtract | NotifyOne
    | WaitStart | WaitCheck | WaitAwait | WaitWake | WaitCancel

  /** Writing and shutting down borrow the writer exclusively, so neither overlaps with waiting. */
  predicate Possible(s: Handoff, e: Event) {
    match e
    case StartWrite(b) => s.producer.Idle? && s.waiter.NotWaiting? && s.open && b != []
    case CompareAndSwap(_) => s.producer.Trying?
    case Send => s.producer.Reserved?
    case RollBack => s.producer.Refused?
    case Shutdown => s.producer.Idle? && s.waiter.NotWaiting?
    case Receive => s.drain.Receiving? && s.channel != []
    case ReceiveEnd => s.drain.Receiving? && s.channel == [] && !s.open
    case WritePiece(n) => s.drain.Writing? && 0 < n <= |s.drain.bytes| - s.drain.done
    case SinkFails => s.drain.Writing?
    case Subtract => s.drain.Wrote?
    case NotifyOne => s.drain.Notifying?
    case WaitStart => s.waiter.NotWaiting? && s.producer.Idle?
    case WaitCheck => s.waiter.Checking?
    case WaitAwait => s.waiter.Awaiting?
    case WaitWake => s.waiter.Woken?
    case WaitCancel => !s.waiter.NotWaiting?
  }

  /** None: a subtraction would take the counter below zero. */
  function Next(s: Handoff, e: Event): Option<Handoff>
    requires Possible(s, e)
  {
    match e
    case StartWrite(b) => Some(s.(producer := Trying(b, s.queued)))
    case CompareAndSwap(spurious) =>
      var b, current := s.producer.bytes, s.producer.current;
      if current + |b| > MAX_QUEUED_BYTES then Some(s.(producer := Idle))
      else if current == s.queued && !spurious then Some(s.(queued := current + |b|, producer := Reserved(b)))
      else Some(s.(producer := Trying(b, s.queued)))
    case Send =>
      var b := s.producer.bytes;
      if s.drain.Finished? || s.drain.Broken? || |s.channel| >= CHANNEL_CAPACITY then Some(s.(producer := Refused(b)))
      else Some(s.(producer := Idle, channel := s.channel + [b], accepted := s.accepted + b))
    case RollBack =>
      if s.queued < |s.producer.bytes| then None
      else Some(s.(queued := s.queued - |s.producer.bytes|, producer := Idle))
    case Shutdown => Some(s.(open := false))
    case Receive => Some(s.(drain := Writing(s.channel[0], 0), channel := s.channel[1..]))
    case ReceiveEnd => Some(s.(drain := Finished))
    case WritePiece(n) =>
      var b, k := s.drain.bytes, s.drain.done;
      if k + n > |b| then None
      else Some(s.(sink := s.sink + b[k..k + n], drain := if k + n == |b| then Wrote(b) else Writing(b, k + n)))
    case SinkFails => Some(s.(drain := Broken(s.drain.bytes, s.drain.done)))
    case Subtract =>
      var b := s.drain.bytes;
      if s.queued < |b| then None
      else Some(s.(queued := s.queued - |b|, drain := if s.queued == |b| then Notifying else Receiving))
    case NotifyOne =>
      if s.waiter.Sleeping? then Some(s.(drain := Receiving, waiter := Woken))
      else Some(s.(drain := Receiving, permit := true))
    case WaitStart => Some(s.(waiter := Checking))
    case WaitCheck => Some(s.(waiter := if s.queued == 0 then NotWaiting else Awaiting))
    case WaitAwait =>
      if s.permit then Some(s.(permit := false, waiter := Checking)) else Some(s.(waiter := Sleeping))
    case WaitWake => Some(s.(waiter := Checking))
    case WaitCancel => Some(s.(waiter := NotWaiting, permit := s.permit || s.waiter.Woken?))
  }

  // ---------------------------------------------------------------- what every step keeps

  function Join(messages: seq<Bytes>): Bytes {
    if messages == [] then [] else messages[0] + Join(messages[1..])
  }

  lemma {:induction false} JoinMore(messages: seq<Bytes>, b: Bytes)
    ensures Join(messages + [b]) == Join(messages) + b
  {
    if messages == [] {
      assert ([] + [b])[1..] == [];
    } else {
      JoinMore(messages[1..], b);
      assert (messages + [b])[1..] == messages[1..] + [b];
    }
  }

  /** Bytes the producer has counted but not handed over. */
  function Held(p: Producer): nat {
    if p.Reserved? || p.Refused? then |p.bytes| else 0
  }

  /** Bytes the drain loop has taken from the channel and not yet discounted. */
  function InHand(d: Drain): nat {
    if d.Writing? || d.Wrote? || d.Broken? then |d.bytes| else 0
  }

  /** Bytes the drain loop has taken and not yet written. */
  function Unwritten(d: Drain): Bytes {
    if (d.Writing? || d.Broken?) && d.done <= |d.bytes| then d.bytes[d.done..] else []
  }

  predicate CounterOk(queued: nat, channel: seq<Bytes>, producer: Producer, drain: Drain) {
    && queued == Held(producer) + |Join(channel)| + InHand(drain) <= MAX_QUEUED_BYTES
    && (forall i :: 0 <= i < |channel| ==> channel[i] != [])
    && (!producer.Idle? ==> producer.bytes != [])
    && (drain.Writing? ==> drain.done < |drain.bytes|)
    && (drain.Wrote? ==> drain.bytes != [])
    && (drain.Broken? ==> drain.done < |drain.bytes|)
  }

  predicate OrderOk(accepted: Bytes, sink: Bytes, channel: seq<Bytes>, drain: Drain) {
    accepted == sink + Unwritten(drain) + Join(channel)
  }

  /** Whoever waits has something to wait for: bytes in flight, a notification under way, or a stored permit. */
  predicate WakeupOk(s: Handoff) {
    && (s.waiter.Awaiting? ==> s.permit || s.queued > 0 || s.drain.Notifying?)
    && (s.waiter.Sleeping? ==> s.queued > 0 || s.drain.Notifying?)
    && (!s.waiter.NotWaiting? ==> s.producer.Idle?)
  }

  predicate Inv(s: Handoff) {
    && CounterOk(s.queued, s.channel, s.producer, s.drain)
    && OrderOk(s.accepted, s.sink, s.channel, s.drain)
    && WakeupOk(s)
    && (s.drain.Finished? ==> s.channel == [])
  }

  predicate ByProducer(e: Event) {
    e.StartWrite? || e.CompareAndSwap? || e.Send? || e.RollBack? || e.Shutdown?
  }

  predicate ByWaiter(e: Event) {
    e.WaitStart? || e.WaitCheck? || e.WaitAwait? || e.WaitWake? || e.WaitCancel?
  }

  lemma WaiterOk(s: Handoff, e: Event)
    requires Inv(s) && Possible(s, e) && ByWaiter(e)
    ensures Next(s, e).Some? && Inv(Next(s, e).value)
    ensures s.sink == Next(s, e).value.sink && s.accepted == Next(s, e).value.accepted
  {
    hide CounterOk, OrderOk;
  }

  lemma ProducerOk(s: Handoff, e: Event)
    requires Inv(s) && Possible(s, e) && ByProducer(e)
    ensures Next(s, e).Some? && Inv(Next(s, e).value)
    ensures s.sink == Next(s, e).value.sink && s.accepted <= Next(s, e).value.accepted
  {
    hide OrderOk, Join;
    if e.Send? {
      SendOk(s);
    }
  }

  lemma SendOk(s: Handoff)
    requires Inv(s) && Possible(s, Send)
    ensures Next(s, Send).Some? && Inv(Next(s, Send).value)
    ensures s.accepted <= Next(s, Send).value.accepted
  {
    hide Join;
    JoinMore(s.channel, s.producer.bytes);
  }

  lemma DrainOk(s: Handoff, e: Event)
    requires Inv(s) && Possible(s, e) && !ByProducer(e) && !ByWaiter(e)
    ensures Next(s, e).Some? && Inv(Next(s, e).value)
    ensures s.sink <= Next(s, e).value.sink && s.accepted == Next(s, e).value.accepted
  {
    hide OrderOk, Join;
    if e.Receive? {
      ReceiveOk(s);
    } else if e.WritePiece? {
      PieceOk(s, e.n);
    } else {
      UnwrittenKept(s, e);
    }
  }

  lemma ReceiveOk(s: Handoff)
    requires Inv(s) && Possible(s, Receive)
    ensures Inv(Next(s, Receive).value)
  {
    var b := s.channel[0];
    assert Join(s.channel) == b + Join(s.channel[1..]);
    assert b[0..] == b;
  }

  lemma PieceOk(s: Handoff, n: nat)
    requires Inv(s) && Possible(s, WritePiece(n))
    ensures Next(s, WritePiece(n)).Some? && Inv(Next(s, WritePiece(n)).value)
    ensures s.sink <= Next(s, WritePiece(n)).value.sink
  {
    hide Join, OrderOk;
    PieceMoves(s.accepted, s.sink, s.channel, s.drain.bytes, s.drain.done, n);
  }

  /** A piece moves from what is unwritten to the end of the sink. */
  lemma PieceMoves(accepted: Bytes, sink: Bytes, channel: seq<Bytes>, b: Bytes, k: nat, n: nat)
    requires k + n <= |b| && OrderOk(accepted, sink, channel, Writing(b, k))
    ensures OrderOk(accepted, sink + b[k..k + n], channel, if k + n == |b| then Wrote(b) else Writing(b, k + n))
  {
    hide Join;
    assert sink + b[k..] == sink + b[k..k + n] + b[k + n..];
  }

  lemma UnwrittenKept(s: Handoff, e: Event)
    requires Inv(s) && Possible(s, e) && (e.ReceiveEnd? || e.SinkFails? || e.Subtract? || e.NotifyOne?)
    requires Next(s, e).Some?
    ensures var s' := Next(s, e).value; OrderOk(s'.accepted, s'.sink, s'.channel, s'.drain)
  {
    hide Join;
  }

  /** Every possible step succeeds, keeps the invariant, and only appends to what was accepted and written. */
  lemma NextOk(s: Handoff, e: Event)
    requires Inv(s) && Possible(s, e)
    ensures Next(s, e).Some? && Inv(Next(s, e).value)
    ensures s.sink <= Next(s, e).value.sink && s.accepted <= Next(s, e).value.accepted
  {
    hide Inv, Possible, Next;
    if ByProducer(e) {
      ProducerOk(s, e);
    } else if ByWaiter(e) {
      WaiterOk(s, e);
    } else {
      DrainOk(s, e);
    }
  }

  // ---------------------------------------------------------------- whole runs

  function After(s: Handoff, es: seq<Event>): Option<Handoff> {
    if es == [] then Some(s)
    else
      var before := After(s, es[..|es| - 1]);
      if before.Some? && Possible(before.value, es[|es| - 1]) then Next(before.value, es[|es| - 1]) else None
  }

  lemma {:induction false} RunOk(es: seq<Event>, s: Handoff)
    requires After(START, es) == Some(s)
    ensures Inv(s)
  {
    hide Inv, Next, Possible;
    if es == [] {
      StartOk();
    } else {
      var m := After(START, es[..|es| - 1]).value;
      RunOk(es[..|es| - 1], m);
      NextOk(m, es[|es| - 1]);
    }
  }

  lemma StartOk()
    ensures Inv(START)
  {
  }

  /**
    In every interleaving: the counter is what is reserved, queued and being written, and is within
    the budget; no subtraction underflows; the sink holds a prefix of the accepted bytes, in order,
    and all of them once the drain loop has finished.
   */
  lemma BoundedAndOrdered(es: seq<Event>, s: Handoff, e: Event)
    requires After(START, es) == Some(s)
    ensures s.queued == Held(s.producer) + |Join(s.channel)| + InHand(s.drain) <= MAX_QUEUED_BYTES
    ensures Possible(s, e) ==> Next(s, e).Some?
    ensures s.sink <= s.accepted && (s.drain.Finished? ==> s.sink == s.accepted)
  {
    hide Next, Possible;
    RunOk(es, s);
    assert s.accepted == s.sink + (Unwritten(s.drain) + Join(s.channel));
    if Possible(s, e) {
      NextOk(s, e);
    }
  }

  /** A waiter never sleeps when nothing is left to drain and no notification is on its way. */
  lemma NoMissedWakeup(es: seq<Event>, s: Handoff)
    requires After(START, es) == Some(s) && s.waiter.Sleeping?
    ensures s.producer.Idle? && (s.queued > 0 || s.drain.Notifying?)
  {
    RunOk(es, s);
  }

  // ---------------------------------------------------------------- draining makes progress

  /** What the drain loop does next if the sink keeps accepting. */
  function DrainEvent(s: Handoff): Option<Event> {
    match s.drain
    case Receiving => if s.channel == [] then None else Some(Receive)
    case Writing(b, k) => if k < |b| then Some(WritePiece(|b| - k)) else None
    case Wrote(_) => Some(Subtract)
    case Notifying => Some(NotifyOne)
    case Finished => None
    case Broken(_, _) => None
  }

  function Steps(s: Handoff): nat {
    4 * |s.channel| + (match s.drain case Writing(_, _) => 3 case Wrote(_) => 2 case Notifying => 1 case _ => 0)
  }

  /** Runs the drain loop until the channel is empty. */
  function Drained(s: Handoff): Handoff
    requires Inv(s)
    decreases Steps(s)
  {
    var e := DrainEvent(s);
    if e.None? then s
    else
      DrainStep(s);
      Drained(Next(s, e.value).value)
  }

  lemma DrainStep(s: Handoff)
    requires Inv(s) && DrainEvent(s).Some?
    ensures Possible(s, DrainEvent(s).value) && Next(s, DrainEvent(s).value).Some?
    ensures var s' := Next(s, DrainEvent(s).value).value;
            && Inv(s') && Steps(s') < Steps(s) && s'.producer == s.producer && s'.accepted == s.accepted
            && (s'.drain.Broken? <==> s.drain.Broken?)
            && (s'.waiter == s.waiter || (s.waiter.Sleeping? && s'.waiter.Woken?))
  {
    hide CounterOk, OrderOk, WakeupOk;
    WritingIsPending(s);
    DrainOk(s, DrainEvent(s).value);
  }

  lemma WritingIsPending(s: Handoff)
    requires Inv(s)
    ensures s.drain.Writing? ==> s.drain.done < |s.drain.bytes|
  {
  }

  /**
    From every reachable state whose sink works, finishing the drain loop delivers every accepted
    byte, leaves only an unsent reservation on the counter and has woken a sleeping waiter.
   */
  lemma {:induction false} DrainDelivers(s: Handoff)
    requires Inv(s) && !s.drain.Broken?
    ensures var d := Drained(s);
            && d.sink == s.accepted && d.queued == Held(s.producer) && d.channel == []
            && !d.waiter.Sleeping? && (s.waiter.Sleeping? ==> d.waiter.Woken?)
    decreases Steps(s)
  {
    hide Next, Possible, Inv;
    var e := DrainEvent(s);
    if e.None? {
      NothingLeft(s);
    } else {
      DrainStep(s);
      DrainDelivers(Next(s, e.value).value);
      if Next(s, e.value).value.waiter.Woken? {
        WokenStays(Next(s, e.value).value);
      }
    }
  }

  lemma NothingLeft(s: Handoff)
    requires Inv(s) && DrainEvent(s).None? && !s.drain.Broken?
    ensures s.sink == s.accepted && s.queued == Held(s.producer) && s.channel == [] && !s.waiter.Sleeping?
  {
  }

  lemma {:induction false} WokenStays(s: Handoff)
    requires Inv(s) && s.waiter.Woken?
    ensures Drained(s).waiter.Woken?
    decreases Steps(s)
  {
    hide Next, Possible, Inv;
    if DrainEvent(s).Some? {
      DrainStep(s);
      WokenStays(Next(s, DrainEvent(s).value).value);
    }
  }
}
