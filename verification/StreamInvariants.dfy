/**
  Invariants of the sender alone: what every operation of the state window keeps,
  given that the engine supplies one valid state per (epoch, generation).
 */
module StreamWindowInvariants {
  import opened Basics
  import opened TerminalState
  import opened ViewportDiff
  import opened GenerationMaps
  import opened StreamEndpoints

  function Id(s: State): Ack { Ack(s.epoch, s.generation) }

  /** Lexicographic order on (epoch, generation). */
  predicate AtMost(a: Ack, b: Ack) {
    a.epoch < b.epoch || (a.epoch == b.epoch && a.generation <= b.generation)
  }

  predicate Before(a: Ack, b: Ack) {
    a.epoch < b.epoch || (a.epoch == b.epoch && a.generation < b.generation)
  }

  /** Everything the engine has supplied so far, by identity. */
  type Supply = map<Ack, State>

  predicate SupplyOk(sup: Supply) {
    && (forall k :: k in sup ==> Id(sup[k]) == k && k.generation > 0)
    && (forall k {:trigger ValidViewport(sup[k])} :: k in sup ==> ValidViewport(sup[k]))
  }

  predicate Known(sup: Supply, s: State) {
    Id(s) in sup && sup[Id(s)] == s
  }

  /** The newest generation of the base's epoch that may have been sent. */
  function High(w: Window): nat {
    if w.acked && w.HasPending() && w.latest.value.epoch == w.base.epoch
    then w.latest.value.generation else w.base.generation
  }

  function Bound(w: Window): Ack { Ack(w.base.epoch, High(w)) }

  predicate WindowOk(w: Window, sup: Supply) {
    && w.route.terminal != "" && w.route.attachment != "" && w.limit == RETAINED_GENERATIONS
    && Known(sup, w.base)
    && w.base.generation in w.sent
    && (forall g :: g in w.sent ==>
          && Known(sup, w.sent[g]) && w.sent[g].epoch == w.base.epoch && w.sent[g].generation == g
          && w.base.generation <= g <= High(w))
    && |w.sent| <= w.limit && |w.retired| <= RETAINED_GENERATIONS
    && (forall e :: e in w.retired ==> e < w.base.epoch)
    && (w.latest.Some? ==> Known(sup, w.latest.value) && AtMost(Id(w.base), Id(w.latest.value)))
  }

  /** The state that the window is trying to get across. */
  function Goal(w: Window): State {
    if w.HasPending() then w.latest.value else w.base
  }

  /** A transition that leaves the base and its acknowledgement alone. */
  predicate SameBase(w: Window, w': Window) {
    && w'.base == w.base && w'.acked == w.acked && w'.retired == w.retired && w'.route == w.route
    && High(w) <= High(w')
  }

  /** A transition that sends keyframe `k`: only ever from an acknowledged base. */
  predicate Rebased(w: Window, w': Window, k: State) {
    && w.acked && !w'.acked && w'.base == k && w'.route == w.route
    && w'.retired == w.Retire(k.epoch)
    && AtMost(Bound(w), Id(k))
    && !w'.HasPending()
  }

  /** What an update that leaves the window may be. */
  predicate Emits(w: Window, w': Window, u: Option<Update>) {
    match u
    case None => SameBase(w, w') && w'.sent == w.sent
    case Some(Keyframe(k)) => Rebased(w, w', k)
    case Some(Delta(d)) =>
      && SameBase(w, w') && w.acked && w'.HasPending() && w' == w.Remember(w'.latest.value)
      && DeltaPair(w.base, w'.latest.value) && Encode(w.route, w.base, w'.latest.value) == Some(d)
  }

  /** Remembering a known state no older than anything sent keeps the base and that state. */
  lemma RememberOk(w: Window, s: State, sup: Supply)
    requires SupplyOk(sup) && WindowOk(w, sup) && Known(sup, s)
    requires s.epoch == w.base.epoch && High(w) <= s.generation
    requires w.base.generation == s.generation || w.acked
    ensures WindowOk(w.Remember(s), sup)
    ensures s.generation in w.Remember(s).sent
    ensures High(w.Remember(s)) == s.generation
  {
    hide ValidViewport, Trim;
    var all := w.sent[s.generation := s];
    TrimKeepsNewest(all, w.base.generation, w.limit, s.generation);
  }

  lemma InstallKeyframeOk(w: Window, s: State, sup: Supply)
    requires SupplyOk(sup) && WindowOk(w, sup) && Known(sup, s)
    requires w.acked && AtMost(Bound(w), Id(s))
    ensures w.InstallKeyframe(s).Ok?
    ensures var (w', u) := w.InstallKeyframe(s).value;
            WindowOk(w', sup) && Emits(w, w', u) && u == Some(Keyframe(s)) && Goal(w') == s
  {
    hide ValidViewport, Trim;
    var clean := w.(retired := w.Retire(s.epoch), base := s, acked := false, sent := map[]);
    var one := map[s.generation := s];
    assert clean.sent[s.generation := s] == one;
    SmallMapUntouched(one, s.generation, w.limit);
    assert clean.Remember(s) == clean.(latest := Some(s), sent := one);
    RetireOk(w, s.epoch);
  }

  lemma RetireOk(w: Window, next: Epoch)
    requires w.base.epoch <= next && |w.retired| <= RETAINED_GENERATIONS
    requires forall e :: e in w.retired ==> e < w.base.epoch
    ensures |w.Retire(next)| <= RETAINED_GENERATIONS
    ensures forall e :: e in w.Retire(next) ==> e < next
    ensures w.base.epoch != next ==> w.Retire(next) != [] && w.Retire(next)[|w.Retire(next)| - 1] == w.base.epoch
  {
    var r := w.retired + [w.base.epoch];
    assert forall e :: e in r ==> e in w.retired || e == w.base.epoch;
    assert forall e :: e in r[1..] ==> e in r;
  }

  lemma SmallMapUntouched(m: map<nat, State>, kept: nat, limit: nat)
    requires |m| <= limit
    ensures Trim(m, kept, limit) == m
  {
  }

  lemma SendFromBaseOk(w: Window, s: State, fits: bool, sup: Supply)
    requires SupplyOk(sup) && WindowOk(w, sup) && Known(sup, s)
    requires w.acked && AtMost(Bound(w), Id(s)) && Before(Id(w.base), Id(s))
    ensures w.SendFromBase(s, fits).Ok?
    ensures var (w', u) := w.SendFromBase(s, fits).value;
            WindowOk(w', sup) && Emits(w, w', u) && u.Some? && Goal(w') == s
  {
    hide ValidViewport, Encode, WindowOk, Emits, Goal, Window.InstallKeyframe, Window.Remember;
    InstallKeyframeOk(w, s, sup);
    if s.epoch == w.base.epoch && s.rows == w.base.rows && s.cols == w.base.cols {
      DeltaOk(w, s, sup);
    }
  }

  lemma DeltaOk(w: Window, s: State, sup: Supply)
    requires SupplyOk(sup) && WindowOk(w, sup) && Known(sup, s)
    requires w.acked && AtMost(Bound(w), Id(s)) && Before(Id(w.base), Id(s))
    requires s.epoch == w.base.epoch && s.rows == w.base.rows && s.cols == w.base.cols
    ensures var d := Encode(w.route, w.base, s);
            d.Some? && Emits(w, w.Remember(s), Some(Delta(d.value)))
    ensures WindowOk(w.Remember(s), sup) && Goal(w.Remember(s)) == s
  {
    hide ValidViewport, Trim, Encode, WindowOk, SupplyOk, Known, DeltaPair;
    BaseEncodes(w, s, sup);
    RememberOk(w, s, sup);
  }

  lemma BaseEncodes(w: Window, s: State, sup: Supply)
    requires SupplyOk(sup) && WindowOk(w, sup) && Known(sup, s)
    requires Before(Id(w.base), Id(s)) && s.epoch == w.base.epoch && s.rows == w.base.rows && s.cols == w.base.cols
    ensures DeltaPair(w.base, s) && Encode(w.route, w.base, s).Some?
  {
    hide ValidViewport, Encode, Decode;
    DeltaRoundTrip(w.route, w.base, s);
  }

  /** A newly supplied state always becomes the goal, and nothing fails. */
  lemma PrepareUpdateOk(w: Window, s: State, fits: bool, sup: Supply)
    requires SupplyOk(sup) && WindowOk(w, sup) && Known(sup, s)
    requires AtMost(Id(w.base), Id(s)) && (w.latest.Some? ==> AtMost(Id(w.latest.value), Id(s)))
    ensures w.PrepareUpdate(s, fits).Ok?
    ensures var (w', u) := w.PrepareUpdate(s, fits).value;
            WindowOk(w', sup) && Emits(w, w', u) && Goal(w') == s
  {
    hide ValidViewport, Trim, Encode;
    if w.acked && Before(Id(w.base), Id(s)) { SendFromBaseOk(w, s, fits, sup); }
  }

  lemma RetryLatestOk(w: Window, fits: bool, sup: Supply)
    requires SupplyOk(sup) && WindowOk(w, sup)
    ensures w.RetryLatest(fits).Ok?
    ensures var (w', u) := w.RetryLatest(fits).value;
            WindowOk(w', sup) && Emits(w, w', u) && Goal(w') == Goal(w)
  {
    hide ValidViewport, Trim, Encode;
    if w.acked && w.HasPending() { SendFromBaseOk(w, w.latest.value, fits, sup); }
  }

  lemma RekeyLatestOk(w: Window, sup: Supply)
    requires SupplyOk(sup) && WindowOk(w, sup)
    ensures w.RekeyLatest().Ok?
    ensures var (w', u) := w.RekeyLatest().value;
            && WindowOk(w', sup) && Emits(w, w', u) && Goal(w') == Goal(w)
            && (w.acked && w.HasPending() ==> u == Some(Keyframe(Goal(w))))
            && (!(w.acked && w.HasPending()) ==> u == None)
  {
    hide ValidViewport, Trim, Encode;
    if w.acked && w.HasPending() { InstallKeyframeOk(w, w.latest.value, sup); }
  }

  /** A repair for an older epoch is ignored, one for this epoch re-keys once; see `RepairRejected`. */
  lemma RepairOk(w: Window, r: RepairRequest, sup: Supply)
    requires SupplyOk(sup) && WindowOk(w, sup)
    requires 0 < r.missingBase <= r.newestSeen
    requires r.epoch in w.retired || (r.epoch == w.base.epoch && r.missingBase <= w.base.generation)
    requires w.Repair(r).Ok?
    ensures var (w', u) := w.Repair(r).value;
            WindowOk(w', sup) && Emits(w, w', u) && Goal(w') == Goal(w)
  {
    hide ValidViewport, Trim, Encode;
    RekeyLatestOk(w, sup);
  }

  /** The pending target is in a newer epoch and its generation is below the base that `r` is missing. */
  predicate Hazard(w: Window, r: RepairRequest) {
    && r.epoch == w.base.epoch && w.latest.Some?
    && w.latest.value.epoch != w.base.epoch && w.latest.value.generation < r.missingBase
  }

  /**
    An honest repair is refused exactly when the target waiting for the base's
    acknowledgement belongs to a newer epoch whose generation count is still below
    the base that the receiver is missing: the code compares generations of two epochs.
   */
  lemma RepairRejected(w: Window, r: RepairRequest, sup: Supply)
    requires SupplyOk(sup) && WindowOk(w, sup)
    requires 0 < r.missingBase <= r.newestSeen
    requires r.epoch in w.retired || (r.epoch == w.base.epoch && r.missingBase <= w.base.generation)
    ensures w.Repair(r).Err? <==> Hazard(w, r)
  {
    hide ValidViewport, Trim, Encode;
    RekeyLatestOk(w, sup);
  }

  /** The smallest live state: one empty cell position, everything at its default. */
  function Sample(epoch: Epoch, generation: nat): State {
    var origin := Some(Anchor(1, 0));
    var screen := Screen([Row(origin, 1, [], false)], 0, Some(Cursor(0, 0, origin, 1, true, 1, false)), None,
                         origin, origin, origin, origin, 0, 1, 0, 1, []);
    State(SCHEMA_VERSION, epoch, generation, 1, 1, Some(screen), Some(screen), PRIMARY_SCREEN, [], [],
          Some(Modes(seq(12, _ => false), 0, 0, 0, 0)), "", "",
          Some(Palette(seq(256, _ => 0), seq(6, _ => 0))))
  }

  lemma SampleValid(epoch: Epoch, generation: nat)
    requires generation > 0
    ensures ValidViewport(Sample(epoch, generation))
  {
    var row := Row(Some(Anchor(1, 0)), 1, [], false);
    assert CellCount([row]) == 0 by { assert [row][1..] == []; }
  }

  /** The window once generation 5 is acknowledged, a delta to 6 was sent and 6 was sent again as a keyframe. */
  function Rekeyed(route: Route): Window {
    var s := Sample(1, 6);
    Window(route, s, false, map[6 := s], Some(s), RETAINED_GENERATIONS, [])
  }

  lemma SampleDelta(route: Route) returns (d: Datagram)
    requires route.terminal != "" && route.attachment != ""
    ensures Encode(route, Sample(1, 5), Sample(1, 6)) == Some(d)
    ensures d.diff.epoch == 1 && d.diff.baseGeneration == 5 && d.diff.targetGeneration == 6
  {
    hide ValidViewport;
    SampleValid(1, 5);
    SampleValid(1, 6);
    DeltaRoundTrip(route, Sample(1, 5), Sample(1, 6));
    d := Encode(route, Sample(1, 5), Sample(1, 6)).value;
  }

  lemma RekeyedIsReached(route: Route, d: Datagram)
    requires route.terminal != "" && route.attachment != ""
    requires Encode(route, Sample(1, 5), Sample(1, 6)) == Some(d)
    ensures var s5, s6 := Sample(1, 5), Sample(1, 6);
            var w1 := Window(route, s5, true, map[5 := s5], None, RETAINED_GENERATIONS, []);
            var w2 := Window(route, s5, true, map[5 := s5, 6 := s6], Some(s6), RETAINED_GENERATIONS, []);
            && NewWindow(route, s5, RETAINED_GENERATIONS) == Ok(w1.(acked := false))
            && w1.(acked := false).Acknowledge(Ack(1, 5)) == Ok((w1, false))
            && w1.PrepareUpdate(s6, true) == Ok((w2, Some(Delta(d))))
            && w2.RekeyLatest() == Ok((Rekeyed(route), Some(Keyframe(s6))))
  {
    hide ValidViewport, Encode;
    SampleValid(1, 5);
    SampleValid(1, 6);
    SmallMapUntouched(map[5 := Sample(1, 5), 6 := Sample(1, 6)], 5, RETAINED_GENERATIONS);
  }

  /**
    The refusal does happen.  Generation 5 is acknowledged, a delta on it to generation 6 leaves, 6 is
    sent again as a keyframe, and generation 1 of the next epoch waits.  A receiver that gets the
    delta without holding its base asks for a repair with the code's own request, and is refused.
   */
  lemma RepairCanBeRejected(route: Route)
    requires route.terminal != "" && route.attachment != ""
    ensures var d := Encode(route, Sample(1, 5), Sample(1, 6));
            && d.Some?
            && var replica := NewReplica(route, RETAINED_GENERATIONS);
            && var waiting := Rekeyed(route).PrepareUpdate(Sample(2, 1), true);
            && waiting.Ok? && waiting.value.1 == None
            && waiting.value.0.Repair(replica.RepairFor(d.value)).Err?
  {
    hide ValidViewport, Encode;
    var d := SampleDelta(route);
    SampleValid(2, 1);
  }

  /** What an acknowledgement does: it may mark the base as received or move it forward. */
  predicate Acknowledged(w: Window, w': Window, a: Ack) {
    && w'.route == w.route && w'.retired == w.retired && w'.base.epoch == w.base.epoch
    && w.base.generation <= w'.base.generation
    && (w.acked ==> w'.acked)
    && (w'.base != w.base ==>
          Id(w'.base) == a && w.acked && a.generation in w.sent && w.base.generation < a.generation)
    && (w'.acked && !w.acked ==> a == Id(w.base))
    && w'.sent.Keys == (set g | g in w.sent && w'.base.generation <= g)
    && High(w) <= High(w')
  }

  /** An acknowledgement of anything up to the bound, in this epoch or a retired one, is accepted. */
  lemma AcknowledgeOk(w: Window, a: Ack, sup: Supply)
    requires SupplyOk(sup) && WindowOk(w, sup)
    requires a.generation > 0 && (a.epoch in w.retired || (a.epoch == w.base.epoch && AtMost(a, Bound(w))))
    ensures w.Acknowledge(a).Ok?
    ensures var (w', advanced) := w.Acknowledge(a).value;
            && (advanced <==> w'.base != w.base)
            && WindowOk(w', sup) && Acknowledged(w, w', a) && Goal(w') == Goal(w)
            && (a == Id(w.base) ==> w'.acked) && (!w.HasPending() ==> !w'.HasPending())
  {
    hide ValidViewport, Trim, WindowOk, Window.DropCovered;
    if a.epoch in w.retired {
      RetiredIsPast(w, sup, a);
    } else if a.generation <= w.base.generation {
      AcknowledgeBase(w, a, sup);
    } else if a.generation in w.sent {
      AcknowledgeSent(w, a, sup);
    } else {
      AcknowledgeEvicted(w, a, sup);
    }
  }

  lemma RetiredIsPast(w: Window, sup: Supply, a: Ack)
    requires WindowOk(w, sup) && a.generation > 0 && a.epoch in w.retired
    ensures w.Acknowledge(a) == Ok((w, false)) && Acknowledged(w, w, a) && a != Id(w.base)
  {
    hide Known;
  }

  lemma AcknowledgeBase(w: Window, a: Ack, sup: Supply)
    requires WindowOk(w, sup) && SupplyOk(sup) && a.epoch !in w.retired
    requires 0 < a.generation <= w.base.generation && a.epoch == w.base.epoch
    ensures var w' := w.(acked := w.acked || a.generation == w.base.generation).DropCovered(a);
            && w.Acknowledge(a) == Ok((w', false))
            && WindowOk(w', sup) && Acknowledged(w, w', a) && Goal(w') == Goal(w)
            && (a == Id(w.base) ==> w'.acked) && (!w.HasPending() ==> !w'.HasPending()) && w'.base == w.base
  {
    hide ValidViewport;
  }

  lemma AcknowledgeEvicted(w: Window, a: Ack, sup: Supply)
    requires WindowOk(w, sup) && a.epoch !in w.retired && a.generation !in w.sent
    requires a.generation > w.base.generation && a.epoch == w.base.epoch && AtMost(a, Bound(w))
    ensures w.Acknowledge(a) == Ok((w, false)) && Acknowledged(w, w, a) && a != Id(w.base)
  {
    hide Known;
  }

  lemma AcknowledgeSent(w: Window, a: Ack, sup: Supply)
    requires SupplyOk(sup) && WindowOk(w, sup) && a.epoch !in w.retired
    requires a.generation > w.base.generation && a.epoch == w.base.epoch && a.generation in w.sent
    ensures w.Acknowledge(a).Ok?
    ensures var (w', advanced) := w.Acknowledge(a).value;
            && advanced && w'.base != w.base && a != Id(w.base)
            && WindowOk(w', sup) && Acknowledged(w, w', a) && Goal(w') == Goal(w)
            && (!w.HasPending() ==> !w'.HasPending())
  {
    hide ValidViewport;
    var w' := w.Acknowledge(a).value.0;
    CardinalityAtMost(w'.sent.Keys, w.sent.Keys);
  }
}

/** Invariants of the receiver alone, and what any pile of cumulative deltas does to it. */
module StreamReplicaInvariants {
  import opened Basics
  import opened TerminalState
  import opened ViewportDiff
  import opened GenerationMaps
  import opened StreamEndpoints
  import opened StreamWindowInvariants

  /**
    What the sender encoded into a datagram.  `crowd` records which generations
    above the base had been sent on older bases when it became the base.
   */
  datatype Packet = Packet(base: State, target: State, crowd: set<nat>)

  predicate Carries(route: Route, d: Datagram, p: Packet) {
    DeltaPair(p.base, p.target) && Encode(route, p.base, p.target) == Some(d)
  }

  predicate ReplicaOk(r: Replica, sup: Supply) {
    && r.route.terminal != "" && r.route.attachment != "" && r.limit == RETAINED_GENERATIONS
    && |r.retained| <= r.limit
    && (r.current.None? ==> r.retained == map[])
    && (r.current.Some? ==>
          && Known(sup, r.current.value)
          && r.current.value.generation in r.retained
          && r.pinned in r.retained
          && forall g :: g in r.retained ==>
               && Known(sup, r.retained[g]) && r.retained[g].generation == g
               && r.retained[g].epoch == r.current.value.epoch && g <= r.current.value.generation)
  }

  /** Committing a newer state of the same epoch keeps both it and the pinned base. */
  lemma CommitOk(r: Replica, s: State, pin: nat, sup: Supply)
    requires r.route.terminal != "" && r.route.attachment != "" && r.limit == RETAINED_GENERATIONS
    requires Known(sup, s) && (pin in r.retained || pin == s.generation)
    requires forall g :: g in r.retained ==>
               && Known(sup, r.retained[g]) && r.retained[g].generation == g
               && r.retained[g].epoch == s.epoch && g < s.generation
    ensures ReplicaOk(r.Commit(s, pin), sup)
  {
    hide ValidViewport, Trim;
    TrimKeepsNewest(r.retained[s.generation := s], pin, r.limit, s.generation);
  }

  /** A known keyframe commits exactly when it is newer than the current state. */
  lemma KeyframeOk(r: Replica, s: State, sup: Supply)
    requires SupplyOk(sup) && ReplicaOk(r, sup) && Known(sup, s)
    requires r.current.Some? ==> r.current.value.epoch <= s.epoch
    ensures r.ApplyKeyframe(s).Ok?
    ensures var (r', d) := r.ApplyKeyframe(s).value;
            && ReplicaOk(r', sup) && r'.route == r.route
            && (if r.current.None? || Before(Id(r.current.value), Id(s))
                then d == Applied && HoldsBase(r', s, sup) && r' == r.(retained := r.Kept(s)).Commit(s, s.generation)
                else d == Stale && r' == r)
  {
    hide ValidViewport, Trim;
    if r.current.None? || Before(Id(r.current.value), Id(s)) {
      CommitOk(r.(retained := r.Kept(s)), s, s.generation, sup);
    }
  }

  /** A datagram commits exactly the state it was made from, or changes nothing. */
  lemma DatagramOk(r: Replica, d: Datagram, p: Packet, sup: Supply)
    requires SupplyOk(sup) && ReplicaOk(r, sup)
    requires Carries(r.route, d, p) && Known(sup, p.base) && Known(sup, p.target)
    ensures r.ApplyDatagram(d).Ok?
    ensures var (r', out) := r.ApplyDatagram(d).value;
            && ReplicaOk(r', sup) && r'.route == r.route
            && d.diff.epoch == p.target.epoch == p.base.epoch
            && d.diff.targetGeneration == p.target.generation
            && d.diff.baseGeneration == p.base.generation < p.target.generation
            && (if r.current.Some? && (r.current.value.epoch != p.target.epoch
                                       || p.target.generation <= r.current.value.generation)
                then out == Stale && r' == r
                else if p.base.generation !in r.retained
                then out == MissingBase && r' == r
                else out == Applied && r'.current == Some(p.target) && r'.pinned == p.base.generation
                     && r' == r.Commit(p.target, p.base.generation))
  {
    EncodedHeader(r.route, p, d);
    DeltaRoundTrip(r.route, p.base, p.target);
    DatagramStep(r, d, p, sup);
  }

  lemma EncodedHeader(route: Route, p: Packet, d: Datagram)
    requires Encode(route, p.base, p.target) == Some(d)
    ensures d.route == route && d.diff.epoch == p.target.epoch
    ensures d.diff.targetGeneration == p.target.generation && d.diff.baseGeneration == p.base.generation
  {
  }

  lemma DatagramStep(r: Replica, d: Datagram, p: Packet, sup: Supply)
    requires SupplyOk(sup) && ReplicaOk(r, sup)
    requires Known(sup, p.base) && Known(sup, p.target)
    requires d.route == r.route && d.diff.epoch == p.target.epoch == p.base.epoch
    requires d.diff.targetGeneration == p.target.generation && d.diff.baseGeneration == p.base.generation
    requires Decode(p.base, d) == Some(p.target)
    ensures r.ApplyDatagram(d).Ok?
    ensures var (r', out) := r.ApplyDatagram(d).value;
            && ReplicaOk(r', sup) && r'.route == r.route
            && (if r.current.Some? && (r.current.value.epoch != p.target.epoch
                                       || p.target.generation <= r.current.value.generation)
                then out == Stale && r' == r
                else if p.base.generation !in r.retained
                then out == MissingBase && r' == r
                else out == Applied && r'.current == Some(p.target) && r'.pinned == p.base.generation
                     && r' == r.Commit(p.target, p.base.generation))
  {
    hide ValidViewport, Trim, Encode, Decode;
    if !(r.current.Some? && (r.current.value.epoch != p.target.epoch
                             || p.target.generation <= r.current.value.generation))
       && p.base.generation in r.retained {
      CommitOk(r, p.target, p.base.generation, sup);
    }
  }

  // ---------------------------------------------------------------- cumulative deltas

  /** The dispositions of a sequence of datagrams, delivered in order. */
  function ApplyAll(r: Replica, ds: seq<Datagram>): Outcome<(Replica, seq<Disposition>)> {
    if ds == [] then Ok((r, [])) else
    match ApplyAll(r, ds[..|ds| - 1])
    case Err => Err
    case Ok((before, out)) =>
      match before.ApplyDatagram(ds[|ds| - 1])
      case Err => Err
      case Ok((after, d)) => Ok((after, out + [d]))
  }

  /** The replica has committed `base` and still has it. */
  predicate HoldsBase(r: Replica, base: State, sup: Supply) {
    && ReplicaOk(r, sup) && r.current.Some? && r.pinned == base.generation
    && r.current.value.epoch == base.epoch && Known(sup, base)
  }

  /** The newer of two states of an epoch. */
  function Newer(a: State, b: State): State { if b.generation > a.generation then b else a }

  function Newest(start: State, packets: seq<Packet>): State {
    if packets == [] then start else Newer(Newest(start, packets[..|packets| - 1]), packets[|packets| - 1].target)
  }

  lemma {:induction false} NewestIsGreatest(start: State, packets: seq<Packet>, i: nat)
    requires i < |packets|
    ensures packets[i].target.generation <= Newest(start, packets).generation
    ensures start.generation <= Newest(start, packets).generation
  {
    if |packets| > 1 {
      var before := packets[..|packets| - 1];
      NewestIsGreatest(start, before, if i < |before| then i else 0);
    }
  }

  /**
    Any deltas on one held base, in any order, subset or multiplicity: none is
    rejected or reported as missing its base, the base stays held, and the replica
    ends at the greatest target delivered.
   */
  lemma {:induction false} CumulativeDeltas(r: Replica, base: State, ds: seq<Datagram>,
                                            packets: seq<Packet>, sup: Supply)
    requires SupplyOk(sup) && HoldsBase(r, base, sup)
    requires |ds| == |packets|
    requires forall i :: 0 <= i < |ds| ==>
               && Carries(r.route, ds[i], packets[i]) && packets[i].base == base
               && Known(sup, packets[i].target)
    ensures ApplyAll(r, ds).Ok?
    ensures var (r', out) := ApplyAll(r, ds).value;
            && HoldsBase(r', base, sup) && r'.route == r.route
            && |out| == |ds| && MissingBase !in out
            && r'.current == Some(Newest(r.current.value, packets))
  {
    hide ValidViewport, Trim, Encode, DeltaPair;
    if ds != [] {
      var n := |ds| - 1;
      CumulativeDeltas(r, base, ds[..n], packets[..n], sup);
      var (before, out) := ApplyAll(r, ds[..n]).value;
      DatagramOk(before, ds[n], packets[n], sup);
    }
  }
}
