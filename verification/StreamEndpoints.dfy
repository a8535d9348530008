/** Ordered access to maps keyed by generation, as `BTreeMap` gives it. */
module GenerationMaps {

  predicate IsLeast(k: nat, s: set<nat>) {
    k in s && forall x :: x in s ==> k <= x
  }

  lemma {:induction false} LeastExists(s: set<nat>)
    requires s != {}
    ensures exists k :: IsLeast(k, s)
  {
    var y :| y in s;
    var rest := s - {y};
    if rest == {} {
      assert s == {y};
      assert IsLeast(y, s);
    } else {
      LeastExists(rest);
      var k :| IsLeast(k, rest);
      assert forall x :: x in s ==> x == y || x in rest;
      assert IsLeast(if y < k then y else k, s);
    }
  }

  /** The smallest key. */
  function FirstKey<V>(m: map<nat, V>): (k: nat)
    requires m.Keys != {}
    ensures IsLeast(k, m.Keys)
  {
    LeastExists(m.Keys);
    var k :| IsLeast(k, m.Keys);
    k
  }

  /** Drop the smallest keys other than `kept` until at most `limit` entries are left. */
  function Trim<V>(m: map<nat, V>, kept: nat, limit: nat): (r: map<nat, V>)
    ensures r.Keys <= m.Keys && forall k :: k in r ==> r[k] == m[k]
    ensures kept in m ==> kept in r
    ensures |r| <= limit || limit == 0
    decreases m.Keys
  {
    if |m| <= limit then m else
    var rest := m - {kept};
    if rest.Keys == {} then
      assert forall k :: k in m.Keys && k != kept ==> k in rest.Keys;
      assert forall k :: k in m.Keys ==> k in {kept};
      CardinalityAtMost(m.Keys, {kept});
      m
    else Trim(m - {FirstKey(rest)}, kept, limit)
  }

  /** The newest entry survives trimming to two entries or more. */
  lemma {:induction false} TrimKeepsNewest<V>(m: map<nat, V>, kept: nat, limit: nat, newest: nat)
    requires newest in m && forall k :: k in m ==> k <= newest
    requires 2 <= limit
    ensures newest in Trim(m, kept, limit)
    decreases m.Keys
  {
    var rest := m - {kept};
    if |m| > limit && rest.Keys != {} {
      var first := FirstKey(rest);
      if first == newest {
        forall k | k in m.Keys ensures k in {kept, newest} {
          if k != kept { assert k in rest.Keys; }
        }
        CardinalityAtMost(m.Keys, {kept, newest});
        assert false;
      }
      TrimKeepsNewest(m - {first}, kept, limit, newest);
    }
  }

  /** An entry with few newer ones survives: the kept one and those above it fit the limit. */
  lemma {:induction false} TrimKeepsCrowded<V>(m: map<nat, V>, kept: nat, limit: nat, x: nat, above: set<nat>)
    requires x in m && forall k :: k in m && k > x && k != kept ==> k in above
    requires |above| + 2 <= limit
    ensures x in Trim(m, kept, limit)
    decreases m.Keys
  {
    var rest := m - {kept};
    if |m| > limit && rest.Keys != {} {
      var first := FirstKey(rest);
      if first == x {
        forall k | k in m.Keys ensures k in above + {kept, x} {
          if k != kept { assert k in rest.Keys; }
        }
        CardinalityAtMost(m.Keys, above + {kept, x});
        assert false;
      }
      TrimKeepsCrowded(m - {first}, kept, limit, x, above);
    }
  }

  /** Whatever is newer than a surviving entry survives too. */
  lemma {:induction false} TrimKeepsNewer<V>(m: map<nat, V>, kept: nat, limit: nat, x: nat, newer: nat)
    requires x in Trim(m, kept, limit) && x != kept && newer in m && newer > x
    ensures newer in Trim(m, kept, limit)
    decreases m.Keys
  {
    var rest := m - {kept};
    if |m| > limit && rest.Keys != {} {
      var first := FirstKey(rest);
      assert x in rest.Keys;
      TrimKeepsNewer(m - {first}, kept, limit, x, newer);
    }
  }

  lemma {:induction false} CardinalityAtMost(a: set<nat>, b: set<nat>)
    requires a <= b
    ensures |a| <= |b|
  {
    if a != {} {
      var x :| x in a;
      CardinalityAtMost(a - {x}, b - {x});
    }
  }
}

/**
  The two ends of the latest-state-wins protocol (src/terminal_streaming.rs) and
  the client's one-slot datagram mailbox (src/client.rs).  Each end is a value
  with transition functions; the classes are the objects that the source updates
  in place, proved to take exactly those transitions.  `Err` is an error result,
  which leaves the object as it was.
 */
module StreamEndpoints {
  import opened Basics
  import opened TerminalState
  import opened ViewportDiff
  import opened GenerationMaps

  const RETAINED_GENERATIONS: nat := 128

  datatype Outcome<+T> = Ok(value: T) | Err

  datatype Update = Keyframe(state: State) | Delta(datagram: Datagram)

  datatype Ack = Ack(epoch: Epoch, generation: nat)

  datatype RepairRequest = RepairRequest(epoch: Epoch, missingBase: nat, newestSeen: nat)

  // ---------------------------------------------------------------- sender

  datatype Window = Window(route: Route, base: State, acked: bool, sent: map<nat, State>,
                           latest: Option<State>, limit: nat, retired: seq<Epoch>)
  {
    function LatestGeneration(): nat {
      if latest.Some? then latest.value.generation else base.generation
    }

    predicate HasPending() {
      latest.Some? && (latest.value.epoch != base.epoch || latest.value.generation > base.generation)
    }

    /** The newest target is stale: the base already covers it. */
    predicate LatestCovered() {
      latest.Some? && latest.value.epoch == base.epoch && latest.value.generation <= base.generation
    }

    function Remember(s: State): Window {
      this.(latest := Some(s), sent := Trim(sent[s.generation := s], base.generation, limit))
    }

    function Retire(next: Epoch): seq<Epoch> {
      if base.epoch == next then retired else
      var r := retired + [base.epoch];
      if |r| > RETAINED_GENERATIONS then r[1..] else r
    }

    /** Send a new reliable base; refused while the previous one is unacknowledged. */
    function InstallKeyframe(s: State): Outcome<(Window, Option<Update>)> {
      if !ValidViewport(s) || !acked then Err else
      Ok((this.(retired := Retire(s.epoch), base := s, acked := false, sent := map[]).Remember(s),
          Some(Keyframe(s))))
    }

    /** `fits`: the delta is within the datagram budget and smaller than a keyframe. */
    function UpdateFromBase(s: State, fits: bool): Outcome<Update> {
      if s.rows != base.rows || s.cols != base.cols then Ok(Keyframe(s)) else
      match Encode(route, base, s)
      case None => Err
      case Some(d) => Ok(if fits then Delta(d) else Keyframe(s))
    }

    function SendFromBase(s: State, fits: bool): Outcome<(Window, Option<Update>)> {
      if s.epoch != base.epoch then InstallKeyframe(s) else
      match UpdateFromBase(s, fits)
      case Err => Err
      case Ok(Keyframe(_)) => InstallKeyframe(s)
      case Ok(Delta(d)) => Ok((Remember(s), Some(Delta(d))))
    }

    function PrepareUpdate(s: State, fits: bool): Outcome<(Window, Option<Update>)> {
      if !ValidViewport(s) then Err
      else if s.epoch == base.epoch
              && (s.generation <= base.generation || s.generation < LatestGeneration()
                  || (s.generation == LatestGeneration() && s.generation in sent))
      then Ok((this, None))
      else if !acked then Ok((this.(latest := Some(s)), None))
      else SendFromBase(s, fits)
    }

    function RetryLatest(fits: bool): Outcome<(Window, Option<Update>)> {
      if latest.None? then Ok((this, None))
      else if LatestCovered() then Ok((this.(latest := None), None))
      else if !acked then Ok((this, None))
      else SendFromBase(latest.value, fits)
    }

    function RekeyLatest(): Outcome<(Window, Option<Update>)> {
      if !acked || latest.None? then Ok((this, None))
      else if LatestCovered() then Ok((this.(latest := None), None))
      else InstallKeyframe(latest.value)
    }

    function Repair(r: RepairRequest): Outcome<(Window, Option<Update>)> {
      if r.missingBase == 0 || r.newestSeen < r.missingBase then Err
      else if r.epoch in retired then Ok((this, None))
      else if r.epoch != base.epoch || r.missingBase > LatestGeneration() then Err
      else if !acked then Ok((this, None))
      else
        match RekeyLatest()
        case Err => Err
        case Ok((w, Some(u))) => Ok((w, Some(u)))
        case Ok((w, None)) => Ok((w.(acked := false), Some(Keyframe(w.base))))
    }

    function DropCovered(a: Ack): Window {
      if latest.Some? && latest.value.epoch == a.epoch && latest.value.generation <= a.generation
      then this.(latest := None) else this
    }

    /** The flag says whether the acknowledgement advanced the base. */
    function Acknowledge(a: Ack): Outcome<(Window, bool)> {
      if a.generation == 0 then Err
      else if a.epoch in retired then Ok((this, false))
      else if a.epoch == base.epoch && a.generation <= base.generation then
        Ok((this.(acked := acked || a.generation == base.generation).DropCovered(a), false))
      else if a.epoch != base.epoch then Err
      else if a.generation !in sent then
        if a.generation <= LatestGeneration() then Ok((this, false)) else Err
      else
        Ok((this.(base := sent[a.generation], acked := true,
                  sent := map g | g in sent && g >= a.generation :: sent[g]).DropCovered(a), true))
    }
  }

  function NewWindow(route: Route, initial: State, limit: nat): Outcome<Window> {
    if route.terminal == "" || route.attachment == "" || limit == 0 || !ValidViewport(initial) then Err
    else Ok(Window(route, initial, false, map[initial.generation := initial], None, limit, []))
  }

  class StreamingStateWindow {
    const route: Route
    const limit: nat
    var base: State
    var acked: bool
    var sent: map<nat, State>
    var latest: Option<State>
    var retired: seq<Epoch>

    function Value(): Window
      reads this
    {
      Window(route, base, acked, sent, latest, limit, retired)
    }

    constructor (route: Route, initial: State, limit: nat)
      requires NewWindow(route, initial, limit).Ok?
      ensures Ok(Value()) == NewWindow(route, initial, limit)
    {
      this.route, this.limit := route, limit;
      base, acked := initial, false;
      sent, latest, retired := map[initial.generation := initial], None, [];
    }

    method Remember(s: State)
      modifies this
      ensures Value() == old(Value()).Remember(s)
    {
      latest := Some(s);
      sent := sent[s.generation := s];
      ghost var all := sent;
      while |sent| > limit
        invariant Trim(all, base.generation, limit) == Trim(sent, base.generation, limit)
        invariant Value() == old(Value()).(latest := Some(s), sent := sent)
        decreases sent.Keys
      {
        var oldest := FirstKey(sent);
        if oldest == base.generation {
          var rest := sent - {oldest};
          if rest.Keys == {} { break; }
          sent := sent - {FirstKey(rest)};
        } else {
          OldestSurvivesKept(sent, base.generation);
          sent := sent - {oldest};
        }
      }
    }

    method InstallKeyframe(s: State) returns (r: Outcome<Option<Update>>)
      modifies this
      ensures match old(Value()).InstallKeyframe(s)
              case Err => r == Err && Value() == old(Value())
              case Ok((w, u)) => r == Ok(u) && Value() == w
    {
      hide ValidViewport, Trim;
      if !ValidViewport(s) || !acked { return Err; }
      if base.epoch != s.epoch {
        retired := retired + [base.epoch];
        if |retired| > RETAINED_GENERATIONS { retired := retired[1..]; }
      }
      base, acked, sent := s, false, map[];
      Remember(s);
      r := Ok(Some(Keyframe(s)));
    }

    method SendFromBase(s: State, fits: bool) returns (r: Outcome<Option<Update>>)
      modifies this
      ensures match old(Value()).SendFromBase(s, fits)
              case Err => r == Err && Value() == old(Value())
              case Ok((w, u)) => r == Ok(u) && Value() == w
    {
      if s.epoch != base.epoch { r := InstallKeyframe(s); return; }
      match Value().UpdateFromBase(s, fits)
      case Err => return Err;
      case Ok(Keyframe(_)) => r := InstallKeyframe(s);
      case Ok(Delta(d)) =>
        Remember(s);
        return Ok(Some(Delta(d)));
    }

    method PrepareUpdate(s: State, fits: bool) returns (r: Outcome<Option<Update>>)
      modifies this
      ensures match old(Value()).PrepareUpdate(s, fits)
              case Err => r == Err && Value() == old(Value())
              case Ok((w, u)) => r == Ok(u) && Value() == w
    {
      hide ValidViewport;
      if !ValidViewport(s) { return Err; }
      var newest := Value().LatestGeneration();
      if s.epoch == base.epoch && (s.generation <= base.generation || s.generation < newest
                                   || (s.generation == newest && s.generation in sent)) {
        return Ok(None);
      }
      if !acked {
        latest := Some(s);
        return Ok(None);
      }
      r := SendFromBase(s, fits);
    }

    method RetryLatest(fits: bool) returns (r: Outcome<Option<Update>>)
      modifies this
      ensures match old(Value()).RetryLatest(fits)
              case Err => r == Err && Value() == old(Value())
              case Ok((w, u)) => r == Ok(u) && Value() == w
    {
      if latest.None? { return Ok(None); }
      if Value().LatestCovered() { latest := None; return Ok(None); }
      if !acked { return Ok(None); }
      r := SendFromBase(latest.value, fits);
    }

    method RekeyLatest() returns (r: Outcome<Option<Update>>)
      modifies this
      ensures match old(Value()).RekeyLatest()
              case Err => r == Err && Value() == old(Value())
              case Ok((w, u)) => r == Ok(u) && Value() == w
    {
      if !acked || latest.None? { return Ok(None); }
      if Value().LatestCovered() { latest := None; return Ok(None); }
      r := InstallKeyframe(latest.value);
    }

    method Repair(q: RepairRequest) returns (r: Outcome<Option<Update>>)
      modifies this
      ensures match old(Value()).Repair(q)
              case Err => r == Err && Value() == old(Value())
              case Ok((w, u)) => r == Ok(u) && Value() == w
    {
      if q.missingBase == 0 || q.newestSeen < q.missingBase { return Err; }
      if q.epoch in retired { return Ok(None); }
      if q.epoch != base.epoch || q.missingBase > Value().LatestGeneration() { return Err; }
      if !acked { return Ok(None); }
      r := RekeyLatest();
      if r == Ok(None) {
        acked := false;
        r := Ok(Some(Keyframe(base)));
      }
    }

    method Acknowledge(a: Ack) returns (r: Outcome<bool>)
      modifies this
      ensures match old(Value()).Acknowledge(a)
              case Err => r == Err && Value() == old(Value())
              case Ok((w, advanced)) => r == Ok(advanced) && Value() == w
    {
      if a.generation == 0 { return Err; }
      if a.epoch in retired { return Ok(false); }
      var covered := latest.Some? && latest.value.epoch == a.epoch && latest.value.generation <= a.generation;
      if a.epoch == base.epoch && a.generation <= base.generation {
        if a.generation == base.generation { acked := true; }
        if covered { latest := None; }
        return Ok(false);
      }
      if a.epoch != base.epoch { return Err; }
      if a.generation !in sent {
        return if a.generation <= Value().LatestGeneration() then Ok(false) else Err;
      }
      base, acked := sent[a.generation], true;
      sent := map g | g in sent && g >= a.generation :: sent[g];
      if covered { latest := None; }
      r := Ok(true);
    }
  }

  /** When the oldest entry is not the kept one, it is also the oldest of the others. */
  lemma OldestSurvivesKept<V>(m: map<nat, V>, kept: nat)
    requires m.Keys != {} && FirstKey(m) != kept
    ensures (m - {kept}).Keys != {} && FirstKey(m - {kept}) == FirstKey(m)
  {
    var rest := m - {kept};
    assert FirstKey(m) in rest.Keys;
  }

  // ---------------------------------------------------------------- receiver

  datatype Disposition = Applied | Stale | MissingBase

  datatype Replica = Replica(route: Route, current: Option<State>, retained: map<nat, State>,
                             pinned: nat, limit: nat)
  {
    function Commit(s: State, pin: nat): Replica {
      this.(current := Some(s), pinned := pin,
            retained := Trim(retained[s.generation := s], pin, limit))
    }

    function ApplyKeyframe(s: State): Outcome<(Replica, Disposition)> {
      if !ValidViewport(s) then Err
      else if current.Some? && current.value.epoch == s.epoch && current.value.generation >= s.generation
      then Ok((this, Stale))
      else
        Ok((this.(retained := Kept(s)).Commit(s, s.generation), Applied))
    }

    /** A keyframe of another epoch drops every retained state. */
    function Kept(s: State): map<nat, State> {
      if current.Some? && current.value.epoch != s.epoch then map[] else retained
    }

    function ApplyDatagram(d: Datagram): Outcome<(Replica, Disposition)> {
      if d.route != route then Err
      else if current.Some? && current.value.epoch != d.diff.epoch then Ok((this, Stale))
      else if current.Some? && current.value.generation >= d.diff.targetGeneration then Ok((this, Stale))
      else if d.diff.baseGeneration !in retained then Ok((this, MissingBase))
      else if retained[d.diff.baseGeneration].epoch != d.diff.epoch then Ok((this, MissingBase))
      else
        match Decode(retained[d.diff.baseGeneration], d)
        case None => Err
        case Some(s) =>
          if !ValidViewport(s) then Err
          else Ok((Commit(s, d.diff.baseGeneration), Applied))
    }

    function RepairFor(d: Datagram): RepairRequest {
      RepairRequest(d.diff.epoch, d.diff.baseGeneration,
                    if current.Some? && current.value.epoch == d.diff.epoch
                       && current.value.generation > d.diff.targetGeneration
                    then current.value.generation else d.diff.targetGeneration)
    }
  }

  /** A fresh replica pins nothing: generation zero never names a state. */
  function NewReplica(route: Route, limit: nat): Replica {
    Replica(route, None, map[], 0, limit)
  }

  class StreamingReplica {
    const route: Route
    const limit: nat
    var current: Option<State>
    var retained: map<nat, State>
    var pinned: nat

    function Value(): Replica
      reads this
    {
      Replica(route, current, retained, pinned, limit)
    }

    constructor (route: Route, limit: nat)
      ensures Value() == NewReplica(route, limit)
    {
      this.route, this.limit := route, limit;
      current, retained, pinned := None, map[], 0;
    }

    method Remember(s: State)
      modifies this`retained
      ensures retained == Trim(old(retained)[s.generation := s], pinned, limit)
    {
      retained := retained[s.generation := s];
      ghost var all := retained;
      while |retained| > limit
        invariant Trim(all, pinned, limit) == Trim(retained, pinned, limit)
        decreases retained.Keys
      {
        var removable := retained - {pinned};
        if removable.Keys == {} { break; }
        retained := retained - {FirstKey(removable)};
      }
    }

    method ApplyKeyframe(s: State) returns (r: Outcome<Disposition>)
      modifies this
      ensures match old(Value()).ApplyKeyframe(s)
              case Err => r == Err && Value() == old(Value())
              case Ok((v, d)) => r == Ok(d) && Value() == v
    {
      hide ValidViewport, Trim;
      if !ValidViewport(s) { return Err; }
      if current.Some? && current.value.epoch == s.epoch && current.value.generation >= s.generation {
        return Ok(Stale);
      }
      if current.Some? && current.value.epoch != s.epoch { retained := map[]; }
      pinned := s.generation;
      Remember(s);
      current := Some(s);
      r := Ok(Applied);
    }

    method ApplyDatagram(d: Datagram) returns (r: Outcome<Disposition>)
      modifies this
      ensures match old(Value()).ApplyDatagram(d)
              case Err => r == Err && Value() == old(Value())
              case Ok((v, p)) => r == Ok(p) && Value() == v
    {
      hide Decode, ValidViewport, Trim;
      if d.route != route { return Err; }
      if current.Some? && current.value.epoch != d.diff.epoch { return Ok(Stale); }
      if current.Some? && current.value.generation >= d.diff.targetGeneration { return Ok(Stale); }
      if d.diff.baseGeneration !in retained { return Ok(MissingBase); }
      var base := retained[d.diff.baseGeneration];
      if base.epoch != d.diff.epoch { return Ok(MissingBase); }
      var target := Decode(base, d);
      if target.None? || !ValidViewport(target.value) { return Err; }
      pinned := d.diff.baseGeneration;
      Remember(target.value);
      current := target;
      r := Ok(Applied);
    }
  }

  // ---------------------------------------------------------------- mailbox

  /** One slot per attachment; a newer target replaces an unread older one. */
  datatype Mailbox = Mailbox(epoch: Option<Epoch>, generation: nat, slot: Option<Datagram>)
  {
    function Deliver(d: Datagram): Mailbox {
      if epoch != Some(d.diff.epoch) || d.diff.targetGeneration <= generation then this
      else this.(generation := d.diff.targetGeneration, slot := Some(d))
    }

    function CommitKeyframe(s: State): Mailbox {
      if epoch != Some(s.epoch) then Mailbox(Some(s.epoch), s.generation, None)
      else if s.generation > generation then this.(generation := s.generation) else this
    }

    function Take(): Mailbox { this.(slot := None) }
  }

  class DatagramMailbox {
    var epoch: Option<Epoch>
    var generation: nat
    var slot: Option<Datagram>

    function Value(): Mailbox
      reads this
    {
      Mailbox(epoch, generation, slot)
    }

    constructor ()
      ensures Value() == Mailbox(None, 0, None)
    {
      epoch, generation, slot := None, 0, None;
    }

    method Deliver(d: Datagram)
      modifies this
      ensures Value() == old(Value()).Deliver(d)
    {
      if epoch != Some(d.diff.epoch) || d.diff.targetGeneration <= generation { return; }
      generation, slot := d.diff.targetGeneration, Some(d);
    }

    method CommitKeyframe(s: State)
      modifies this
      ensures Value() == old(Value()).CommitKeyframe(s)
    {
      if epoch != Some(s.epoch) {
        slot, generation, epoch := None, s.generation, Some(s.epoch);
      } else if s.generation > generation {
        generation := s.generation;
      }
    }
  }
}
